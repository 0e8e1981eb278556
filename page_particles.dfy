/**
 * The particle background of the top-level `src/` tree: a canvas as wide
 * as the window and as tall as the whole page, at most 120 particles, and
 * each frame compares every particle with every other one.
 */
module PageParticles {
  import opened Particles

  const MaxParticles := 120
  /** Canvas pixels of area per particle. */
  const AreaPerParticle := 10000
  const MaxDist := 140.0
  /** `MaxDist` squared: lines are kept by squared length. */
  const MaxDistSq := 19600.0
  /** The opacity of the shortest line. */
  const LineFactor := 0.15
  const DriftFactor := 0.1

  /** The canvas height: the window's, or the page's when that is taller. */
  function CanvasHeight(innerHeight: nat, scrollHeight: nat): (h: nat)
    ensures h >= innerHeight && h >= scrollHeight
    ensures h == innerHeight || h == scrollHeight
  {
    if innerHeight < scrollHeight then scrollHeight else innerHeight
  }

  /**
   * The number of particles for a canvas: one per 10000 pixels of area,
   * rounded down, and never more than 120.
   */
  function ParticleCount(width: nat, height: nat): (c: nat)
    ensures c <= MaxParticles
    ensures c * AreaPerParticle <= width * height
    ensures c < MaxParticles ==> width * height < (c + 1) * AreaPerParticle
  {
    var byArea := (width * height) / AreaPerParticle;
    if byArea < MaxParticles then byArea else MaxParticles
  }

  /**
   * A 1280 by 720 window over a page 3000 pixels tall draws on a
   * 1280 by 3000 canvas and reaches the cap; a 400 by 700 phone window on
   * a short page has 28 particles.
   */
  lemma CountExamples()
    ensures ParticleCount(1280, CanvasHeight(720, 3000)) == 120
    ensures ParticleCount(400, CanvasHeight(700, 500)) == 28
  {
  }

  /** One particle's move, with the clock read as `t` for this particle. */
  function Step(p: Particle, width: nat, height: nat, t: real, sine: real -> real): Particle {
    Advance(p, width, height, sine(t * 0.001 + (p.x + p.vx) * 0.01) * DriftFactor)
  }

  /**
   * Every particle after the frame's moves; the clock is read again for
   * each particle, `clock(k)` being the reading when particle `k` moves.
   */
  function StepAll(prev: seq<Particle>, width: nat, height: nat, clock: nat -> real, sine: real -> real): (next: seq<Particle>)
    ensures |next| == |prev|
  {
    if prev == [] then []
    else StepAll(prev[..|prev| - 1], width, height, clock, sine)
         + [Step(prev[|prev| - 1], width, height, clock(|prev| - 1), sine)]
  }

  /** Particle `k` after the frame is particle `k` before it, moved with the clock reading `clock(k)`. */
  lemma {:induction false} StepAllAt(prev: seq<Particle>, width: nat, height: nat, clock: nat -> real, sine: real -> real, k: nat)
    requires k < |prev|
    ensures StepAll(prev, width, height, clock, sine)[k] == Step(prev[k], width, height, clock(k), sine)
  {
    if k < |prev| - 1 {
      StepAllAt(prev[..|prev| - 1], width, height, clock, sine, k);
    }
  }

  /**
   * After a frame every particle is on the canvas, wherever it was before
   * (a scroll can shrink the canvas under particles it leaves in place).
   */
  lemma {:induction false} StepAllOnCanvas(prev: seq<Particle>, width: nat, height: nat, clock: nat -> real, sine: real -> real)
    ensures forall k :: 0 <= k < |prev| ==>
      var q := StepAll(prev, width, height, clock, sine)[k];
      0.0 <= q.x <= width as real && 0.0 <= q.y <= height as real
  {
    var next := StepAll(prev, width, height, clock, sine);
    forall k | 0 <= k < |prev|
      ensures 0.0 <= next[k].x <= width as real && 0.0 <= next[k].y <= height as real
    {
      StepAllAt(prev, width, height, clock, sine, k);
      assert next[k] == Advance(prev[k], width, height, sine(clock(k) * 0.001 + (prev[k].x + prev[k].vx) * 0.01) * DriftFactor);
    }
  }

  /** The pairs `(i, j)` for every `j` below `hi` other than `i`, in order of `j`. */
  function Others(i: nat, hi: nat): (r: seq<Pair>)
    ensures |r| == if i < hi then hi - 1 else hi
    ensures forall k :: 0 <= k < |r| ==> r[k].i == i && r[k].j < hi && r[k].j != i
  {
    if hi == 0 then []
    else if hi - 1 == i then Others(i, hi - 1)
    else Others(i, hi - 1) + [Pair(i, hi - 1)]
  }

  /** `Others(i, hi)` holds exactly the pairs of `i` with another index below `hi`. */
  lemma {:induction false} OthersHas(i: nat, hi: nat, p: Pair)
    ensures p in Others(i, hi) <==> p.i == i && p.j < hi && p.j != i
  {
    if hi > 0 {
      OthersHas(i, hi - 1, p);
      if p == Pair(i, hi - 1) && hi - 1 != i {
        assert Others(i, hi)[|Others(i, hi)| - 1] == p;
      }
    }
  }

  /** Within one row the other index strictly increases. */
  lemma {:induction false} OthersIncreasing(i: nat, hi: nat)
    ensures forall a, b :: 0 <= a < b < |Others(i, hi)| ==> Others(i, hi)[a].j < Others(i, hi)[b].j
  {
    if hi > 0 {
      OthersIncreasing(i, hi - 1);
    }
  }

  /** The pairs compared for the particles before `upto`, in order. */
  function AllPairs(n: nat, upto: nat): (r: seq<Pair>)
    requires upto <= n
    ensures InRange(r, n)
  {
    if upto == 0 then []
    else AllPairs(n, upto - 1) + Others(upto - 1, n)
  }

  /**
   * Every ordered pair of distinct particles is compared, and no particle
   * with itself: so two close particles get a line in each direction.
   */
  lemma {:induction false} AllPairsHas(n: nat, upto: nat, p: Pair)
    requires upto <= n
    ensures p in AllPairs(n, upto) <==> p.i < upto && p.j < n && p.i != p.j
  {
    if upto > 0 {
      AllPairsHas(n, upto - 1, p);
      OthersHas(upto - 1, n, p);
    }
  }

  /** A frame makes `n(n - 1)` comparisons. */
  lemma {:induction false} AllPairsCount(n: nat, upto: nat)
    requires upto <= n
    ensures |AllPairs(n, upto)| == upto * (n - 1)
  {
    if upto > 0 {
      AllPairsCount(n, upto - 1);
      assert |AllPairs(n, upto)| == (upto - 1) * (n - 1) + (n - 1);
    }
  }

  /** No ordered pair is compared twice in a frame. */
  lemma {:induction false} AllPairsOnce(n: nat, upto: nat)
    requires upto <= n
    ensures NoRepeats(AllPairs(n, upto))
    ensures forall k :: 0 <= k < |AllPairs(n, upto)| ==> AllPairs(n, upto)[k].i < upto
  {
    if upto > 0 {
      AllPairsOnce(n, upto - 1);
      OthersIncreasing(upto - 1, n);
      var before := AllPairs(n, upto - 1);
      var row := Others(upto - 1, n);
      var all := before + row;
      forall a, b | 0 <= a < b < |all| ensures all[a] != all[b] {
        if b >= |before| && a < |before| {
          assert all[a].i < upto - 1 == all[b].i;
        } else if a >= |before| {
          assert all[a].j < all[b].j by {
            assert all[a] == row[a - |before|] && all[b] == row[b - |before|];
          }
        }
      }
    }
  }

  /** Comparing particle `i` with `j`, after the others below `j`. */
  lemma CompareStep(prev: seq<Particle>, next: seq<Particle>, i: nat, j: nat, row: seq<Link>, d: real)
    requires |prev| == |next| && i < |next| && j < |next| && j != i
    requires row == Connect(prev, next, Others(i, j), MaxDistSq)
    requires d == DistSq(next[i], Seen(prev, next, i, j))
    ensures Connect(prev, next, Others(i, j + 1), MaxDistSq)
         == row + if d < MaxDistSq then [Link(i, j, d)] else []
  {
    CompareNext(prev, next, Others(i, j), Pair(i, j), MaxDistSq, row, d);
  }

  /** The lines of a frame so far, followed by particle `i`'s row. */
  lemma NextRow(prev: seq<Particle>, next: seq<Particle>, i: nat, links: seq<Link>, row: seq<Link>)
    requires |prev| == |next| && i < |next|
    requires links == Connect(prev, next, AllPairs(|next|, i), MaxDistSq)
    requires row == Connect(prev, next, Others(i, |next|), MaxDistSq)
    ensures links + row == Connect(prev, next, AllPairs(|next|, i + 1), MaxDistSq)
  {
    ConnectAppend(prev, next, AllPairs(|next|, i), Others(i, |next|), MaxDistSq);
  }

  /** The particle background's canvas and particles. */
  class PageCanvas {
    var width: nat
    var height: nat
    var particles: array<Particle>

    /** Mounting: size the canvas, then seed the particles. */
    constructor(innerWidth: nat, innerHeight: nat, scrollHeight: nat, random: nat -> real)
      ensures width == innerWidth && height == CanvasHeight(innerHeight, scrollHeight)
      ensures fresh(particles) && particles.Length == ParticleCount(width, height)
      ensures forall k :: 0 <= k < particles.Length ==>
        particles[k] == Seed(random, DrawsPerParticle * k, width, height)
    {
      width := innerWidth;
      height := CanvasHeight(innerHeight, scrollHeight);
      particles := new Particle[0];
      new;
      CreateParticles(random);
    }

    /** `resizeCanvas`: the window's width and the taller of window and page. */
    method ResizeCanvas(innerWidth: nat, innerHeight: nat, scrollHeight: nat)
      modifies this
      ensures width == innerWidth && height == CanvasHeight(innerHeight, scrollHeight)
      ensures particles == old(particles)
    {
      width := innerWidth;
      height := if innerHeight < scrollHeight then scrollHeight else innerHeight;
    }

    /**
     * `createParticles`: a new array of `ParticleCount` particles, the
     * `k`-th built from draws `7k` to `7k + 6`, replaces the old one.
     */
    method CreateParticles(random: nat -> real)
      modifies this
      ensures width == old(width) && height == old(height)
      ensures fresh(particles) && particles.Length == ParticleCount(width, height)
      ensures forall k :: 0 <= k < particles.Length ==>
        particles[k] == Seed(random, DrawsPerParticle * k, width, height)
    {
      var count := ParticleCount(width, height);
      var created := new Particle[count];
      for i := 0 to count
        modifies created
        invariant forall k :: 0 <= k < i ==> created[k] == Seed(random, DrawsPerParticle * k, width, height)
      {
        created[i] := Particle(
          random(DrawsPerParticle * i) * width as real,
          random(DrawsPerParticle * i + 1) * height as real,
          (random(DrawsPerParticle * i + 2) - 0.5) * 0.6,
          (random(DrawsPerParticle * i + 3) - 0.5) * 0.6,
          random(DrawsPerParticle * i + 4) * 2.5 + 0.5,
          random(DrawsPerParticle * i + 5) * 0.7 + 0.3,
          (random(DrawsPerParticle * i + 6) * ColorCount as real).Floor);
      }
      particles := created;
    }

    /** A window resize re-sizes the canvas and then re-seeds. */
    method HandleResize(innerWidth: nat, innerHeight: nat, scrollHeight: nat, random: nat -> real)
      modifies this
      ensures width == innerWidth && height == CanvasHeight(innerHeight, scrollHeight)
      ensures fresh(particles) && particles.Length == ParticleCount(width, height)
      ensures forall k :: 0 <= k < particles.Length ==>
        particles[k] == Seed(random, DrawsPerParticle * k, width, height)
    {
      ResizeCanvas(innerWidth, innerHeight, scrollHeight);
      CreateParticles(random);
    }

    /**
     * A scroll only re-sizes the canvas: the particles, their number and
     * their positions stay as they were, even where they now lie off it.
     */
    method HandleScroll(innerWidth: nat, innerHeight: nat, scrollHeight: nat)
      modifies this
      ensures width == innerWidth && height == CanvasHeight(innerHeight, scrollHeight)
      ensures particles == old(particles) && particles[..] == old(particles[..])
    {
      ResizeCanvas(innerWidth, innerHeight, scrollHeight);
    }

    /**
     * One frame: each particle in index order is moved and wrapped, with
     * the clock read afresh for it, then compared with every other
     * particle; the lines drawn are the comparisons closer than 140
     * pixels, each seeing earlier particles moved and later ones not yet.
     */
    method Animate(clock: nat -> real, sine: real -> real) returns (links: seq<Link>)
      modifies particles
      ensures particles[..] == StepAll(old(particles[..]), width, height, clock, sine)
      ensures links == Connect(old(particles[..]), particles[..],
                               AllPairs(particles.Length, particles.Length), MaxDistSq)
    {
      ghost var prev := particles[..];
      ghost var next := StepAll(prev, width, height, clock, sine);
      var n := particles.Length;
      links := [];
      FrameEnds(prev, next);
      var i := 0;
      while i < n
        invariant 0 <= i <= n
        invariant particles[..] == next[..i] + prev[i..]
        invariant links == Connect(prev, next, AllPairs(n, i), MaxDistSq)
      {
        links := Visit(i, clock, sine, prev, next, links);
        i := i + 1;
      }
    }

    /**
     * The frame's work for particle `i`: move it with a fresh clock
     * reading, then compare it with every other particle, adding the
     * lines drawn to `links`.
     */
    method Visit(i: nat, clock: nat -> real, sine: real -> real, ghost prev: seq<Particle>, ghost next: seq<Particle>,
                 links: seq<Link>) returns (linksAfter: seq<Link>)
      requires i < particles.Length && |prev| == |next| == particles.Length
      requires particles[..] == next[..i] + prev[i..]
      requires next == StepAll(prev, width, height, clock, sine)
      requires links == Connect(prev, next, AllPairs(particles.Length, i), MaxDistSq)
      modifies particles
      ensures particles[..] == next[..i + 1] + prev[i + 1..]
      ensures linksAfter == Connect(prev, next, AllPairs(particles.Length, i + 1), MaxDistSq)
    {
      ghost var before := particles[..];
      StepAllAt(prev, width, height, clock, sine, i);
      Move(i, clock(i), sine);
      MovedOneMore(prev, next, i, before, particles[..]);
      forall k | 0 <= k < particles.Length ensures particles[k] == Seen(prev, next, i, k) {
        SeenMidFrame(prev, next, i, particles[..], k);
      }
      var row := CompareOthers(i, prev, next);
      NextRow(prev, next, i, links, row);
      linksAfter := links + row;
    }

    /** Move particle `i` with the clock reading `t` and wrap it; nothing else changes. */
    method Move(i: nat, t: real, sine: real -> real)
      requires i < particles.Length
      modifies particles
      ensures particles[..] == old(particles[..])[i := Step(old(particles[i]), width, height, t, sine)]
    {
      var particle := particles[i];
      var x := particle.x + particle.vx;
      var y := particle.y + (particle.vy + sine(t * 0.001 + x * 0.01) * DriftFactor);
      if x < 0.0 { x := width as real; }
      if x > width as real { x := 0.0; }
      if y < 0.0 { y := height as real; }
      if y > height as real { y := 0.0; }
      particles[i] := particle.(x := x, y := y);
    }

    /**
     * The comparisons of particle `i`, already moved, with every other
     * particle, those before it moved and those after it not yet: the
     * lines are those of `Connect` for that row.
     */
    method CompareOthers(i: nat, ghost prev: seq<Particle>, ghost next: seq<Particle>) returns (row: seq<Link>)
      requires i < particles.Length && |prev| == |next| == particles.Length
      requires forall k :: 0 <= k < particles.Length ==> particles[k] == Seen(prev, next, i, k)
      ensures row == Connect(prev, next, Others(i, particles.Length), MaxDistSq)
    {
      var n := particles.Length;
      row := [];
      var particle := particles[i];
      assert particle == next[i];
      var j := 0;
      while j < n
        invariant 0 <= j <= n
        invariant row == Connect(prev, next, Others(i, j), MaxDistSq)
      {
        if j != i {
          var otherParticle := particles[j];
          assert otherParticle == Seen(prev, next, i, j);
          var distanceSq := DistSq(particle, otherParticle);
          CompareStep(prev, next, i, j, row, distanceSq);
          if distanceSq < MaxDistSq {
            row := row + [Link(i, j, distanceSq)];
          }
        } else {
          assert Others(i, j + 1) == Others(i, j);
        }
        j := j + 1;
      }
    }
  }

  /**
   * A line this background draws has an opacity above zero and at most
   * 0.15.
   */
  lemma LineOpacity(d: real)
    requires d >= 0.0 && d * d < MaxDistSq
    ensures 0.0 < LineAlpha(d, MaxDist, LineFactor) <= LineFactor
  {
    LineAlphaRange(d, MaxDist, LineFactor);
  }
}
