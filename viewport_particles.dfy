/**
 * The particle background of the `frontend/` tree: a canvas the size of
 * the viewport in device pixels, at most 80 particles, and each frame
 * joins a particle only to the next eight in the array.
 */
module ViewportParticles {
  import opened Particles

  const MaxParticles := 80
  /** Device pixels of canvas area per particle. */
  const AreaPerParticle := 30000
  /** How many later particles each particle is compared with. */
  const MaxNeighbours := 8
  const MaxDist := 120.0
  /** `MaxDist` squared: lines are kept by squared length. */
  const MaxDistSq := 14400.0
  /** The opacity of the shortest line. */
  const LineFactor := 0.13
  const DriftFactor := 0.06

  /** `window.devicePixelRatio || 1`: a ratio of zero means one. */
  function PixelRatio(dpr: real): (r: real)
    ensures dpr > 0.0 ==> r == dpr
    ensures dpr == 0.0 ==> r == 1.0
  {
    if dpr == 0.0 then 1.0 else dpr
  }

  /** `Math.floor(length * ratio)`: a viewport length in device pixels. */
  function DevicePixels(length: nat, dpr: real): (px: nat)
    requires dpr >= 0.0
    ensures px as real <= length as real * PixelRatio(dpr) < px as real + 1.0
  {
    (length as real * PixelRatio(dpr)).Floor
  }

  /**
   * The number of particles for a canvas: one per 30000 device pixels of
   * area, rounded down, and never more than 80.
   */
  function ParticleCount(width: nat, height: nat): (c: nat)
    ensures c <= MaxParticles
    ensures c * AreaPerParticle <= width * height
    ensures c < MaxParticles ==> width * height < (c + 1) * AreaPerParticle
  {
    var byArea := (width * height) / AreaPerParticle;
    if byArea < MaxParticles then byArea else MaxParticles
  }

  /** A 1280 by 720 viewport has 30 particles; a 3840 by 2160 one has 80. */
  lemma CountExamples()
    ensures ParticleCount(DevicePixels(1280, 1.0), DevicePixels(720, 1.0)) == 30
    ensures ParticleCount(DevicePixels(3840, 1.0), DevicePixels(2160, 1.0)) == 80
  {
    assert DevicePixels(1280, 1.0) == 1280 && DevicePixels(720, 1.0) == 720;
    assert DevicePixels(3840, 1.0) == 3840 && DevicePixels(2160, 1.0) == 2160;
  }

  /** The drift of a frame whose clock reads `now`, for the advanced `x`. */
  function Drift(now: real, sine: real -> real, x: real): real {
    sine(now * 0.001 + x * 0.01) * DriftFactor
  }

  /** One particle's move in a frame whose clock reads `now`. */
  function Step(p: Particle, width: nat, height: nat, now: real, sine: real -> real): Particle {
    Advance(p, width, height, Drift(now, sine, p.x + p.vx))
  }

  /** Every particle after the frame's moves. */
  function StepAll(prev: seq<Particle>, width: nat, height: nat, now: real, sine: real -> real): (next: seq<Particle>)
    ensures |next| == |prev|
  {
    if prev == [] then []
    else StepAll(prev[..|prev| - 1], width, height, now, sine) + [Step(prev[|prev| - 1], width, height, now, sine)]
  }

  /** Particle `k` after the frame is particle `k` before it, moved. */
  lemma {:induction false} StepAllAt(prev: seq<Particle>, width: nat, height: nat, now: real, sine: real -> real, k: nat)
    requires k < |prev|
    ensures StepAll(prev, width, height, now, sine)[k] == Step(prev[k], width, height, now, sine)
  {
    if k < |prev| - 1 {
      StepAllAt(prev[..|prev| - 1], width, height, now, sine, k);
    }
  }

  /** One past the last index particle `i` is compared with. */
  function RowEnd(i: nat, n: nat): nat {
    if n < i + 1 + MaxNeighbours then n else i + 1 + MaxNeighbours
  }

  /** The pairs compared for the particles before `upto`, in order. */
  function NeighbourPairs(n: nat, upto: nat): (r: seq<Pair>)
    requires upto <= n
    ensures InRange(r, n)
  {
    if upto == 0 then []
    else NeighbourPairs(n, upto - 1) + RowPairs(upto - 1, upto, RowEnd(upto - 1, n))
  }

  /**
   * Particle `i` is compared with exactly `i + 1` up to
   * `min(n, i + 9) - 1`: no particle with itself, never an earlier one.
   */
  lemma {:induction false} NeighbourPairsHas(n: nat, upto: nat, p: Pair)
    requires upto <= n
    ensures p in NeighbourPairs(n, upto) <==> p.i < upto && p.i < p.j < RowEnd(p.i, n)
  {
    if upto > 0 {
      NeighbourPairsHas(n, upto - 1, p);
      var row := RowPairs(upto - 1, upto, RowEnd(upto - 1, n));
      if p in row {
        var k :| 0 <= k < |row| && row[k] == p;
      }
      if p.i == upto - 1 && p.i < p.j < RowEnd(p.i, n) {
        assert row[p.j - upto] == p;
      }
    }
  }

  /** At most eight comparisons per particle, so at most `8n` a frame. */
  lemma {:induction false} NeighbourPairsCount(n: nat, upto: nat)
    requires upto <= n
    ensures |NeighbourPairs(n, upto)| <= MaxNeighbours * upto
  {
    if upto > 0 {
      NeighbourPairsCount(n, upto - 1);
    }
  }

  /** No pair is compared twice in a frame. */
  lemma {:induction false} NeighbourPairsOnce(n: nat, upto: nat)
    requires upto <= n
    ensures NoRepeats(NeighbourPairs(n, upto))
    ensures forall k :: 0 <= k < |NeighbourPairs(n, upto)| ==> NeighbourPairs(n, upto)[k].i < upto
  {
    if upto > 0 {
      NeighbourPairsOnce(n, upto - 1);
      var before := NeighbourPairs(n, upto - 1);
      var row := RowPairs(upto - 1, upto, RowEnd(upto - 1, n));
      var all := before + row;
      forall a, b | 0 <= a < b < |all| ensures all[a] != all[b] {
        if b >= |before| && a < |before| {
          assert all[a].i < upto - 1 == all[b].i;
        } else if a >= |before| {
          assert all[a].j < all[b].j;
        }
      }
    }
  }

  /** The lines of a frame so far, followed by particle `i`'s row. */
  lemma NextRow(prev: seq<Particle>, next: seq<Particle>, i: nat, links: seq<Link>, row: seq<Link>)
    requires |prev| == |next| && i < |next|
    requires links == Connect(prev, next, NeighbourPairs(|next|, i), MaxDistSq)
    requires row == Connect(prev, next, RowPairs(i, i + 1, RowEnd(i, |next|)), MaxDistSq)
    ensures links + row == Connect(prev, next, NeighbourPairs(|next|, i + 1), MaxDistSq)
  {
    ConnectAppend(prev, next, NeighbourPairs(|next|, i), RowPairs(i, i + 1, RowEnd(i, |next|)), MaxDistSq);
  }

  /** Comparing particle `i` with `j`, after its neighbours below `j`. */
  lemma CompareStep(prev: seq<Particle>, next: seq<Particle>, i: nat, j: nat, row: seq<Link>, d: real)
    requires |prev| == |next| && i < j < |next|
    requires row == Connect(prev, next, RowPairs(i, i + 1, j), MaxDistSq)
    requires d == DistSq(next[i], Seen(prev, next, i, j))
    ensures InRange(RowPairs(i, i + 1, j + 1), |next|)
    ensures Connect(prev, next, RowPairs(i, i + 1, j + 1), MaxDistSq)
         == row + if d < MaxDistSq then [Link(i, j, d)] else []
  {
    RowPairsInRange(i, i + 1, j, |next|);
    CompareNext(prev, next, RowPairs(i, i + 1, j), Pair(i, j), MaxDistSq, row, d);
  }

  /** The particle background's canvas and particles. */
  class ViewportCanvas {
    var width: nat
    var height: nat
    var particles: array<Particle>

    /** Mounting: size the canvas, then seed the particles. */
    constructor(innerWidth: nat, innerHeight: nat, dpr: real, random: nat -> real)
      requires dpr >= 0.0
      ensures width == DevicePixels(innerWidth, dpr) && height == DevicePixels(innerHeight, dpr)
      ensures fresh(particles) && particles.Length == ParticleCount(width, height)
      ensures forall k :: 0 <= k < particles.Length ==>
        particles[k] == Seed(random, DrawsPerParticle * k, width, height)
    {
      width := DevicePixels(innerWidth, dpr);
      height := DevicePixels(innerHeight, dpr);
      particles := new Particle[0];
      new;
      CreateParticles(random);
    }

    /** `resizeCanvas`: the canvas takes the viewport's size in device pixels. */
    method ResizeCanvas(innerWidth: nat, innerHeight: nat, dpr: real)
      requires dpr >= 0.0
      modifies this
      ensures width == DevicePixels(innerWidth, dpr) && height == DevicePixels(innerHeight, dpr)
      ensures particles == old(particles)
    {
      var ratio := if dpr == 0.0 then 1.0 else dpr;
      width := (innerWidth as real * ratio).Floor;
      height := (innerHeight as real * ratio).Floor;
    }

    /**
     * `createParticles`: a new array of `ParticleCount` particles, the
     * `k`-th built from draws `7k` to `7k + 6`, replaces the old one.
     */
    method CreateParticles(random: nat -> real)
      modifies this
      ensures width == old(width) && height == old(height)
      ensures fresh(particles) && particles.Length == ParticleCount(width, height)
      ensures forall k :: 0 <= k < particles.Length ==>
        particles[k] == Seed(random, DrawsPerParticle * k, width, height)
    {
      var count := ParticleCount(width, height);
      var created := new Particle[count];
      for i := 0 to count
        modifies created
        invariant forall k :: 0 <= k < i ==> created[k] == Seed(random, DrawsPerParticle * k, width, height)
      {
        created[i] := Particle(
          random(DrawsPerParticle * i) * width as real,
          random(DrawsPerParticle * i + 1) * height as real,
          (random(DrawsPerParticle * i + 2) - 0.5) * 0.6,
          (random(DrawsPerParticle * i + 3) - 0.5) * 0.6,
          random(DrawsPerParticle * i + 4) * 2.5 + 0.5,
          random(DrawsPerParticle * i + 5) * 0.7 + 0.3,
          (random(DrawsPerParticle * i + 6) * ColorCount as real).Floor);
      }
      particles := created;
    }

    /** A window resize re-sizes the canvas and then re-seeds. */
    method HandleResize(innerWidth: nat, innerHeight: nat, dpr: real, random: nat -> real)
      requires dpr >= 0.0
      modifies this
      ensures width == DevicePixels(innerWidth, dpr) && height == DevicePixels(innerHeight, dpr)
      ensures fresh(particles) && particles.Length == ParticleCount(width, height)
      ensures forall k :: 0 <= k < particles.Length ==>
        particles[k] == Seed(random, DrawsPerParticle * k, width, height)
    {
      ResizeCanvas(innerWidth, innerHeight, dpr);
      CreateParticles(random);
    }

    /**
     * One frame, with the clock read once as `now`: each particle in index
     * order is moved and wrapped, then compared with the next eight; the
     * lines drawn are the comparisons closer than 120 pixels, each seeing
     * the later particle where it was before this frame.
     */
    method Animate(now: real, sine: real -> real) returns (links: seq<Link>)
      modifies particles
      ensures particles[..] == StepAll(old(particles[..]), width, height, now, sine)
      ensures links == Connect(old(particles[..]), particles[..],
                               NeighbourPairs(particles.Length, particles.Length), MaxDistSq)
    {
      ghost var prev := particles[..];
      ghost var next := StepAll(prev, width, height, now, sine);
      var n := particles.Length;
      links := [];
      FrameEnds(prev, next);
      var i := 0;
      while i < n
        invariant 0 <= i <= n
        invariant particles[..] == next[..i] + prev[i..]
        invariant links == Connect(prev, next, NeighbourPairs(n, i), MaxDistSq)
      {
        links := Visit(i, now, sine, prev, next, links);
        i := i + 1;
      }
    }

    /**
     * The frame's work for particle `i`: move it, then compare it with
     * the next eight, adding the lines drawn to `links`.
     */
    method Visit(i: nat, now: real, sine: real -> real, ghost prev: seq<Particle>, ghost next: seq<Particle>,
                 links: seq<Link>) returns (linksAfter: seq<Link>)
      requires i < particles.Length && |prev| == |next| == particles.Length
      requires particles[..] == next[..i] + prev[i..]
      requires next == StepAll(prev, width, height, now, sine)
      requires links == Connect(prev, next, NeighbourPairs(particles.Length, i), MaxDistSq)
      modifies particles
      ensures particles[..] == next[..i + 1] + prev[i + 1..]
      ensures linksAfter == Connect(prev, next, NeighbourPairs(particles.Length, i + 1), MaxDistSq)
    {
      ghost var before := particles[..];
      StepAllAt(prev, width, height, now, sine, i);
      Move(i, now, sine);
      MovedOneMore(prev, next, i, before, particles[..]);
      forall k | 0 <= k < particles.Length ensures particles[k] == Seen(prev, next, i, k) {
        SeenMidFrame(prev, next, i, particles[..], k);
      }
      var row := CompareNeighbours(i, prev, next);
      NextRow(prev, next, i, links, row);
      linksAfter := links + row;
    }

    /** Move particle `i` and wrap it; every other particle stays put. */
    method Move(i: nat, now: real, sine: real -> real)
      requires i < particles.Length
      modifies particles
      ensures particles[..] == old(particles[..])[i := Step(old(particles[i]), width, height, now, sine)]
    {
      var particle := particles[i];
      var x := particle.x + particle.vx;
      var y := particle.y + (particle.vy + sine(now * 0.001 + x * 0.01) * DriftFactor);
      if x < 0.0 { x := width as real; }
      if x > width as real { x := 0.0; }
      if y < 0.0 { y := height as real; }
      if y > height as real { y := 0.0; }
      particles[i] := particle.(x := x, y := y);
    }

    /**
     * The comparisons of particle `i`, already moved, with the next eight,
     * not yet moved: the lines are those of `Connect` for that row.
     */
    method CompareNeighbours(i: nat, ghost prev: seq<Particle>, ghost next: seq<Particle>) returns (row: seq<Link>)
      requires i < particles.Length && |prev| == |next| == particles.Length
      requires forall k :: 0 <= k < particles.Length ==> particles[k] == Seen(prev, next, i, k)
      ensures row == Connect(prev, next, RowPairs(i, i + 1, RowEnd(i, particles.Length)), MaxDistSq)
    {
      var n := particles.Length;
      row := [];
      var particle := particles[i];
      assert particle == next[i];
      var j := i + 1;
      var stop := RowEnd(i, n);
      while j < stop
        invariant i + 1 <= j <= stop
        invariant (RowPairsInRange(i, i + 1, j, n); row == Connect(prev, next, RowPairs(i, i + 1, j), MaxDistSq))
      {
        var otherParticle := particles[j];
        assert otherParticle == Seen(prev, next, i, j);
        var distanceSq := DistSq(particle, otherParticle);
        CompareStep(prev, next, i, j, row, distanceSq);
        if distanceSq < MaxDistSq {
          row := row + [Link(i, j, distanceSq)];
        }
        j := j + 1;
      }
    }
  }

  /**
   * A line this background draws has an opacity above zero and at most
   * 0.13.
   */
  lemma LineOpacity(d: real)
    requires d >= 0.0 && d * d < MaxDistSq
    ensures 0.0 < LineAlpha(d, MaxDist, LineFactor) <= LineFactor
  {
    LineAlphaRange(d, MaxDist, LineFactor);
  }
}
