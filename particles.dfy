/**
 * What the two particle backgrounds share: the particle record, seeding
 * from random draws, the per-frame move with wrap-around, and the lines
 * drawn between particles that are close enough.
 *
 * Positions are reals; `Math.random()`, `Math.sin` and the clock are
 * inputs, and a line's length is kept squared (no square root).
 */
module Particles {
  /** A particle; `color` indexes the six-colour palette. */
  datatype Particle = Particle(x: real, y: real, vx: real, vy: real, size: real, opacity: real, color: int)

  /** The palette's length. */
  const ColorCount := 6
  /** `Math.random()` is called this many times per particle. */
  const DrawsPerParticle := 7

  /**
   * The particle built from the draws `random(base)` to `random(base + 6)`
   * for a canvas of `width` by `height`: position, velocity, size,
   * opacity, then colour.
   */
  function Seed(random: nat -> real, base: nat, width: nat, height: nat): Particle {
    Particle(
      random(base) * width as real,
      random(base + 1) * height as real,
      (random(base + 2) - 0.5) * 0.6,
      (random(base + 3) - 0.5) * 0.6,
      random(base + 4) * 2.5 + 0.5,
      random(base + 5) * 0.7 + 0.3,
      (random(base + 6) * ColorCount as real).Floor)
  }

  /** Every draw lies in [0, 1), as `Math.random()` promises. */
  predicate UnitDraws(random: nat -> real, base: nat) {
    forall k :: base <= k < base + DrawsPerParticle ==> 0.0 <= random(k) < 1.0
  }

  /**
   * A seeded particle lies on the canvas (inside it when it has area),
   * moves less than 0.3 a frame in each direction, has a size in
   * [0.5, 3.0), an opacity in [0.3, 1.0) and a palette colour.
   */
  lemma SeedRanges(random: nat -> real, base: nat, width: nat, height: nat)
    requires UnitDraws(random, base)
    ensures var p := Seed(random, base, width, height);
      && 0.0 <= p.x <= width as real && (width > 0 ==> p.x < width as real)
      && 0.0 <= p.y <= height as real && (height > 0 ==> p.y < height as real)
      && -0.3 <= p.vx < 0.3 && -0.3 <= p.vy < 0.3
      && 0.5 <= p.size < 3.0
      && 0.3 <= p.opacity < 1.0
      && 0 <= p.color < ColorCount
  {
    assert 0.0 <= random(base) < 1.0;
    assert 0.0 <= random(base + 1) < 1.0;
    assert 0.0 <= random(base + 2) < 1.0 && 0.0 <= random(base + 3) < 1.0;
    assert 0.0 <= random(base + 4) < 1.0 && 0.0 <= random(base + 5) < 1.0;
    assert 0.0 <= random(base + 6) < 1.0;
    ScaleBelow(random(base), width as real);
    ScaleBelow(random(base + 1), height as real);
    ScaleBelow(random(base + 6), ColorCount as real);
  }

  lemma ScaleBelow(r: real, d: real)
    requires 0.0 <= r < 1.0 && d >= 0.0
    ensures 0.0 <= r * d <= d
    ensures d > 0.0 ==> r * d < d
  {
  }

  /**
   * The wrap-around of one coordinate: below zero it jumps to the far
   * edge, beyond the far edge it jumps to zero. The far edge itself is
   * kept, so the result lies in the closed range [0, dim].
   */
  function Wrap(v: real, dim: nat): (r: real)
    ensures 0.0 <= r <= dim as real
    ensures 0.0 <= v <= dim as real ==> r == v
    ensures v < 0.0 ==> r == dim as real
    ensures v > dim as real ==> r == 0.0
  {
    var v1 := if v < 0.0 then dim as real else v;
    if v1 > dim as real then 0.0 else v1
  }

  /**
   * One frame's move: `x` advances by `vx`, `y` by `vy` plus `drift`
   * (the sine term, computed from the advanced `x`), then both wrap.
   * Nothing but the position changes, and the position ends on the canvas.
   */
  function Advance(p: Particle, width: nat, height: nat, drift: real): (q: Particle)
    ensures q.vx == p.vx && q.vy == p.vy && q.size == p.size
    ensures q.opacity == p.opacity && q.color == p.color
    ensures 0.0 <= q.x <= width as real && 0.0 <= q.y <= height as real
    ensures q.x == Wrap(p.x + p.vx, width) && q.y == Wrap(p.y + p.vy + drift, height)
  {
    p.(x := Wrap(p.x + p.vx, width), y := Wrap(p.y + p.vy + drift, height))
  }

  /** The squared distance between two particles. */
  function DistSq(a: Particle, b: Particle): (d: real)
    ensures d >= 0.0
  {
    (a.x - b.x) * (a.x - b.x) + (a.y - b.y) * (a.y - b.y)
  }

  /** A line the frame draws, from particle `from` to particle `to`. */
  datatype Link = Link(from: nat, to: nat, distSq: real)

  /** A pair of indices the frame compares: `(index, otherIndex)`. */
  datatype Pair = Pair(i: nat, j: nat)

  predicate InRange(pairs: seq<Pair>, n: nat) {
    forall k :: 0 <= k < |pairs| ==> pairs[k].i < n && pairs[k].j < n
  }

  /**
   * The particle `j` as particle `i`'s comparison finds it: the frame
   * moves particles in index order and compares each one right after
   * moving it, so the ones up to `i` are already moved and the rest not.
   */
  function Seen(prev: seq<Particle>, next: seq<Particle>, i: nat, j: nat): Particle
    requires |prev| == |next| && j < |next|
  {
    if j <= i then next[j] else prev[j]
  }

  /** Before a frame moves anything, and after it has moved everything. */
  lemma FrameEnds<T>(prev: seq<T>, next: seq<T>)
    requires |prev| == |next|
    ensures next[..0] + prev[0..] == prev
    ensures next[..|next|] + prev[|prev|..] == next
  {
    assert next[..0] + prev[0..] == prev;
    assert next[..|next|] + prev[|prev|..] == next;
  }

  /** Moving particle `i` extends the moved prefix of a frame by one. */
  lemma MovedOneMore(prev: seq<Particle>, next: seq<Particle>, i: nat, before: seq<Particle>, after: seq<Particle>)
    requires |prev| == |next| && i < |next|
    requires before == next[..i] + prev[i..]
    requires after == before[i := next[i]]
    ensures after == next[..i + 1] + prev[i + 1..]
  {
    assert forall k :: 0 <= k < |after| ==> after[k] == (next[..i + 1] + prev[i + 1..])[k];
  }

  /**
   * Halfway through a frame, with the particles up to `i` moved and the
   * rest not, the array holds each particle as `i`'s comparison sees it.
   */
  lemma SeenMidFrame(prev: seq<Particle>, next: seq<Particle>, i: nat, current: seq<Particle>, j: nat)
    requires |prev| == |next| && i < |next| && j < |next|
    requires current == next[..i + 1] + prev[i + 1..]
    ensures current[j] == Seen(prev, next, i, j)
  {
  }

  /** The line (if any) the comparison of one pair draws. */
  function Compare(prev: seq<Particle>, next: seq<Particle>, p: Pair, maxSq: real): seq<Link>
    requires |prev| == |next| && p.i < |next| && p.j < |next|
  {
    var d := DistSq(next[p.i], Seen(prev, next, p.i, p.j));
    if d < maxSq then [Link(p.i, p.j, d)] else []
  }

  /**
   * The lines drawn while comparing `pairs` in order: one per pair whose
   * squared distance, as seen at that moment, is below `maxSq`.
   */
  function Connect(prev: seq<Particle>, next: seq<Particle>, pairs: seq<Pair>, maxSq: real): (r: seq<Link>)
    requires |prev| == |next| && InRange(pairs, |next|)
    ensures |r| <= |pairs|
  {
    if pairs == [] then []
    else Connect(prev, next, pairs[..|pairs| - 1], maxSq) + Compare(prev, next, pairs[|pairs| - 1], maxSq)
  }

  lemma ConnectSnoc(prev: seq<Particle>, next: seq<Particle>, pairs: seq<Pair>, p: Pair, maxSq: real)
    requires |prev| == |next| && InRange(pairs, |next|) && p.i < |next| && p.j < |next|
    ensures InRange(pairs + [p], |next|)
    ensures Connect(prev, next, pairs + [p], maxSq) == Connect(prev, next, pairs, maxSq) + Compare(prev, next, p, maxSq)
  {
    assert (pairs + [p])[..|pairs|] == pairs;
  }

  /**
   * Comparing one more pair, whose squared distance as seen then is `d`,
   * adds its line when `d` is below `maxSq`.
   */
  lemma CompareNext(prev: seq<Particle>, next: seq<Particle>, pairs: seq<Pair>, p: Pair, maxSq: real,
                    drawn: seq<Link>, d: real)
    requires |prev| == |next| && InRange(pairs, |next|) && p.i < |next| && p.j < |next|
    requires drawn == Connect(prev, next, pairs, maxSq)
    requires d == DistSq(next[p.i], Seen(prev, next, p.i, p.j))
    ensures InRange(pairs + [p], |next|)
    ensures Connect(prev, next, pairs + [p], maxSq) == drawn + if d < maxSq then [Link(p.i, p.j, d)] else []
  {
    ConnectSnoc(prev, next, pairs, p, maxSq);
  }

  /** Comparing `a` then `b` draws the lines of `a`, then those of `b`. */
  lemma {:induction false} ConnectAppend(prev: seq<Particle>, next: seq<Particle>, a: seq<Pair>, b: seq<Pair>, maxSq: real)
    requires |prev| == |next| && InRange(a, |next|) && InRange(b, |next|)
    ensures InRange(a + b, |next|)
    ensures Connect(prev, next, a + b, maxSq) == Connect(prev, next, a, maxSq) + Connect(prev, next, b, maxSq)
    decreases |b|
  {
    InRangeAppend(a, b, |next|);
    if b == [] {
      assert a + b == a;
    } else {
      var init := b[..|b| - 1];
      var last := b[|b| - 1];
      assert b == init + [last];
      InRangeSplit(a, init, last, |next|);
      assert Connect(prev, next, a + init, maxSq) == Connect(prev, next, a, maxSq) + Connect(prev, next, init, maxSq) by {
        ConnectAppend(prev, next, a, init, maxSq);
      }
      assert Connect(prev, next, a + b, maxSq) == Connect(prev, next, a + init, maxSq) + Compare(prev, next, last, maxSq) by {
        assert a + b == (a + init) + [last];
        ConnectSnoc(prev, next, a + init, last, maxSq);
      }
      assert Connect(prev, next, b, maxSq) == Connect(prev, next, init, maxSq) + Compare(prev, next, last, maxSq) by {
        ConnectSnoc(prev, next, init, last, maxSq);
      }
    }
  }

  lemma InRangeAppend(a: seq<Pair>, b: seq<Pair>, n: nat)
    requires InRange(a, n) && InRange(b, n)
    ensures InRange(a + b, n)
  {
    forall k | 0 <= k < |a + b| ensures (a + b)[k].i < n && (a + b)[k].j < n {
      if k >= |a| {
        assert (a + b)[k] == b[k - |a|];
      }
    }
  }

  lemma InRangeSplit(a: seq<Pair>, init: seq<Pair>, last: Pair, n: nat)
    requires InRange(a, n) && InRange(init + [last], n)
    ensures InRange(init, n) && InRange(a + init, n) && last.i < n && last.j < n
  {
    assert (init + [last])[|init|] == last;
    assert forall k :: 0 <= k < |init| ==> init[k] == (init + [last])[k];
    InRangeAppend(a, init, n);
  }


  /**
   * A line is drawn from `i` to `j` exactly when that pair is compared and
   * the squared distance seen then is below `maxSq`; it carries that
   * squared distance.
   */
  lemma {:induction false} ConnectHas(prev: seq<Particle>, next: seq<Particle>, pairs: seq<Pair>, maxSq: real, l: Link)
    requires |prev| == |next| && InRange(pairs, |next|)
    ensures l in Connect(prev, next, pairs, maxSq) <==>
      && Pair(l.from, l.to) in pairs
      && l.from < |next| && l.to < |next|
      && l.distSq == DistSq(next[l.from], Seen(prev, next, l.from, l.to))
      && l.distSq < maxSq
  {
    if pairs != [] {
      var init := pairs[..|pairs| - 1];
      ConnectHas(prev, next, init, maxSq, l);
      assert pairs == init + [pairs[|pairs| - 1]];
      if Pair(l.from, l.to) in pairs {
        var k :| 0 <= k < |pairs| && pairs[k] == Pair(l.from, l.to);
        assert l.from < |next| && l.to < |next|;
      }
    }
  }

  /** `(maxDist - d) / maxDist * factor`, the opacity of a line of length `d`. */
  function LineAlpha(d: real, maxDist: real, factor: real): real
    requires maxDist > 0.0
  {
    (maxDist - d) / maxDist * factor
  }

  /**
   * A drawn line (its length `d` is the square root of a squared distance
   * below `maxDist`²) has an opacity above zero and at most `factor`.
   */
  lemma {:induction false} LineAlphaRange(d: real, maxDist: real, factor: real)
    requires maxDist > 0.0 && factor > 0.0
    requires d >= 0.0 && d * d < maxDist * maxDist
    ensures 0.0 < LineAlpha(d, maxDist, factor) <= factor
  {
    ShorterThanMax(d, maxDist);
    var share := (maxDist - d) / maxDist;
    assert 0.0 < share <= 1.0;
    assert share * factor <= factor;
  }

  /** A length whose square is below `m`² is below `m`. */
  lemma ShorterThanMax(d: real, m: real)
    requires d >= 0.0 && m > 0.0 && d * d < m * m
    ensures d < m
  {
  }

  /** The index ranges `lo..hi-1` of `otherIndex` paired with `i`, in order. */
  function RowPairs(i: nat, lo: nat, hi: nat): (r: seq<Pair>)
    ensures |r| == if hi <= lo then 0 else hi - lo
    ensures forall k :: 0 <= k < |r| ==> r[k] == Pair(i, lo + k)
    decreases hi
  {
    if hi <= lo then [] else RowPairs(i, lo, hi - 1) + [Pair(i, hi - 1)]
  }

  lemma RowPairsInRange(i: nat, lo: nat, hi: nat, n: nat)
    requires i < n && hi <= n
    ensures InRange(RowPairs(i, lo, hi), n)
  {
  }

  /** A sequence of pairs with no pair twice. */
  predicate NoRepeats(pairs: seq<Pair>) {
    forall a, b :: 0 <= a < b < |pairs| ==> pairs[a] != pairs[b]
  }
}
