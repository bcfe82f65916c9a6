/**
 * The elastic-particle box of next.py: each frame every particle records a
 * trail sample, drops stale samples, moves and bounces off the walls of the
 * box; then every touching pair `i < j` is resolved once, in ascending index
 * order, by an equal-mass exchange of the normal velocity followed by a
 * symmetric push that removes the overlap.
 *
 * Square roots are not computed: math.hypot is a function parameter, and
 * the lemmas that need its meaning assume `IsHypot` (or, for one pair,
 * `IsDistance`) of it.
 */
module GasBox {

  const WIDTH: real := 900.0
  const HEIGHT: real := 600.0
  const MARGIN: real := 40.0
  /** Seconds a trail sample is kept. */
  const TRAIL_DURATION: real := 2.0

  /** A plane vector. */
  datatype Vec = Vec(x: real, y: real)

  /** One trail sample `(x, y, timestamp)`. */
  datatype Sample = Sample(x: real, y: real, t: real)

  /** What the physics sees of a particle: centre, velocity and radius. */
  datatype Body = Body(x: real, y: real, vx: real, vy: real, r: real)

  // ---------------------------------------------------------------------------
  // Trail
  // ---------------------------------------------------------------------------

  /**
   * The eviction loop of `Particle.update`: samples more than TRAIL_DURATION
   * old are dropped from the front, and dropping stops at the first sample
   * that is not.
   */
  function Trimmed(trail: seq<Sample>, now: real): (r: seq<Sample>)
    ensures |r| <= |trail| && r == trail[|trail| - |r|..]
    ensures forall i :: 0 <= i < |trail| - |r| ==> now - trail[i].t > TRAIL_DURATION
    ensures |r| > 0 ==> now - r[0].t <= TRAIL_DURATION
    decreases |trail|
  {
    if |trail| > 0 && now - trail[0].t > TRAIL_DURATION then Trimmed(trail[1..], now) else trail
  }

  /** Samples appear in the order of their timestamps. */
  ghost predicate Chronological(trail: seq<Sample>)
  {
    forall i, j :: 0 <= i < j < |trail| ==> trail[i].t <= trail[j].t
  }

  /**
   * The sample appended at time `now` survives the eviction: the trail is
   * never empty afterwards and its last sample is the one just recorded.
   */
  lemma {:induction false} FreshSampleKept(trail: seq<Sample>, s: Sample, now: real)
    requires s.t == now
    ensures var r := Trimmed(trail + [s], now); |r| > 0 && r[|r| - 1] == s
    decreases |trail|
  {
    var full := trail + [s];
    if trail != [] && now - trail[0].t > TRAIL_DURATION {
      assert full[1..] == trail[1..] + [s];
      FreshSampleKept(trail[1..], s, now);
    } else if trail == [] {
      assert full == [s];
    }
  }

  /** On a chronological trail, every sample that survives eviction is at most TRAIL_DURATION old. */
  lemma TrimmedWithinWindow(trail: seq<Sample>, now: real)
    requires Chronological(trail)
    ensures forall i :: 0 <= i < |Trimmed(trail, now)| ==> now - Trimmed(trail, now)[i].t <= TRAIL_DURATION
  {
    var r := Trimmed(trail, now);
    var d := |trail| - |r|;
    forall i | 0 <= i < |r|
      ensures now - r[i].t <= TRAIL_DURATION
    {
      assert r[i] == trail[d + i] && r[0] == trail[d];
    }
  }

  /** Appending samples stamped with the current time and evicting keeps a trail chronological. */
  lemma TrimmedChronological(trail: seq<Sample>, s: Sample, now: real)
    requires Chronological(trail)
    requires forall i :: 0 <= i < |trail| ==> trail[i].t <= now
    requires s.t == now
    ensures Chronological(Trimmed(trail + [s], now))
  {
    var full := trail + [s];
    AppendChronological(trail, s);
    SuffixChronological(full, |full| - |Trimmed(full, now)|);
  }

  /** Appending a sample no older than every sample keeps a trail chronological. */
  lemma AppendChronological(trail: seq<Sample>, s: Sample)
    requires Chronological(trail)
    requires forall i :: 0 <= i < |trail| ==> trail[i].t <= s.t
    ensures Chronological(trail + [s])
  {
    var full := trail + [s];
    forall i, j | 0 <= i < j < |full|
      ensures full[i].t <= full[j].t
    {
      assert full[i] == trail[i];
      if j < |trail| {
        assert full[j] == trail[j];
      }
    }
  }

  /** Dropping a prefix of a chronological trail leaves a chronological trail. */
  lemma SuffixChronological(trail: seq<Sample>, d: nat)
    requires Chronological(trail) && d <= |trail|
    ensures Chronological(trail[d..])
  {
    var r := trail[d..];
    forall i, j | 0 <= i < j < |r|
      ensures r[i].t <= r[j].t
    {
      assert r[i] == trail[d + i] && r[j] == trail[d + j];
    }
  }

  // ---------------------------------------------------------------------------
  // Free motion and wall reflection
  // ---------------------------------------------------------------------------

  /**
   * One axis of the wall test: a coordinate at or past `lo` is mirrored back
   * inside by its overshoot, else one at or past `hi`; either way the
   * velocity component is negated.
   */
  function Reflect(p: real, v: real, lo: real, hi: real): (r: (real, real))
    ensures r.1 == v || r.1 == -v
    ensures lo < p < hi ==> r == (p, v)
    ensures p <= lo ==> r.0 - lo == lo - p && r.1 == -v
    ensures lo < p && hi <= p ==> hi - r.0 == p - hi && r.1 == -v
    ensures lo <= hi && lo - (hi - lo) <= p <= hi + (hi - lo) ==> lo <= r.0 <= hi
  {
    if p <= lo then (lo + (lo - p), -v)
    else if p >= hi then (hi - (p - hi), -v)
    else (p, v)
  }

  function Left(b: Body): real { MARGIN + b.r }
  function Right(b: Body): real { WIDTH - MARGIN - b.r }
  function Top(b: Body): real { MARGIN + b.r }
  function Bottom(b: Body): real { HEIGHT - MARGIN - b.r }

  /** The centre lies in the box shrunk by the particle's radius. */
  predicate InArena(b: Body)
  {
    Left(b) <= b.x <= Right(b) && Top(b) <= b.y <= Bottom(b)
  }

  function Abs(a: real): real { if a < 0.0 then -a else a }

  /** Free motion for `dt` seconds: `x += vx * dt`, `y += vy * dt`. */
  function Drift(b: Body, dt: real): Body
  {
    b.(x := b.x + b.vx * dt, y := b.y + b.vy * dt)
  }

  /** The wall test of `Particle.update`: each axis is reflected on its own. */
  function Bounce(b: Body): Body
  {
    var x := Reflect(b.x, b.vx, Left(b), Right(b));
    var y := Reflect(b.y, b.vy, Top(b), Bottom(b));
    Body(x.0, y.0, x.1, y.1, b.r)
  }

  /** `Particle.update` without the trail: move, then bounce. */
  function Integrate(b: Body, dt: real): Body
  {
    Bounce(Drift(b, dt))
  }

  /** Kinetic energy per unit half-mass. */
  function Energy(b: Body): real { b.vx * b.vx + b.vy * b.vy }

  /** Wall reflection keeps the radius and the speed: each velocity component is kept or negated. */
  lemma IntegrateKeepsSpeed(b: Body, dt: real)
    ensures Integrate(b, dt).r == b.r
    ensures Energy(Integrate(b, dt)) == Energy(b)
  {
    var d := Drift(b, dt);
    var r := Bounce(d);
    assert d.vx == b.vx && d.vy == b.vy;
    assert r.vx * r.vx == b.vx * b.vx;
    assert r.vy * r.vy == b.vy * b.vy;
  }

  /**
   * No escape: a particle inside the arena that moves less than the arena's
   * free width along each axis in one step is inside it afterwards.
   */
  lemma IntegrateStaysInArena(b: Body, dt: real)
    requires InArena(b)
    requires Abs(b.vx * dt) <= Right(b) - Left(b)
    requires Abs(b.vy * dt) <= Bottom(b) - Top(b)
    ensures InArena(Integrate(b, dt))
  {
    var d := Drift(b, dt);
    assert Left(b) - (Right(b) - Left(b)) <= d.x <= Right(b) + (Right(b) - Left(b));
    assert Top(b) - (Bottom(b) - Top(b)) <= d.y <= Bottom(b) + (Bottom(b) - Top(b));
  }

  // ---------------------------------------------------------------------------
  // Pairwise collision
  // ---------------------------------------------------------------------------

  /** The centre difference `(dx, dy)` divided by `dist`: the unit normal from `b` towards `a`. */
  function Normal(a: Body, b: Body, dist: real): Vec
    requires dist != 0.0
  {
    Vec((a.x - b.x) / dist, (a.y - b.y) / dist)
  }

  /** Relative velocity of `a` with respect to `b` projected on `n`. */
  function RelVel(a: Body, b: Body, n: Vec): real
  {
    (a.vx - b.vx) * n.x + (a.vy - b.vy) * n.y
  }

  /** `dist` is the length of the centre difference, as math.hypot returns it. */
  predicate IsDistance(a: Body, b: Body, dist: real)
  {
    dist >= 0.0 && dist * dist == (a.x - b.x) * (a.x - b.x) + (a.y - b.y) * (a.y - b.y)
  }

  /** The equal-mass exchange: `a` loses and `b` gains `rel` times the normal `n`. */
  function Exchange(a: Body, b: Body, n: Vec, rel: real): (Body, Body)
  {
    (Body(a.x, a.y, a.vx - rel * n.x, a.vy - rel * n.y, a.r),
     Body(b.x, b.y, b.vx + rel * n.x, b.vy + rel * n.y, b.r))
  }

  /** The overlap fix: when `overlap` is positive, push both centres apart along `n` by half of it each. */
  function Separate(p: (Body, Body), n: Vec, overlap: real): (Body, Body)
  {
    if overlap > 0.0 then
      (Body(p.0.x + n.x * overlap / 2.0, p.0.y + n.y * overlap / 2.0, p.0.vx, p.0.vy, p.0.r),
       Body(p.1.x - n.x * overlap / 2.0, p.1.y - n.y * overlap / 2.0, p.1.vx, p.1.vy, p.1.r))
    else p
  }

  /**
   * `resolve_collision(a, b)` for centre distance `dist`: nothing when the
   * centres coincide or the bodies already separate along the normal;
   * otherwise exchange the normal velocity components and remove any overlap.
   */
  function Resolve(a: Body, b: Body, dist: real): (r: (Body, Body))
    ensures r.0.r == a.r && r.1.r == b.r
    ensures r.0.vx + r.1.vx == a.vx + b.vx && r.0.vy + r.1.vy == a.vy + b.vy
    ensures r.0.x + r.1.x == a.x + b.x && r.0.y + r.1.y == a.y + b.y
    ensures dist == 0.0 ==> r == (a, b)
    ensures dist != 0.0 && RelVel(a, b, Normal(a, b, dist)) > 0.0 ==> r == (a, b)
  {
    if dist == 0.0 then (a, b)
    else
      var n := Normal(a, b, dist);
      var rel := RelVel(a, b, n);
      if rel > 0.0 then (a, b)
      else Separate(Exchange(a, b, n, rel), n, a.r + b.r - dist)
  }

  /** For a true distance the normal has unit length. */
  lemma NormalIsUnit(a: Body, b: Body, dist: real)
    requires IsDistance(a, b, dist) && dist != 0.0
    ensures Normal(a, b, dist).x * Normal(a, b, dist).x + Normal(a, b, dist).y * Normal(a, b, dist).y == 1.0
  {
    var n := Normal(a, b, dist);
    var dx, dy := a.x - b.x, a.y - b.y;
    assert n.x * dist == dx && n.y * dist == dy;
    calc {
      (n.x * n.x + n.y * n.y) * (dist * dist);
      (n.x * dist) * (n.x * dist) + (n.y * dist) * (n.y * dist);
      dx * dx + dy * dy;
      1.0 * (dist * dist);
    }
    assert dist * dist > 0.0;
  }

  /** The equal-mass exchange along a unit normal keeps the sum of squared speeds. */
  lemma ExchangeKeepsEnergy(a: Body, b: Body, n: Vec)
    requires n.x * n.x + n.y * n.y == 1.0
    ensures var p := Exchange(a, b, n, RelVel(a, b, n)); Energy(p.0) + Energy(p.1) == Energy(a) + Energy(b)
  {
    var rel := RelVel(a, b, n);
    var p := Exchange(a, b, n, rel);
    calc {
      Energy(p.0) + Energy(p.1);
      (a.vx - rel * n.x) * (a.vx - rel * n.x) + (a.vy - rel * n.y) * (a.vy - rel * n.y)
      + (b.vx + rel * n.x) * (b.vx + rel * n.x) + (b.vy + rel * n.y) * (b.vy + rel * n.y);
      Energy(a) + Energy(b) - 2.0 * rel * ((a.vx - b.vx) * n.x + (a.vy - b.vy) * n.y)
      + 2.0 * rel * rel * (n.x * n.x + n.y * n.y);
      Energy(a) + Energy(b) - 2.0 * rel * rel + 2.0 * rel * rel * 1.0;
    }
  }

  /** The equal-mass exchange along a unit normal reverses the normal relative velocity. */
  lemma ExchangeReverses(a: Body, b: Body, n: Vec)
    requires n.x * n.x + n.y * n.y == 1.0
    ensures var p := Exchange(a, b, n, RelVel(a, b, n)); RelVel(p.0, p.1, n) == -RelVel(a, b, n)
  {
    var rel := RelVel(a, b, n);
    var p := Exchange(a, b, n, rel);
    calc {
      RelVel(p.0, p.1, n);
      (a.vx - b.vx - 2.0 * rel * n.x) * n.x + (a.vy - b.vy - 2.0 * rel * n.y) * n.y;
      rel - 2.0 * rel * (n.x * n.x + n.y * n.y);
      rel - 2.0 * rel * 1.0;
    }
  }

  /** Resolving a pair keeps its total kinetic energy. */
  lemma ResolveKeepsEnergy(a: Body, b: Body, dist: real)
    requires IsDistance(a, b, dist)
    ensures Energy(Resolve(a, b, dist).0) + Energy(Resolve(a, b, dist).1) == Energy(a) + Energy(b)
  {
    if dist != 0.0 {
      var n := Normal(a, b, dist);
      NormalIsUnit(a, b, dist);
      ExchangeKeepsEnergy(a, b, n);
    }
  }

  /** When the pair is resolved, its relative velocity along the normal is reversed. */
  lemma ResolveReversesNormalVelocity(a: Body, b: Body, dist: real)
    requires IsDistance(a, b, dist) && dist != 0.0
    requires RelVel(a, b, Normal(a, b, dist)) <= 0.0
    ensures var n := Normal(a, b, dist); var r := Resolve(a, b, dist);
      RelVel(r.0, r.1, n) == -RelVel(a, b, n)
  {
    var n := Normal(a, b, dist);
    NormalIsUnit(a, b, dist);
    ExchangeReverses(a, b, n);
  }

  /**
   * Separating a pair whose centres are `d` apart along `n` by the overlap
   * `sum - d` leaves them exactly `sum` apart along `n`.
   */
  lemma SeparateToContact(p: (Body, Body), n: Vec, d: real, sum: real)
    requires p.0.x - p.1.x == d * n.x && p.0.y - p.1.y == d * n.y
    requires d <= sum
    ensures var q := Separate(p, n, sum - d);
      q.0.x - q.1.x == sum * n.x && q.0.y - q.1.y == sum * n.y
  {
    var q := Separate(p, n, sum - d);
    if sum - d > 0.0 {
      assert q.0.x - q.1.x == d * n.x + n.x * (sum - d);
      assert q.0.y - q.1.y == d * n.y + n.y * (sum - d);
    }
  }

  /** The normal times the distance gives back the centre difference. */
  lemma NormalScales(a: Body, b: Body, dist: real)
    requires dist != 0.0
    ensures Normal(a, b, dist).x * dist == a.x - b.x && Normal(a, b, dist).y * dist == a.y - b.y
  {
  }

  /** When the pair is resolved, `Resolve` is the exchange followed by the separation. */
  lemma ResolveUnfolds(a: Body, b: Body, dist: real)
    requires dist != 0.0 && RelVel(a, b, Normal(a, b, dist)) <= 0.0
    ensures var n := Normal(a, b, dist);
      Resolve(a, b, dist) == Separate(Exchange(a, b, n, RelVel(a, b, n)), n, a.r + b.r - dist)
  {
  }

  /**
   * When a touching pair is resolved, the centres end exactly `ra + rb` apart
   * along the normal: the overlap is gone and no extra gap is introduced.
   */
  lemma ResolveReachesContact(a: Body, b: Body, dist: real)
    requires dist != 0.0 && dist <= a.r + b.r
    requires RelVel(a, b, Normal(a, b, dist)) <= 0.0
    ensures var n := Normal(a, b, dist); var r := Resolve(a, b, dist);
      r.0.x - r.1.x == (a.r + b.r) * n.x && r.0.y - r.1.y == (a.r + b.r) * n.y
  {
    var n := Normal(a, b, dist);
    var e := Exchange(a, b, n, RelVel(a, b, n));
    ResolveUnfolds(a, b, dist);
    NormalScales(a, b, dist);
    assert e.0.x - e.1.x == dist * n.x && e.0.y - e.1.y == dist * n.y;
    SeparateToContact(e, n, dist, a.r + b.r);
  }


  // ---------------------------------------------------------------------------
  // The collision pass over all pairs
  // ---------------------------------------------------------------------------

  /** The broad test of the pass: squared centre distance at most the squared radius sum. */
  predicate Touching(a: Body, b: Body)
  {
    (a.x - b.x) * (a.x - b.x) + (a.y - b.y) * (a.y - b.y) <= (a.r + b.r) * (a.r + b.r)
  }

  /** `hypot` returns the Euclidean length of its argument. */
  ghost predicate IsHypot(hypot: (real, real) -> real)
  {
    forall dx, dy :: hypot(dx, dy) >= 0.0 && hypot(dx, dy) * hypot(dx, dy) == dx * dx + dy * dy
  }

  /** `resolve_collision` with the distance it computes itself, `hypot(dx, dy)`. */
  function Collide(a: Body, b: Body, hypot: (real, real) -> real): (Body, Body)
  {
    Resolve(a, b, hypot(a.x - b.x, a.y - b.y))
  }

  /** Visit pair `(i, j)`: resolve it when touching, else leave every body as it is. */
  function PairStep(s: seq<Body>, i: nat, j: nat, hypot: (real, real) -> real): (r: seq<Body>)
    requires i < j < |s|
    ensures |r| == |s| && forall k :: 0 <= k < |s| ==> r[k].r == s[k].r
  {
    if Touching(s[i], s[j]) then
      var res := Collide(s[i], s[j], hypot);
      s[i := res.0][j := res.1]
    else s
  }

  /** The inner loop of the pass: pairs `(i, j), (i, j + 1), ...` in that order. */
  function PairsFrom(s: seq<Body>, i: nat, j: nat, hypot: (real, real) -> real): (r: seq<Body>)
    requires i < j <= |s|
    ensures |r| == |s| && forall k :: 0 <= k < |s| ==> r[k].r == s[k].r
    decreases |s| - j
  {
    if j == |s| then s else PairsFrom(PairStep(s, i, j, hypot), i, j + 1, hypot)
  }

  /** The outer loop of the pass: rows `i, i + 1, ...`, each pairing `i` with every later index. */
  function RowsFrom(s: seq<Body>, i: nat, hypot: (real, real) -> real): (r: seq<Body>)
    requires i <= |s|
    ensures |r| == |s| && forall k :: 0 <= k < |s| ==> r[k].r == s[k].r
    decreases |s| - i
  {
    if i == |s| then s else RowsFrom(PairsFrom(s, i, i + 1, hypot), i + 1, hypot)
  }

  /** One collision pass: every pair `i < j` once, in ascending order. */
  function Collided(s: seq<Body>, hypot: (real, real) -> real): (r: seq<Body>)
    ensures |r| == |s| && forall k :: 0 <= k < |s| ==> r[k].r == s[k].r
  {
    RowsFrom(s, 0, hypot)
  }

  function Vx(b: Body): real { b.vx }
  function Vy(b: Body): real { b.vy }

  /** The sum of `f` over all bodies. */
  function Total(s: seq<Body>, f: Body -> real): real
    decreases |s|
  {
    if s == [] then 0.0 else Total(s[..|s| - 1], f) + f(s[|s| - 1])
  }

  /** Replacing one body changes the total by the difference of that body's values. */
  lemma {:induction false} TotalUpdate(s: seq<Body>, i: nat, b: Body, f: Body -> real)
    requires i < |s|
    ensures Total(s[i := b], f) == Total(s, f) - f(s[i]) + f(b)
    decreases |s|
  {
    var t := s[i := b];
    var n := |s| - 1;
    if i < n {
      assert t[..n] == s[..n][i := b];
      TotalUpdate(s[..n], i, b, f);
    } else {
      assert t[..n] == s[..n];
    }
  }

  /** A pair step keeps the total of `f` when resolving keeps the pair's sum of `f`. */
  lemma PairStepKeepsTotal(s: seq<Body>, i: nat, j: nat, hypot: (real, real) -> real, f: Body -> real)
    requires i < j < |s|
    requires IsHypot(hypot) && f in {Vx, Vy, Energy}
    ensures Total(PairStep(s, i, j, hypot), f) == Total(s, f)
  {
    if Touching(s[i], s[j]) {
      var dist := hypot(s[i].x - s[j].x, s[i].y - s[j].y);
      var res := Resolve(s[i], s[j], dist);
      if f == Energy {
        ResolveKeepsEnergy(s[i], s[j], dist);
      }
      assert f(res.0) + f(res.1) == f(s[i]) + f(s[j]);
      TotalUpdate(s, i, res.0, f);
      TotalUpdate(s[i := res.0], j, res.1, f);
    }
  }

  /** Momentum in x and y and kinetic energy are conserved by the whole collision pass. */
  lemma {:induction false} CollidedKeepsTotals(s: seq<Body>, hypot: (real, real) -> real, f: Body -> real)
    requires IsHypot(hypot) && f in {Vx, Vy, Energy}
    ensures Total(Collided(s, hypot), f) == Total(s, f)
  {
    RowsKeepTotal(s, 0, hypot, f);
  }

  lemma {:induction false} RowsKeepTotal(s: seq<Body>, i: nat, hypot: (real, real) -> real, f: Body -> real)
    requires i <= |s|
    requires IsHypot(hypot) && f in {Vx, Vy, Energy}
    ensures Total(RowsFrom(s, i, hypot), f) == Total(s, f)
    decreases |s| - i
  {
    if i < |s| {
      PairsKeepTotal(s, i, i + 1, hypot, f);
      RowsKeepTotal(PairsFrom(s, i, i + 1, hypot), i + 1, hypot, f);
    }
  }

  lemma {:induction false} PairsKeepTotal(s: seq<Body>, i: nat, j: nat, hypot: (real, real) -> real, f: Body -> real)
    requires i < j <= |s|
    requires IsHypot(hypot) && f in {Vx, Vy, Energy}
    ensures Total(PairsFrom(s, i, j, hypot), f) == Total(s, f)
    decreases |s| - j
  {
    if j < |s| {
      PairStepKeepsTotal(s, i, j, hypot, f);
      PairsKeepTotal(PairStep(s, i, j, hypot), i, j + 1, hypot, f);
    }
  }

  // ---------------------------------------------------------------------------
  // The particle object and the frame step
  // ---------------------------------------------------------------------------

  class Particle {
    var x: real
    var y: real
    var vx: real
    var vy: real
    const r: real
    /** Samples `(x, y, timestamp)`, oldest first. */
    var trail: seq<Sample>

    constructor (x0: real, y0: real, vx0: real, vy0: real, radius: real)
      ensures State() == Body(x0, y0, vx0, vy0, radius) && trail == []
    {
      x, y, vx, vy, r := x0, y0, vx0, vy0, radius;
      trail := [];
    }

    /** The particle's physical state. */
    function State(): Body
      reads this
    {
      Body(x, y, vx, vy, r)
    }

    /**
     * `Particle.update(dt, now)`: record the pre-move position, evict stale
     * samples, move, and reflect off the walls.
     */
    method Update(dt: real, now: real)
      modifies this
      ensures trail == Trimmed(old(trail) + [Sample(old(x), old(y), now)], now)
      ensures State() == Integrate(old(State()), dt)
    {
      RecordSample(now);
      Move(dt);
    }

    /** The trail half of `update`: append `(x, y, now)`, then pop stale samples from the front. */
    method RecordSample(now: real)
      modifies this
      ensures trail == Trimmed(old(trail) + [Sample(x, y, now)], now)
      ensures State() == old(State())
    {
      trail := trail + [Sample(x, y, now)];
      while |trail| > 0 && now - trail[0].t > TRAIL_DURATION
        invariant Trimmed(trail, now) == Trimmed(old(trail) + [Sample(x, y, now)], now)
        invariant State() == old(State())
        decreases |trail|
      {
        trail := trail[1..];
      }
    }

    /** The motion half of `update`: drift for `dt`, then mirror each axis back from the walls. */
    method Move(dt: real)
      modifies this
      ensures State() == Integrate(old(State()), dt)
      ensures trail == old(trail)
    {
      x := x + vx * dt;
      y := y + vy * dt;
      assert State() == Drift(old(State()), dt);
      ghost var moved := State();

      var left, right := MARGIN + r, WIDTH - MARGIN - r;
      var top, bottom := MARGIN + r, HEIGHT - MARGIN - r;
      if x <= left {
        x := left + (left - x);
        vx := -vx;
      } else if x >= right {
        x := right - (x - right);
        vx := -vx;
      }
      if y <= top {
        y := top + (top - y);
        vy := -vy;
      } else if y >= bottom {
        y := bottom - (y - bottom);
        vy := -vy;
      }
      assert State() == Bounce(moved);
    }
  }

  /** `resolve_collision(p1, p2)`; `hypot` stands for math.hypot. */
  method ResolveCollision(p1: Particle, p2: Particle, hypot: (real, real) -> real)
    requires p1 != p2
    modifies p1, p2
    ensures var dist := hypot(old(p1.x) - old(p2.x), old(p1.y) - old(p2.y));
      p1.State() == Resolve(old(p1.State()), old(p2.State()), dist).0 &&
      p2.State() == Resolve(old(p1.State()), old(p2.State()), dist).1
    ensures p1.trail == old(p1.trail) && p2.trail == old(p2.trail)
  {
    var dx := p1.x - p2.x;
    var dy := p1.y - p2.y;
    var dist := hypot(dx, dy);
    if dist == 0.0 {
      return;
    }
    var nx, ny := dx / dist, dy / dist;
    var dvx, dvy := p1.vx - p2.vx, p1.vy - p2.vy;
    var relVel := dvx * nx + dvy * ny;
    ghost var a, b := p1.State(), p2.State();
    assert Vec(nx, ny) == Normal(a, b, dist) && relVel == RelVel(a, b, Vec(nx, ny));
    if relVel > 0.0 {
      return;
    }
    ExchangeVelocities(p1, p2, nx, ny, relVel);
    PushApart(p1, p2, nx, ny, p1.r + p2.r - dist);
  }

  /** The velocity half of `resolve_collision`: `p1` loses and `p2` gains `rel * n`. */
  method ExchangeVelocities(p1: Particle, p2: Particle, nx: real, ny: real, rel: real)
    requires p1 != p2
    modifies p1, p2
    ensures var e := Exchange(old(p1.State()), old(p2.State()), Vec(nx, ny), rel);
      p1.State() == e.0 && p2.State() == e.1
    ensures p1.trail == old(p1.trail) && p2.trail == old(p2.trail)
  {
    p1.vx := p1.vx - rel * nx;
    p1.vy := p1.vy - rel * ny;
    p2.vx := p2.vx + rel * nx;
    p2.vy := p2.vy + rel * ny;
  }

  /** The overlap half of `resolve_collision`: when `overlap > 0`, each centre moves `overlap / 2` along `n`. */
  method PushApart(p1: Particle, p2: Particle, nx: real, ny: real, overlap: real)
    requires p1 != p2
    modifies p1, p2
    ensures var q := Separate((old(p1.State()), old(p2.State())), Vec(nx, ny), overlap);
      p1.State() == q.0 && p2.State() == q.1
    ensures p1.trail == old(p1.trail) && p2.trail == old(p2.trail)
  {
    if overlap > 0.0 {
      p1.x := p1.x + nx * overlap / 2.0;
      p1.y := p1.y + ny * overlap / 2.0;
      p2.x := p2.x - nx * overlap / 2.0;
      p2.y := p2.y - ny * overlap / 2.0;
    }
  }

  /** No particle appears twice in the list. */
  predicate Distinct(ps: seq<Particle>)
  {
    forall i, j :: 0 <= i < j < |ps| ==> ps[i] != ps[j]
  }

  /** The physical states of the particles, in list order. */
  function States(ps: seq<Particle>): (r: seq<Body>)
    reads set p | p in ps
    ensures |r| == |ps| && forall k :: 0 <= k < |ps| ==> r[k] == ps[k].State()
  {
    seq(|ps|, k requires 0 <= k < |ps| reads set p | p in ps => ps[k].State())
  }

  /** The trails of the particles, in list order. */
  function Trails(ps: seq<Particle>): (r: seq<seq<Sample>>)
    reads set p | p in ps
    ensures |r| == |ps| && forall k :: 0 <= k < |ps| ==> r[k] == ps[k].trail
  {
    seq(|ps|, k requires 0 <= k < |ps| reads set p | p in ps => ps[k].trail)
  }

  /** The collision loop of `main`: every pair `i < j` in ascending order, resolved when touching. */
  method CollisionPass(ps: seq<Particle>, hypot: (real, real) -> real)
    requires Distinct(ps)
    modifies set p | p in ps
    ensures States(ps) == Collided(old(States(ps)), hypot)
    ensures Trails(ps) == old(Trails(ps))
  {
    ghost var goal := Collided(States(ps), hypot);
    for i := 0 to |ps|
      invariant RowsFrom(States(ps), i, hypot) == goal
      invariant Trails(ps) == old(Trails(ps))
    {
      ghost var start := States(ps);
      VisitRow(ps, i, hypot);
      assert RowsFrom(start, i, hypot) == RowsFrom(States(ps), i + 1, hypot);
    }
  }

  /** The inner loop for row `i`: pairs `(i, i + 1), (i, i + 2), ...` in that order. */
  method VisitRow(ps: seq<Particle>, i: nat, hypot: (real, real) -> real)
    requires Distinct(ps) && i < |ps|
    modifies set p | p in ps
    ensures States(ps) == PairsFrom(old(States(ps)), i, i + 1, hypot)
    ensures Trails(ps) == old(Trails(ps))
  {
    ghost var row := PairsFrom(States(ps), i, i + 1, hypot);
    for j := i + 1 to |ps|
      invariant PairsFrom(States(ps), i, j, hypot) == row
      invariant Trails(ps) == old(Trails(ps))
    {
      ghost var s := States(ps);
      VisitPair(ps, i, j, hypot);
      assert PairsFrom(s, i, j, hypot) == PairsFrom(States(ps), i, j + 1, hypot);
    }
  }

  /** One iteration of the inner loop: resolve pair `(i, j)` if the two particles touch. */
  method VisitPair(ps: seq<Particle>, i: nat, j: nat, hypot: (real, real) -> real)
    requires Distinct(ps) && i < j < |ps|
    modifies ps[i], ps[j]
    ensures States(ps) == PairStep(old(States(ps)), i, j, hypot)
    ensures Trails(ps) == old(Trails(ps))
  {
    ghost var before, trails := States(ps), Trails(ps);
    var dx := ps[i].x - ps[j].x;
    var dy := ps[i].y - ps[j].y;
    ghost var touching := Touching(before[i], before[j]);
    assert touching <==> dx * dx + dy * dy <= (ps[i].r + ps[j].r) * (ps[i].r + ps[j].r);
    if dx * dx + dy * dy <= (ps[i].r + ps[j].r) * (ps[i].r + ps[j].r) {
      ResolveCollision(ps[i], ps[j], hypot);
      ghost var res := Collide(before[i], before[j], hypot);
      ghost var after := before[i := res.0][j := res.1];
      forall k | 0 <= k < |ps|
        ensures ps[k].State() == after[k] && ps[k].trail == trails[k]
      {
        if k != i && k != j {
          assert ps[k] != ps[i] && ps[k] != ps[j];
        }
      }
      assert States(ps) == after;
      assert PairStep(before, i, j, hypot) == after;
    } else {
      assert PairStep(before, i, j, hypot) == before;
    }
    assert Trails(ps) == trails;
  }

  /** Integrate every body of the list. */
  function IntegrateAll(s: seq<Body>, dt: real): (r: seq<Body>)
    ensures |r| == |s| && forall k :: 0 <= k < |s| ==> r[k] == Integrate(s[k], dt)
  {
    seq(|s|, k requires 0 <= k < |s| => Integrate(s[k], dt))
  }

  /**
   * One frame of `main` (next.py): every particle is updated before any pair
   * is resolved; then the collision pass runs once.
   */
  method Step(ps: seq<Particle>, dt: real, now: real, hypot: (real, real) -> real)
    requires Distinct(ps)
    modifies set p | p in ps
    ensures States(ps) == Collided(IntegrateAll(old(States(ps)), dt), hypot)
    ensures forall k :: 0 <= k < |ps| ==>
      ps[k].trail == Trimmed(old(ps[k].trail) + [Sample(old(ps[k].x), old(ps[k].y), now)], now)
  {
    for i := 0 to |ps|
      invariant forall k :: 0 <= k < i ==> ps[k].State() == Integrate(old(ps[k].State()), dt)
      invariant forall k :: 0 <= k < i ==>
        ps[k].trail == Trimmed(old(ps[k].trail) + [Sample(old(ps[k].x), old(ps[k].y), now)], now)
      invariant forall k :: i <= k < |ps| ==> ps[k].State() == old(ps[k].State()) && ps[k].trail == old(ps[k].trail)
    {
      ps[i].Update(dt, now);
    }
    assert States(ps) == IntegrateAll(old(States(ps)), dt);
    CollisionPass(ps, hypot);
  }
}
