/** The score by which the selector compares servers, and the same comparison without fractions. */
module Scores {
  import opened Seqs
  import opened Model

  /** The score of a server with room; the source computes it in double precision. */
  function Score(b: Balancer, s: Server): real
    requires 0 <= s.numSlots < s.maxSlots
  {
    var base := s.weight as real;
    var mem := if b.memMetric && s.memFree.Some? then (s.memFree.value as real + base) / 2.0 else base;
    var cpu := if b.cpuMetric && s.cpuFree.Some? then (s.cpuFree.value as real + mem) / 2.0 else mem;
    if !b.capMetric then cpu
    else match b.policy
      case ByRequests => (cpu + 100.0 / (s.numSlots as real + 1.0)) / 2.0
      case ByBusyness => (cpu + 100.0 * (s.maxSlots as real - s.numSlots as real) / s.maxSlots as real) / 2.0
  }

  /** Four times the mean of weight, free memory and free CPU: CPU counts half, weight and memory share the rest. */
  function Resources(b: Balancer, s: Server): int {
    var mem, cpu := b.memMetric && s.memFree.Some?, b.cpuMetric && s.cpuFree.Some?;
    if mem && cpu then s.weight + s.memFree.value + 2 * s.cpuFree.value
    else if mem then 2 * s.weight + 2 * s.memFree.value
    else if cpu then 2 * s.weight + 2 * s.cpuFree.value
    else 4 * s.weight
  }

  /** The share that capacity has: one in so many connections, or the free slots in so many. */
  function Parts(b: Balancer, s: Server): (int, int) {
    match b.policy
    case ByRequests => (1, s.numSlots + 1)
    case ByBusyness => (s.maxSlots - s.numSlots, s.maxSlots)
  }

  /** Server `x` scores higher than `y`, multiplied out; with the cap metric capacity counts as much as the rest. */
  predicate Beats(b: Balancer, x: Server, y: Server) {
    var p, q := Resources(b, x), Resources(b, y);
    if !b.capMetric then p > q
    else
      var ((e, d), (f, g)) := (Parts(b, x), Parts(b, y));
      (p * d + 400 * e) * g > (q * g + 400 * f) * d
  }

  /** `n` over `8 * d` is the mean of `p` over 4 and `100 * e` over `d`. */
  lemma MeanAsFraction(p: int, d: int, e: int)
    requires d > 0
    ensures (p as real / 4.0 + 100.0 * e as real / d as real) / 2.0 == (p * d + 400 * e) as real / (8 * d) as real
  {
    var f := 100.0 * e as real / d as real;
    assert f * d as real == 100.0 * e as real;
    assert (p * d + 400 * e) as real == p as real * d as real + 400.0 * e as real;
    var m := (p as real / 4.0 + f) / 2.0;
    assert m * (8 * d) as real == (p * d + 400 * e) as real by {
      assert m * (8 * d) as real == p as real * d as real + 4.0 * (f * d as real);
    }
  }

  lemma FractionOrder(a: int, b: int, c: int, d: int)
    requires b > 0 && d > 0
    ensures a as real / b as real > c as real / d as real <==> a * d > c * b
  {
    var p, q, bd := a as real / b as real, c as real / d as real, b as real * d as real;
    assert p * b as real == a as real && q * d as real == c as real;
    assert (a * d) as real == p * bd && (c * b) as real == q * bd;
    assert bd > 0.0;
    if p > q {
      assert (p - q) * bd > 0.0;
    } else {
      assert (q - p) * bd >= 0.0;
    }
  }

  lemma EighthsOrder(m: int, d: int, n: int, g: int)
    requires d > 0 && g > 0
    ensures m as real / (8 * d) as real > n as real / (8 * g) as real <==> m * g > n * d
  {
    FractionOrder(m, 8 * d, n, 8 * g);
    assert m * (8 * g) == 8 * (m * g) && n * (8 * d) == 8 * (n * d);
  }

  lemma ScoreAsFraction(b: Balancer, s: Server)
    requires 0 <= s.numSlots < s.maxSlots
    ensures !b.capMetric ==> Score(b, s) == Resources(b, s) as real / 4.0
    ensures var (e, d) := Parts(b, s);
            b.capMetric ==> Score(b, s) == (Resources(b, s) * d + 400 * e) as real / (8 * d) as real
  {
    var (e, d) := Parts(b, s);
    MeanAsFraction(Resources(b, s), d, e);
  }

  /** Comparing scores is comparing integers. */
  lemma BeatsIff(b: Balancer, x: Server, y: Server)
    requires 0 <= x.numSlots < x.maxSlots && 0 <= y.numSlots < y.maxSlots
    ensures Score(b, x) > Score(b, y) <==> Beats(b, x, y)
  {
    ScoreAsFraction(b, x);
    ScoreAsFraction(b, y);
    if b.capMetric {
      var (e, d) := Parts(b, x);
      var (f, g) := Parts(b, y);
      EighthsOrder(Resources(b, x) * d + 400 * e, d, Resources(b, y) * g + 400 * f, g);
    }
  }

  /** Two servers that differ in one respect only, in favour of `x`. */
  predicate Outdoes(b: Balancer, x: Server, y: Server) {
    || (x == y.(weight := x.weight) && x.weight > y.weight)
    || (b.memMetric && x.memFree.Some? && y.memFree.Some? && x == y.(memFree := x.memFree)
        && x.memFree.value > y.memFree.value)
    || (b.cpuMetric && x.cpuFree.Some? && y.cpuFree.Some? && x == y.(cpuFree := x.cpuFree)
        && x.cpuFree.value > y.cpuFree.value)
    || (b.capMetric && x == y.(numSlots := x.numSlots) && x.numSlots < y.numSlots)
  }

  lemma Scaled(p: int, q: int, c: int, d: int)
    requires p > q && d > 0
    ensures (p * d + c) * d > (q * d + c) * d
  {
    assert (p - q) * d > 0;
    assert (p * d + c) - (q * d + c) == (p - q) * d;
    assert ((p - q) * d) * d > 0;
    assert (p * d + c) * d - (q * d + c) * d == ((p - q) * d) * d;
  }

  lemma SmallerPart(p: int, d: int, g: int)
    requires 0 < d < g
    ensures (p * d + 400) * g > (p * g + 400) * d
  {
    assert (p * d + 400) * g - (p * g + 400) * d == 400 * (g - d);
  }

  lemma FewerSlots(b: Balancer, x: Server, y: Server)
    requires b.capMetric && x == y.(numSlots := x.numSlots) && 0 <= x.numSlots < y.numSlots < y.maxSlots
    ensures Beats(b, x, y)
  {
    var p := Resources(b, y);
    assert Resources(b, x) == p;
    match b.policy
    case ByRequests => SmallerPart(p, x.numSlots + 1, y.numSlots + 1);
    case ByBusyness =>
      LargerPart(p, x.maxSlots - x.numSlots, y.maxSlots - y.numSlots, y.maxSlots);
  }

  lemma LargerPart(p: int, e: int, f: int, d: int)
    requires e > f && d > 0
    ensures (p * d + 400 * e) * d > (p * d + 400 * f) * d
  {
    assert 400 * (e - f) * d > 0;
    assert (p * d + 400 * e) * d - (p * d + 400 * f) * d == 400 * (e - f) * d;
  }

  /** More weight, more free memory or CPU where these count, or fewer connections where these do: a higher score. */
  lemma OutdoesBeats(b: Balancer, x: Server, y: Server)
    requires Outdoes(b, x, y) && 0 <= x.numSlots < x.maxSlots && 0 <= y.numSlots < y.maxSlots
    ensures Beats(b, x, y)
  {
    if x.numSlots != y.numSlots {
      FewerSlots(b, x, y);
    } else {
      assert Resources(b, x) > Resources(b, y);
      if b.capMetric {
        match b.policy
        case ByRequests => Scaled(Resources(b, x), Resources(b, y), 400, x.numSlots + 1);
        case ByBusyness =>
          Scaled(Resources(b, x), Resources(b, y), 400 * (x.maxSlots - x.numSlots), x.maxSlots);
      }
    }
  }

  /** The two servers differ at most in what the balancer does not look at. */
  predicate LooksAlike(b: Balancer, x: Server, y: Server) {
    && y == x.(memFree := y.memFree, cpuFree := y.cpuFree)
    && (b.memMetric ==> y.memFree == x.memFree)
    && (b.cpuMetric ==> y.cpuFree == x.cpuFree)
  }

  lemma BeatsAlike(b: Balancer, x: Server, y: Server, x': Server, y': Server)
    requires LooksAlike(b, x, x') && LooksAlike(b, y, y')
    ensures Beats(b, x, y) <==> Beats(b, x', y')
  {
  }
}
