/** The autoscaling simulator: given per-tick consumed units, the capacity a
    target-tracking autoscaler would have provisioned at each tick.

    One tick is one input sample. The constants below are the source's literal
    tick counts (2 ticks above target to scale out, a 15-tick window to scale
    in, a counter reset every 1440 ticks, a 60-tick cooldown after 4 scale-ins);
    whether a tick is a minute or a coarser bucket is up to the caller.

    `Simulate` is the in-place algorithm; `Run` is the same state machine as a
    function over its state, and the lemmas below are stated about it. */
module AutoscalingSim {
  import opened Numeric

  /** Target utilisation (0.7 means 70%) and the capacity bounds. */
  datatype Policy = Policy(target: real, minCap: real, maxCap: real)

  /** The defaults of `simulate`: target 0.7, min_cap 1, max_cap 40000. */
  const DefaultPolicy: Policy := Policy(0.7, 1.0, 40000.0)

  const TicksPerDay: nat := 1440
  const FreeScaleInsPerDay: nat := 4
  const ScaleInCooldown: nat := 60
  /** `last_scale_in_minute` starts here, so the cooldown never blocks the first scale-in. */
  const NoScaleInYet: int := -61

  /** `simulate` divides by the target as soon as there is one sample. */
  predicate WellDefined(metrics: seq<real>, p: Policy) {
    metrics == [] || p.target != 0.0
  }

  /** The capacity bounds the clamp invariant relies on. */
  predicate SaneBounds(p: Policy) {
    0.0 <= p.minCap <= p.maxCap
  }

  /** `consumed / cap if cap > 0 else 0`. */
  function Util(consumed: real, cap: real): real {
    if cap > 0.0 then consumed / cap else 0.0
  }

  /** `max(min_cap, min(metrics[0] / target, max_cap))`. */
  function InitialCap(first: real, p: Policy): real
    requires p.target != 0.0
  {
    Max(p.minCap, Min(first / p.target, p.maxCap))
  }

  /** The state after some prefix of ticks: the capacities written so far,
      `scale_in_count` and `last_scale_in_minute`. */
  datatype SimState = SimState(prov: seq<real>, scaleInCount: nat, lastScaleIn: int)

  /** Scale-out condition at tick i, with `prev` the capacity of tick i-1:
      both utilisations, measured against `prev`, exceed the target. */
  predicate ScaleOutFires(m: seq<real>, p: Policy, prev: real, i: nat)
    requires i < |m|
  {
    i >= 2 && Util(m[i - 1], prev) > p.target && Util(m[i], prev) > p.target
  }

  /** The scale-out capacity demanded by ticks i-1 and i. */
  function Needed(m: seq<real>, p: Policy, i: nat): real
    requires 1 <= i < |m| && p.target != 0.0
  {
    Max(m[i - 1], m[i]) / p.target
  }

  /** Capacity of tick i after the scale-out rule. */
  function ScaleOutCap(m: seq<real>, p: Policy, prev: real, i: nat): real
    requires 1 <= i < |m| && p.target != 0.0
  {
    if ScaleOutFires(m, p, prev, i) then Min(Max(Needed(m, p, i), prev), p.maxCap) else prev
  }

  /** Every utilisation in the window [i-14, i] is strictly below target - 0.2;
      `caps` holds the capacities of ticks 0..i as the loop sees them. */
  predicate AllBelow(m: seq<real>, caps: seq<real>, p: Policy, i: nat)
    requires 14 <= i < |m| && |caps| == i + 1
  {
    forall j :: i - 14 <= j <= i ==> Util(m[j], caps[j]) < p.target - 0.2
  }

  /** `peak` of the window loop: the running maximum of the values, from 0.0. */
  function Peak(xs: seq<real>): real {
    if xs == [] then 0.0 else Max(Peak(xs[..|xs| - 1]), xs[|xs| - 1])
  }

  /** `new_cap = max(min_cap, peak / target)` for the window ending at tick i. */
  function ScaleInCap(m: seq<real>, p: Policy, i: nat): real
    requires 14 <= i < |m| && p.target != 0.0
  {
    Max(p.minCap, Peak(m[i - 14..i + 1]) / p.target)
  }

  /** The counter after the reset check of tick i. */
  function CountAfterReset(count: nat, i: nat): nat {
    if i % TicksPerDay == 0 then 0 else count
  }

  /** `scale_in_count < 4 or (i - last_scale_in_minute) >= 60`. */
  predicate QuotaAllows(count: nat, last: int, i: nat) {
    count < FreeScaleInsPerDay || i - last >= ScaleInCooldown
  }

  /** Tick i, in state s, applies a scale-in. */
  predicate ScalesIn(m: seq<real>, p: Policy, s: SimState, i: nat)
    requires 1 <= i < |m| && |s.prov| == i && p.target != 0.0
  {
    var cap := ScaleOutCap(m, p, s.prov[i - 1], i);
    && i >= 15
    && AllBelow(m, s.prov + [cap], p, i)
    && QuotaAllows(CountAfterReset(s.scaleInCount, i), s.lastScaleIn, i)
    && ScaleInCap(m, p, i) * 1.2 < cap
  }

  /** One iteration of the main loop: tick i appends its capacity. */
  function Step(m: seq<real>, p: Policy, s: SimState, i: nat): (r: SimState)
    requires 1 <= i < |m| && |s.prov| == i && p.target != 0.0
  {
    var count := CountAfterReset(s.scaleInCount, i);
    if ScalesIn(m, p, s, i) then
      SimState(s.prov + [ScaleInCap(m, p, i)], count + 1, i)
    else
      SimState(s.prov + [ScaleOutCap(m, p, s.prov[i - 1], i)], count, s.lastScaleIn)
  }

  /** The state after ticks 0..k-1. */
  function Run(m: seq<real>, p: Policy, k: nat): (s: SimState)
    requires 1 <= k <= |m| && p.target != 0.0
    ensures |s.prov| == k
    decreases k
  {
    if k == 1 then SimState([InitialCap(m[0], p)], 0, NoScaleInYet)
    else Step(m, p, Run(m, p, k - 1), k - 1)
  }

  /** What `simulate(metrics, ...)` returns. */
  function Simulated(m: seq<real>, p: Policy): (prov: seq<real>)
    requires WellDefined(m, p)
    ensures |prov| == |m|
  {
    if m == [] then [] else Run(m, p, |m|).prov
  }

  /** The inner `for j in range(i - 14, i + 1)` loop of `simulate`: whether every
      utilisation in the window is below `threshold` (stopping at the first that
      is not) and, when so, the window's peak consumption. */
  method ScanWindow(metrics: seq<real>, prov: array<real>, i: nat, threshold: real)
    returns (allBelow: bool, peak: real)
    requires prov.Length == |metrics| && 14 <= i < |metrics|
    ensures allBelow <==> forall k :: i - 14 <= k <= i ==> Util(metrics[k], prov[k]) < threshold
    ensures allBelow ==> peak == Peak(metrics[i - 14..i + 1])
  {
    allBelow := true;
    peak := 0.0;
    for j := i - 14 to i + 1
      invariant allBelow
      invariant forall k :: i - 14 <= k < j ==> Util(metrics[k], prov[k]) < threshold
      invariant peak == Peak(metrics[i - 14..j])
    {
      var util := Util(metrics[j], prov[j]);
      if util >= threshold {
        allBelow := false;
        break;
      }
      assert metrics[i - 14..j + 1][..j - (i - 14)] == metrics[i - 14..j];
      peak := Max(peak, metrics[j]);
    }
  }

  /** The scale-out rule of tick i: two consecutive ticks above target
      raise the capacity carried over from tick i-1. */
  method ScaleOut(metrics: seq<real>, p: Policy, prov: array<real>, i: nat)
    requires prov.Length == |metrics| && 1 <= i < |metrics| && p.target != 0.0
    requires prov[i] == prov[i - 1]
    modifies prov
    ensures prov[i] == ScaleOutCap(metrics, p, old(prov[i - 1]), i)
    ensures forall j :: 0 <= j < prov.Length && j != i ==> prov[j] == old(prov[j])
  {
    if i >= 2 {
      var utilPrev := Util(metrics[i - 1], prov[i - 1]);
      var utilCurr := Util(metrics[i], prov[i]);
      if utilPrev > p.target && utilCurr > p.target {
        var needed := Max(metrics[i - 1], metrics[i]) / p.target;
        prov[i] := Min(Max(needed, prov[i]), p.maxCap);
      }
    }
  }

  /** The scale-in rule of tick i: a 15-tick window below target - 0.2, the
      quota, and a candidate materially below the current capacity. */
  method ScaleIn(metrics: seq<real>, p: Policy, prov: array<real>, i: nat, count: nat, last: int)
    returns (scaled: bool)
    requires prov.Length == |metrics| && 1 <= i < |metrics| && p.target != 0.0
    modifies prov
    ensures scaled <==>
      && i >= 15
      && AllBelow(metrics, old(prov[..i + 1]), p, i)
      && QuotaAllows(count, last, i)
      && ScaleInCap(metrics, p, i) * 1.2 < old(prov[i])
    ensures prov[i] == if scaled then ScaleInCap(metrics, p, i) else old(prov[i])
    ensures forall j :: 0 <= j < prov.Length && j != i ==> prov[j] == old(prov[j])
  {
    scaled := false;
    if i >= 15 {
      var threshold := p.target - 0.2;
      var allBelow, peak := ScanWindow(metrics, prov, i, threshold);
      assert allBelow == AllBelow(metrics, prov[..i + 1], p, i);
      if allBelow {
        var canScaleIn := count < FreeScaleInsPerDay || i - last >= ScaleInCooldown;
        if canScaleIn {
          var newCap := Max(p.minCap, peak / p.target);
          if newCap * 1.2 < prov[i] {
            prov[i] := newCap;
            scaled := true;
          }
        }
      }
    }
  }

  /** One iteration of the main loop of `simulate`, from the state `s` the
      earlier ticks left. */
  method Tick(metrics: seq<real>, p: Policy, prov: array<real>, i: nat, count: nat, last: int, ghost s: SimState)
    returns (count': nat, last': int)
    requires prov.Length == |metrics| && 1 <= i < |metrics| && p.target != 0.0
    requires |s.prov| == i && prov[..i] == s.prov && count == s.scaleInCount && last == s.lastScaleIn
    modifies prov
    ensures prov[..i + 1] == Step(metrics, p, s, i).prov
    ensures count' == Step(metrics, p, s, i).scaleInCount && last' == Step(metrics, p, s, i).lastScaleIn
  {
    count' := count;
    last' := last;
    prov[i] := prov[i - 1];
    if i % TicksPerDay == 0 {
      count' := 0;
    }
    ScaleOut(metrics, p, prov, i);
    assert prov[..i] == s.prov;
    assert prov[..i + 1] == s.prov + [ScaleOutCap(metrics, p, s.prov[i - 1], i)];
    var scaled := ScaleIn(metrics, p, prov, i, count', last');
    if scaled {
      count' := count' + 1;
      last' := i;
    }
    assert scaled == ScalesIn(metrics, p, s, i);
    StepCases(metrics, p, s, i);
    assert prov[..i + 1] == prov[..i] + [prov[i]];
  }

  /** `simulate`: allocates the capacity list and fills it tick by tick. */
  method Simulate(metrics: seq<real>, p: Policy) returns (prov: array<real>)
    requires WellDefined(metrics, p)
    ensures fresh(prov)
    ensures prov[..] == Simulated(metrics, p)
  {
    var n := |metrics|;
    prov := new real[n](_ => 0.0);
    if n == 0 {
      return;
    }
    prov[0] := Max(p.minCap, Min(metrics[0] / p.target, p.maxCap));
    var scaleInCount: nat := 0;
    var lastScaleInMinute: int := NoScaleInYet;

    for i := 1 to n
      invariant prov[..i] == Run(metrics, p, i).prov
      invariant scaleInCount == Run(metrics, p, i).scaleInCount
      invariant lastScaleInMinute == Run(metrics, p, i).lastScaleIn
    {
      scaleInCount, lastScaleInMinute := Tick(metrics, p, prov, i, scaleInCount, lastScaleInMinute, Run(metrics, p, i));
    }
    assert prov[..] == prov[..n];
  }

  // ---------------------------------------------------------------------------
  // Properties of the state machine

  /** Tick i either scales in, taking the candidate and recording the tick,
      or keeps the scale-out capacity and the latest scale-in. */
  lemma StepCases(m: seq<real>, p: Policy, s: SimState, i: nat)
    requires 1 <= i < |m| && |s.prov| == i && p.target != 0.0
    ensures var r := Step(m, p, s, i);
      && r.prov[..i] == s.prov
      && r.prov[i] == (if ScalesIn(m, p, s, i) then ScaleInCap(m, p, i) else ScaleOutCap(m, p, s.prov[i - 1], i))
      && r.scaleInCount == CountAfterReset(s.scaleInCount, i) + (if ScalesIn(m, p, s, i) then 1 else 0)
      && r.lastScaleIn == (if ScalesIn(m, p, s, i) then i else s.lastScaleIn)
  {
    var r := Step(m, p, s, i);
    assert r.prov[..i] == s.prov;
  }

  /** The output has one capacity per input sample; no sample, no capacity. */
  lemma LengthPreserved(m: seq<real>, p: Policy)
    requires WellDefined(m, p)
    ensures |Simulated(m, p)| == |m|
    ensures m == [] ==> Simulated(m, p) == []
  {
  }

  /** Tick k only appends: the capacities of ticks 0..j-1 are never rewritten. */
  lemma {:induction false} RunPrefix(m: seq<real>, p: Policy, j: nat, k: nat)
    requires p.target != 0.0 && 1 <= j <= k <= |m|
    ensures Run(m, p, j).prov == Run(m, p, k).prov[..j]
    decreases k
  {
    if j < k {
      RunPrefix(m, p, j, k - 1);
      assert Run(m, p, k).prov[..k - 1] == Run(m, p, k - 1).prov;
    }
  }

  lemma SimulatedPrefix(m: seq<real>, p: Policy, k: nat)
    requires WellDefined(m, p) && 1 <= k <= |m|
    ensures Simulated(m, p)[..k] == Run(m, p, k).prov
  {
    RunPrefix(m, p, k, |m|);
  }

  /** The first capacity is the first sample over the target, clamped to the bounds. */
  lemma FirstSample(m: seq<real>, p: Policy)
    requires WellDefined(m, p) && m != []
    ensures Simulated(m, p)[0] == Max(p.minCap, Min(m[0] / p.target, p.maxCap))
  {
    SimulatedPrefix(m, p, 1);
  }

  /** With a target below 100% and room under the maximum, the first capacity
      leaves headroom above the first sample. */
  lemma HeadroomAtStart(m: seq<real>, p: Policy)
    requires m != [] && 0.0 < p.target < 1.0
    requires 0.0 < m[0] && m[0] <= p.target * p.maxCap
    ensures Simulated(m, p)[0] > m[0]
  {
    FirstSample(m, p);
    ClampedQuotientAbove(m[0], p);
  }

  /** The clamped first capacity exceeds a positive first sample x when the
      target is below 1 and x / target stays within the maximum. */
  lemma ClampedQuotientAbove(x: real, p: Policy)
    requires 0.0 < x && 0.0 < p.target < 1.0 && x <= p.target * p.maxCap
    ensures Max(p.minCap, Min(x / p.target, p.maxCap)) > x
  {
    QuotientAbove(x, p.target, p.maxCap);
  }

  /** x / t exceeds x for 0 < t < 1, and stays within c when x <= t * c. */
  lemma QuotientAbove(x: real, t: real, c: real)
    requires 0.0 < x && 0.0 < t < 1.0 && x <= t * c
    ensures x / t > x && x / t <= c
  {
    var q := x / t;
    assert q * t == x;
    assert q > 0.0;
    ProductPositive(q, 1.0 - t);
    assert q * (1.0 - t) == q - x;
    if q > c {
      ProductPositive(q - c, t);
      assert false;
    }
  }

  lemma ProductPositive(a: real, b: real)
    requires a > 0.0 && b > 0.0
    ensures a * b > 0.0
  {
  }

  /** Two sample sequences that agree on ticks 0..i give the same step at tick i. */
  lemma StepCausal(m: seq<real>, m': seq<real>, p: Policy, s: SimState, i: nat)
    requires p.target != 0.0 && 1 <= i < |m| && i < |m'| && |s.prov| == i
    requires forall j :: 0 <= j <= i ==> m[j] == m'[j]
    ensures Step(m, p, s, i) == Step(m', p, s, i)
  {
    var prev := s.prov[i - 1];
    assert ScaleOutCap(m, p, prev, i) == ScaleOutCap(m', p, prev, i);
    var caps := s.prov + [ScaleOutCap(m, p, prev, i)];
    if i >= 15 {
      assert m[i - 14..i + 1] == m'[i - 14..i + 1];
      assert ScaleInCap(m, p, i) == ScaleInCap(m', p, i);
      assert AllBelow(m, caps, p, i) == AllBelow(m', caps, p, i);
    }
    assert ScalesIn(m, p, s, i) == ScalesIn(m', p, s, i);
  }

  /** Run depends on a prefix of the samples only. */
  lemma {:induction false} RunCausal(m: seq<real>, m': seq<real>, p: Policy, k: nat)
    requires p.target != 0.0 && 1 <= k <= |m| && k <= |m'|
    requires forall j :: 0 <= j < k ==> m[j] == m'[j]
    ensures Run(m, p, k) == Run(m', p, k)
    decreases k
  {
    if k > 1 {
      RunCausal(m, m', p, k - 1);
      StepCausal(m, m', p, Run(m, p, k - 1), k - 1);
    }
  }

  /** The simulator is causal: the capacity of tick t depends only on the
      samples up to t, so simulating a prefix gives a prefix of the output. */
  lemma Causal(m: seq<real>, p: Policy, k: nat)
    requires WellDefined(m, p) && k <= |m|
    ensures Simulated(m[..k], p) == Simulated(m, p)[..k]
  {
    if k > 0 {
      RunCausal(m[..k], m, p, k);
      SimulatedPrefix(m, p, k);
    }
  }

  predicate InBounds(xs: seq<real>, p: Policy) {
    forall i :: 0 <= i < |xs| ==> p.minCap <= xs[i] <= p.maxCap
  }

  lemma {:induction false} RunInBounds(m: seq<real>, p: Policy, k: nat)
    requires p.target != 0.0 && SaneBounds(p) && 1 <= k <= |m|
    ensures InBounds(Run(m, p, k).prov, p)
    decreases k
  {
    if k > 1 {
      var i := k - 1;
      var s := Run(m, p, i);
      RunInBounds(m, p, i);
      var prev := s.prov[i - 1];
      var cap := ScaleOutCap(m, p, prev, i);
      assert p.minCap <= cap <= p.maxCap;
      if ScalesIn(m, p, s, i) {
        var c := ScaleInCap(m, p, i);
        assert 0.0 <= p.minCap <= c;
        assert c <= c * 1.2 < cap;
      }
    }
  }

  /** Clamp invariant: with 0 <= min_cap <= max_cap every capacity lies in the bounds. */
  lemma SimulatedInBounds(m: seq<real>, p: Policy)
    requires WellDefined(m, p) && SaneBounds(p)
    ensures InBounds(Simulated(m, p), p)
  {
    if m != [] {
      RunInBounds(m, p, |m|);
    }
  }

  /** Within one tick the scale-in window covers tick i-1 at the capacity the
      scale-out rule measured, so the two rules never both fire. */
  lemma ScaleInExcludesScaleOut(m: seq<real>, p: Policy, s: SimState, i: nat)
    requires 1 <= i < |m| && |s.prov| == i && p.target != 0.0
    requires ScalesIn(m, p, s, i)
    ensures !ScaleOutFires(m, p, s.prov[i - 1], i)
  {
    var cap := ScaleOutCap(m, p, s.prov[i - 1], i);
    assert (s.prov + [cap])[i - 1] == s.prov[i - 1];
  }

  /** Tick i (i >= 1) applied a scale-in. */
  predicate ScaledInAt(m: seq<real>, p: Policy, i: nat)
    requires p.target != 0.0
  {
    1 <= i < |m| && ScalesIn(m, p, Run(m, p, i), i)
  }

  /** First tick of the 1440-tick period holding tick i. */
  function DayStart(i: nat): nat {
    i - i % TicksPerDay
  }

  /** Number of scale-ins at ticks lo..hi-1. */
  function CountScaleIns(m: seq<real>, p: Policy, lo: nat, hi: nat): nat
    requires p.target != 0.0 && hi <= |m|
    decreases hi
  {
    if hi <= lo then 0
    else CountScaleIns(m, p, lo, hi - 1) + (if ScaledInAt(m, p, hi - 1) then 1 else 0)
  }

  /** `last` is the latest scale-in before tick k, or NoScaleInYet when there is none. */
  predicate LastScaleInIs(m: seq<real>, p: Policy, last: int, k: nat)
    requires p.target != 0.0
  {
    if last == NoScaleInYet then
      forall j :: 1 <= j < k ==> !ScaledInAt(m, p, j)
    else
      1 <= last < k && ScaledInAt(m, p, last) && forall j :: last < j < k ==> !ScaledInAt(m, p, j)
  }

  lemma DayStartStep(i: nat)
    requires i >= 1 && i % TicksPerDay != 0
    ensures DayStart(i) == DayStart(i - 1) && DayStart(i) <= i - 1
  {
  }

  /** The counters of the state machine mean what their names say: after ticks
      0..k-1, `scale_in_count` is the number of scale-ins since the last
      1440-tick reset and `last_scale_in_minute` is the latest scale-in. */
  lemma {:induction false} CounterInvariant(m: seq<real>, p: Policy, k: nat)
    requires p.target != 0.0 && 1 <= k <= |m|
    ensures Run(m, p, k).scaleInCount == CountScaleIns(m, p, DayStart(k - 1), k)
    decreases k
  {
    if k == 1 {
      assert !ScaledInAt(m, p, 0);
    } else {
      var i := k - 1;
      CounterInvariant(m, p, i);
      var s := Run(m, p, i);
      assert Run(m, p, k) == Step(m, p, s, i);
      assert ScaledInAt(m, p, i) == ScalesIn(m, p, s, i);
      if i % TicksPerDay == 0 {
        assert DayStart(i) == i;
        assert CountScaleIns(m, p, i, i) == 0;
      } else {
        DayStartStep(i);
        assert CountAfterReset(s.scaleInCount, i) == s.scaleInCount;
      }
    }
  }

  /** `last_scale_in_minute` is the tick of the latest scale-in, or its initial value. */
  lemma {:induction false} LastScaleInInvariant(m: seq<real>, p: Policy, k: nat)
    requires p.target != 0.0 && 1 <= k <= |m|
    ensures LastScaleInIs(m, p, Run(m, p, k).lastScaleIn, k)
    decreases k
  {
    if k > 1 {
      var i := k - 1;
      LastScaleInInvariant(m, p, i);
      var s := Run(m, p, i);
      assert Run(m, p, k) == Step(m, p, s, i);
      if ScalesIn(m, p, s, i) {
        assert ScaledInAt(m, p, i);
      } else {
        assert !ScaledInAt(m, p, i);
        LastScaleInKept(m, p, s.lastScaleIn, i);
      }
    }
  }

  /** A tick without scale-in leaves the latest scale-in where it was. */
  lemma LastScaleInKept(m: seq<real>, p: Policy, last: int, i: nat)
    requires p.target != 0.0 && 1 <= i
    requires LastScaleInIs(m, p, last, i) && !ScaledInAt(m, p, i)
    ensures LastScaleInIs(m, p, last, i + 1)
  {
    if last == NoScaleInYet {
      forall j | 1 <= j < i + 1 ensures !ScaledInAt(m, p, j) {
        if j < i {
          assert 1 <= j < i;
        }
      }
    } else {
      forall j | last < j < i + 1 ensures !ScaledInAt(m, p, j) {
        if j < i {
          assert last < j < i;
        }
      }
    }
  }

  /** The quota, stated over the trace: fewer than 4 scale-ins since the last
      reset, or at least 60 ticks since every earlier scale-in. */
  predicate QuotaOk(m: seq<real>, p: Policy, i: nat)
    requires p.target != 0.0 && i < |m|
  {
    || CountScaleIns(m, p, DayStart(i), i) < FreeScaleInsPerDay
    || forall j :: 1 <= j < i && ScaledInAt(m, p, j) ==> i - j >= ScaleInCooldown
  }

  lemma QuotaAllowsMeansQuotaOk(m: seq<real>, p: Policy, i: nat)
    requires p.target != 0.0 && 1 <= i < |m|
    ensures QuotaAllows(CountAfterReset(Run(m, p, i).scaleInCount, i), Run(m, p, i).lastScaleIn, i)
        <==> QuotaOk(m, p, i)
  {
    CounterInvariant(m, p, i);
    LastScaleInInvariant(m, p, i);
    if i % TicksPerDay == 0 {
      assert DayStart(i) == i;
    } else {
      DayStartStep(i);
    }
  }

  /** Window condition over the output: the utilisations of ticks i-14..i-1 at
      their capacities, and of tick i at the capacity carried over from i-1,
      are all strictly below target - 0.2. */
  predicate WindowBelow(m: seq<real>, p: Policy, prov: seq<real>, i: nat)
    requires 1 <= i < |m| == |prov|
  {
    && (forall j :: 0 <= j && i - 14 <= j < i ==> Util(m[j], prov[j]) < p.target - 0.2)
    && Util(m[i], prov[i - 1]) < p.target - 0.2
  }

  /** Scale-in happens at tick i exactly when i >= 15, the window is below
      target - 0.2, the quota allows it and the candidate is materially lower. */
  lemma ScaleInCharacterization(m: seq<real>, p: Policy, i: nat)
    requires WellDefined(m, p) && 1 <= i < |m|
    ensures ScaledInAt(m, p, i) <==>
      && i >= 15
      && WindowBelow(m, p, Simulated(m, p), i)
      && QuotaOk(m, p, i)
      && ScaleInCap(m, p, i) * 1.2 < Simulated(m, p)[i - 1]
  {
    var s := Run(m, p, i);
    var out := Simulated(m, p);
    SimulatedPrefix(m, p, i);
    QuotaAllowsMeansQuotaOk(m, p, i);
    forall j | 0 <= j < i ensures s.prov[j] == out[j] {
      assert out[..i][j] == out[j];
    }
    if i >= 15 {
      WindowIff(m, p, s.prov, out, i);
    }
  }

  /** The loop's window test, on the capacities it holds at tick i, is the
      window condition over the output: the scale-out rule cannot have fired
      at a tick whose window is below target - 0.2. */
  lemma WindowIff(m: seq<real>, p: Policy, prov: seq<real>, out: seq<real>, i: nat)
    requires p.target != 0.0 && 15 <= i < |m| == |out| && |prov| == i
    requires forall j :: 0 <= j < i ==> prov[j] == out[j]
    ensures AllBelow(m, prov + [ScaleOutCap(m, p, prov[i - 1], i)], p, i) <==> WindowBelow(m, p, out, i)
  {
    var prev := prov[i - 1];
    var cap := ScaleOutCap(m, p, prev, i);
    var caps := prov + [cap];
    assert forall j :: 0 <= j < i ==> caps[j] == out[j];
    if AllBelow(m, caps, p, i) {
      assert Util(m[i - 1], caps[i - 1]) < p.target - 0.2;
      assert cap == prev;
      assert WindowBelow(m, p, out, i);
    }
    if WindowBelow(m, p, out, i) {
      assert Util(m[i - 1], out[i - 1]) < p.target - 0.2;
      assert !ScaleOutFires(m, p, prev, i);
      assert cap == prev;
      assert AllBelow(m, caps, p, i);
    }
  }

  /** Once 4 scale-ins have happened since the last reset, a further one comes
      at least 60 ticks after every earlier scale-in. */
  lemma QuotaRespected(m: seq<real>, p: Policy, i: nat)
    requires WellDefined(m, p) && 1 <= i < |m|
    requires ScaledInAt(m, p, i)
    requires CountScaleIns(m, p, DayStart(i), i) >= FreeScaleInsPerDay
    ensures forall j :: 1 <= j < i && ScaledInAt(m, p, j) ==> i - j >= ScaleInCooldown
  {
    ScaleInCharacterization(m, p, i);
  }

  /** Capacity after tick i, as the function of the state before it. */
  lemma SimulatedAt(m: seq<real>, p: Policy, i: nat)
    requires WellDefined(m, p) && 1 <= i < |m|
    ensures Simulated(m, p)[i - 1] == Run(m, p, i).prov[i - 1]
    ensures Simulated(m, p)[i] == Step(m, p, Run(m, p, i), i).prov[i]
  {
    SimulatedPrefix(m, p, i + 1);
    var out := Simulated(m, p);
    assert out[..i + 1][i - 1] == out[i - 1];
    assert out[..i + 1][i] == out[i];
  }

  /** Capacity drops exactly at the ticks where a scale-in is applied. */
  lemma ScaledInIffDrop(m: seq<real>, p: Policy, i: nat)
    requires WellDefined(m, p) && SaneBounds(p) && 1 <= i < |m|
    ensures ScaledInAt(m, p, i) <==> Simulated(m, p)[i] < Simulated(m, p)[i - 1]
  {
    SimulatedAt(m, p, i);
    var s := Run(m, p, i);
    RunInBounds(m, p, i);
    var prev := s.prov[i - 1];
    if ScalesIn(m, p, s, i) {
      ScaleInExcludesScaleOut(m, p, s, i);
      var c := ScaleInCap(m, p, i);
      assert 0.0 <= c <= c * 1.2 < prev;
    } else {
      assert prev <= p.maxCap;
      assert ScaleOutCap(m, p, prev, i) >= prev;
    }
  }

  /** Scale-out never lowers capacity: when it fires, tick i gets
      min(max(needed, previous), max_cap), which is at least the previous capacity;
      and capacity only rises through it. */
  lemma ScaleOutRaises(m: seq<real>, p: Policy, i: nat)
    requires WellDefined(m, p) && SaneBounds(p) && 1 <= i < |m|
    ensures ScaleOutFires(m, p, Simulated(m, p)[i - 1], i) ==>
      Simulated(m, p)[i] == Min(Max(Needed(m, p, i), Simulated(m, p)[i - 1]), p.maxCap) >= Simulated(m, p)[i - 1]
    ensures Simulated(m, p)[i] > Simulated(m, p)[i - 1] ==>
      ScaleOutFires(m, p, Simulated(m, p)[i - 1], i) && Simulated(m, p)[i] == Min(Needed(m, p, i), p.maxCap)
  {
    SimulatedAt(m, p, i);
    var s := Run(m, p, i);
    RunInBounds(m, p, i);
    var prev := s.prov[i - 1];
    if ScalesIn(m, p, s, i) {
      ScaleInExcludesScaleOut(m, p, s, i);
      var c := ScaleInCap(m, p, i);
      assert 0.0 <= c <= c * 1.2 < prev;
    }
  }
}
