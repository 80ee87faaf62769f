/**
 * The latency metric shared by many threads: each recording is a thread of
 * atomic steps, ending in a compare-and-swap loop on the maximum. A relaxed
 * load, or a compare-and-swap that fails (also spuriously), may observe any
 * value the maximum ever had.
 */
module LatencyMetric {

  const U64_MAX: nat := 0xFFFF_FFFF_FFFF_FFFF

  function Clamp(n: nat): (r: nat)
    ensures r <= U64_MAX
  {
    if n > U64_MAX then U64_MAX else n
  }

  function SaturatingAdd(a: nat, b: nat): nat { Clamp(a + b) }

  /** Where a recording stands; `Trying` carries the maximum it last observed. */
  datatype Stage = StoringLast | AddingTotal | CountingSample | LoadingMax | Trying(current: nat) | Done

  datatype Recording = Recording(sample: nat, stage: Stage)

  /** `trail` lists every value the maximum has had; its last element is the value now. */
  datatype Metric = Metric(
    last: nat,
    total: nat,
    samples: nat,
    trail: seq<nat>,
    recordings: seq<Recording>)

  function Max(m: Metric): nat
    requires m.trail != []
  {
    m.trail[|m.trail| - 1]
  }

  const INITIAL: Metric := Metric(0, 0, 0, [0], [])

  datatype Action =
    | Start(millis: nat)
    // One atomic step of a recording; `fails` makes its exchange fail, `observed` picks what a load sees.
    | Advance(thread: nat, fails: bool, observed: nat)

  function Observe(m: Metric, observed: nat): nat
    requires m.trail != []
  {
    m.trail[observed % |m.trail|]
  }

  function Moved(m: Metric, i: nat, stage: Stage): Metric
    requires i < |m.recordings|
  {
    m.(recordings := m.recordings[i := m.recordings[i].(stage := stage)])
  }

  function Step(m: Metric, a: Action): Metric
    requires m.trail != []
  {
    match a
    case Start(millis) => m.(recordings := m.recordings + [Recording(Clamp(millis), StoringLast)])
    case Advance(i, fails, observed) =>
      if i >= |m.recordings| then m else
      var r := m.recordings[i];
      match r.stage
      case StoringLast => Moved(m, i, AddingTotal).(last := r.sample)
      case AddingTotal => Moved(m, i, CountingSample).(total := SaturatingAdd(m.total, r.sample))
      case CountingSample => Moved(m, i, LoadingMax).(samples := SaturatingAdd(m.samples, 1))
      case LoadingMax => Moved(m, i, Trying(Observe(m, observed)))
      case Trying(current) =>
        if r.sample <= current then Moved(m, i, Done)
        else if Max(m) == current && !fails then Moved(m, i, Done).(trail := m.trail + [r.sample])
        else Moved(m, i, Trying(Observe(m, observed)))
      case Done => m
  }

  lemma StepKeepsTrail(m: Metric, a: Action)
    requires m.trail != []
    ensures Step(m, a).trail != []
    ensures Step(m, a).trail == m.trail || Step(m, a).trail[..|m.trail|] == m.trail
  {
  }

  function Run(m: Metric, actions: seq<Action>): (r: Metric)
    requires m.trail != []
    ensures r.trail != []
    decreases |actions|
  {
    if actions == [] then m
    else
      StepKeepsTrail(m, actions[0]);
      Run(Step(m, actions[0]), actions[1..])
  }

  // ----- The invariant -----

  ghost predicate Sampled(rs: seq<Recording>, v: nat) {
    v == 0 || exists i :: 0 <= i < |rs| && rs[i].sample == v
  }

  ghost predicate TrailOk(trail: seq<nat>, rs: seq<Recording>) {
    && trail != []
    && (forall k, l :: 0 <= k < l < |trail| ==> trail[k] < trail[l])
    && forall k :: 0 <= k < |trail| ==> Sampled(rs, trail[k])
  }

  ghost predicate RecordingOk(trail: seq<nat>, r: Recording) {
    && trail != []
    && (r.stage.Trying? ==> r.stage.current in trail)
    && (r.stage.Done? ==> r.sample <= trail[|trail| - 1])
  }

  predicate Totalled(r: Recording) { !r.stage.StoringLast? && !r.stage.AddingTotal? }
  predicate Counted(r: Recording) { Totalled(r) && !r.stage.CountingSample? }

  function SumTotalled(rs: seq<Recording>): nat {
    if rs == [] then 0
    else SumTotalled(rs[..|rs| - 1]) + if Totalled(rs[|rs| - 1]) then rs[|rs| - 1].sample else 0
  }

  function CountCounted(rs: seq<Recording>): nat {
    if rs == [] then 0 else CountCounted(rs[..|rs| - 1]) + if Counted(rs[|rs| - 1]) then 1 else 0
  }

  ghost predicate Shape(trail: seq<nat>, rs: seq<Recording>, last: nat) {
    && TrailOk(trail, rs)
    && Sampled(rs, last)
    && forall i :: 0 <= i < |rs| ==> RecordingOk(trail, rs[i])
  }

  predicate Counters(m: Metric) {
    m.total == Clamp(SumTotalled(m.recordings)) && m.samples == Clamp(CountCounted(m.recordings))
  }

  ghost predicate Inv(m: Metric) { Shape(m.trail, m.recordings, m.last) && Counters(m) }

  // ----- Every step keeps it -----

  function WithStage(rs: seq<Recording>, i: nat, stage: Stage): seq<Recording>
    requires i < |rs|
  {
    rs[i := rs[i].(stage := stage)]
  }

  function Share(r: Recording): nat { if Totalled(r) then r.sample else 0 }
  function Tick(r: Recording): nat { if Counted(r) then 1 else 0 }

  lemma {:induction false} SumsAfterMove(rs: seq<Recording>, i: nat, stage: Stage)
    requires i < |rs|
    ensures var r := rs[i].(stage := stage); var next := WithStage(rs, i, stage);
            && SumTotalled(next) + Share(rs[i]) == SumTotalled(rs) + Share(r)
            && CountCounted(next) + Tick(rs[i]) == CountCounted(rs) + Tick(r)
    decreases |rs|
  {
    var n := |rs| - 1;
    var next := WithStage(rs, i, stage);
    if i == n {
      assert next[..n] == rs[..n];
    } else {
      assert next[..n] == WithStage(rs[..n], i, stage);
      SumsAfterMove(rs[..n], i, stage);
    }
  }

  lemma SampledAfterMove(rs: seq<Recording>, i: nat, stage: Stage, v: nat)
    requires i < |rs| && Sampled(rs, v)
    ensures Sampled(WithStage(rs, i, stage), v)
  {
    if v != 0 {
      var k :| 0 <= k < |rs| && rs[k].sample == v;
      assert WithStage(rs, i, stage)[k].sample == v;
    }
  }

  lemma TrailIsBelowMax(trail: seq<nat>, rs: seq<Recording>, v: nat)
    requires TrailOk(trail, rs) && v in trail
    ensures v <= trail[|trail| - 1]
  {
    var k :| 0 <= k < |trail| && trail[k] == v;
    if k < |trail| - 1 {
      assert trail[k] < trail[|trail| - 1];
    }
  }

  /** Moving a recording to a stage that is already justified keeps the shape. */
  lemma MoveKeepsShape(trail: seq<nat>, rs: seq<Recording>, last: nat, i: nat, stage: Stage)
    requires Shape(trail, rs, last) && i < |rs| && RecordingOk(trail, rs[i].(stage := stage))
    ensures Shape(trail, WithStage(rs, i, stage), last) && Shape(trail, WithStage(rs, i, stage), rs[i].sample)
  {
    var next := WithStage(rs, i, stage);
    SampledAfterMove(rs, i, stage, last);
    assert next[i].sample == rs[i].sample;
    assert Sampled(next, rs[i].sample);
    forall k | 0 <= k < |trail| ensures Sampled(next, trail[k]) { SampledAfterMove(rs, i, stage, trail[k]); }
    hide Sampled, RecordingOk;
  }

  /** The winning exchange extends the trail by a larger value, so what every reader relied on still holds. */
  lemma ExchangeKeepsShape(trail: seq<nat>, rs: seq<Recording>, last: nat, i: nat)
    requires Shape(trail, rs, last) && i < |rs| && rs[i].sample > trail[|trail| - 1]
    ensures Shape(trail + [rs[i].sample], WithStage(rs, i, Done), last)
  {
    var s, next := rs[i].sample, WithStage(rs, i, Done);
    var longer := trail + [s];
    SampledAfterMove(rs, i, Done, last);
    assert Sampled(next, s) by { assert next[i].sample == s; }
    forall k | 0 <= k < |longer| ensures Sampled(next, longer[k]) {
      if k < |trail| {
        SampledAfterMove(rs, i, Done, trail[k]);
      }
    }
    hide Sampled;
    forall k | 0 <= k < |trail| ensures trail[k] < s { TrailIsBelowMax(trail, rs, trail[k]); }
    forall k | 0 <= k < |next| ensures RecordingOk(longer, next[k]) {
      assert RecordingOk(trail, rs[k]);
    }
  }

  lemma StartKeepsInvariant(m: Metric, millis: nat)
    requires Inv(m)
    ensures Inv(Step(m, Start(millis)))
  {
    var rs := m.recordings;
    var next := rs + [Recording(Clamp(millis), StoringLast)];
    assert next[..|rs|] == rs;
    forall v | Sampled(rs, v) ensures Sampled(next, v) {
      if v != 0 {
        var k :| 0 <= k < |rs| && rs[k].sample == v;
        assert next[k].sample == v;
      }
    }
    hide Sampled;
    forall k | 0 <= k < |next| ensures RecordingOk(m.trail, next[k]) {
      if k < |rs| {
        assert RecordingOk(m.trail, rs[k]);
      }
    }
  }

  /** What a single atomic step may do to the cells while its recording moves to `stage`. */
  lemma MoveKeepsInvariant(m: Metric, i: nat, stage: Stage, n: Metric)
    requires Inv(m) && i < |m.recordings|
    requires n.recordings == WithStage(m.recordings, i, stage)
    requires Shape(n.trail, n.recordings, n.last)
    requires var r := m.recordings[i]; var next := r.(stage := stage);
             Share(next) >= Share(r) && n.total == SaturatingAdd(m.total, Share(next) - Share(r)) &&
             Tick(next) >= Tick(r) && n.samples == SaturatingAdd(m.samples, Tick(next) - Tick(r))
    ensures Inv(n)
  {
    hide Shape, Share, Tick;
    SumsAfterMove(m.recordings, i, stage);
    hide SumTotalled, CountCounted, WithStage;
  }

  lemma AdvanceKeepsInvariant(m: Metric, i: nat, fails: bool, observed: nat)
    requires Inv(m) && i < |m.recordings|
    ensures Inv(Step(m, Advance(i, fails, observed)))
  {
    hide Sampled, SumTotalled, CountCounted;
    var r, n := m.recordings[i], Step(m, Advance(i, fails, observed));
    var stage := n.recordings[i].stage;
    assert n.recordings == WithStage(m.recordings, i, stage);
    assert RecordingOk(m.trail, r);
    if r.stage.Trying? {
      TrailIsBelowMax(m.trail, m.recordings, r.stage.current);
    }
    if n.trail == m.trail {
      assert RecordingOk(m.trail, r.(stage := stage));
      MoveKeepsShape(m.trail, m.recordings, m.last, i, stage);
    } else {
      ExchangeKeepsShape(m.trail, m.recordings, m.last, i);
    }
    hide Shape, WithStage;
    MoveKeepsInvariant(m, i, stage, n);
  }

  lemma StepKeepsInvariant(m: Metric, a: Action)
    requires Inv(m)
    ensures Inv(Step(m, a)) && Max(Step(m, a)) >= Max(m)
  {
    match a {
      case Start(millis) => StartKeepsInvariant(m, millis);
      case Advance(i, fails, observed) =>
        if i < |m.recordings| {
          AdvanceKeepsInvariant(m, i, fails, observed);
          hide Inv, Counters, SumTotalled, CountCounted;
        }
    }
  }

  // ----- Over every interleaving -----

  lemma {:induction false} RunKeepsInvariant(m: Metric, actions: seq<Action>)
    requires Inv(m)
    ensures Inv(Run(m, actions)) && Max(Run(m, actions)) >= Max(m)
    decreases |actions|
  {
    if actions != [] {
      StepKeepsInvariant(m, actions[0]);
      hide Step, Inv, Max;
      RunKeepsInvariant(Step(m, actions[0]), actions[1..]);
    }
  }

  /**
   * However the recordings of any number of threads interleave: the maximum and
   * the last value are zero or some sample, the maximum never falls and covers every
   * finished recording, and the counters hold the saturated sums so far.
   */
  lemma EveryInterleavingIsSound(actions: seq<Action>, more: seq<Action>)
    ensures var m := Run(INITIAL, actions);
            && Sampled(m.recordings, Max(m)) && Sampled(m.recordings, m.last)
            && (forall i :: 0 <= i < |m.recordings| && m.recordings[i].stage.Done? ==> m.recordings[i].sample <= Max(m))
            && m.total == Clamp(SumTotalled(m.recordings)) && m.samples == Clamp(CountCounted(m.recordings))
            && Max(Run(m, more)) >= Max(m)
  {
    assert Inv(INITIAL);
    RunKeepsInvariant(INITIAL, actions);
    var m := Run(INITIAL, actions);
    assert Sampled(m.recordings, m.trail[|m.trail| - 1]);
    assert forall i :: 0 <= i < |m.recordings| ==> RecordingOk(m.trail, m.recordings[i]);
    RunKeepsInvariant(m, more);
    hide Sampled, Run;
  }

  /** Once every recording has finished, the maximum is exactly the greatest sample. */
  lemma QuiescentMaximumIsExact(actions: seq<Action>)
    requires var m := Run(INITIAL, actions);
             m.recordings != [] && forall i :: 0 <= i < |m.recordings| ==> m.recordings[i].stage.Done?
    ensures var m := Run(INITIAL, actions);
            && (forall i :: 0 <= i < |m.recordings| ==> m.recordings[i].sample <= Max(m))
            && (exists i :: 0 <= i < |m.recordings| && m.recordings[i].sample == Max(m))
  {
    EveryInterleavingIsSound(actions, []);
    var m := Run(INITIAL, actions);
    if Max(m) == 0 {
      assert m.recordings[0].sample == Max(m);
    }
  }

  /** The sample stored last along a run, or `start` when none is. */
  function LastStored(m: Metric, actions: seq<Action>, start: nat): nat
    requires m.trail != []
    decreases |actions|
  {
    if actions == [] then start
    else
      StepKeepsTrail(m, actions[0]);
      var a := actions[0];
      var stores := a.Advance? && a.thread < |m.recordings| && m.recordings[a.thread].stage.StoringLast?;
      LastStored(Step(m, a), actions[1..], if stores then m.recordings[a.thread].sample else start)
  }

  /** The last value is the sample of whichever recording stored its own last. */
  lemma {:induction false} LastIsNewest(m: Metric, actions: seq<Action>)
    requires m.trail != []
    ensures Run(m, actions).last == LastStored(m, actions, m.last)
    decreases |actions|
  {
    if actions != [] {
      StepKeepsTrail(m, actions[0]);
      LastIsNewest(Step(m, actions[0]), actions[1..]);
    }
  }

  // ----- One thread, in place -----

  /** A recording left to itself: started, then advanced, with its loads seeing the maximum as it is. */
  function Alone(m: Metric, millis: nat): seq<Action>
    requires m.trail != []
  {
    var i, now := |m.recordings|, |m.trail| - 1;
    [Start(millis), Advance(i, false, now), Advance(i, false, now), Advance(i, false, now), Advance(i, false, now),
     Advance(i, false, now)]
  }

  /** The states a run passes through. */
  lemma {:induction false} RunPasses(m: Metric, actions: seq<Action>) returns (s: seq<Metric>)
    requires m.trail != []
    ensures |s| == |actions| + 1 && s[0] == m && s[|actions|] == Run(m, actions)
    ensures forall k :: 0 <= k < |s| ==> s[k].trail != []
    ensures forall k :: 0 <= k < |actions| ==> s[k + 1] == Step(s[k], actions[k])
    decreases |actions|
  {
    s := [m];
    if actions != [] {
      StepKeepsTrail(m, actions[0]);
      hide Step;
      var rest := RunPasses(Step(m, actions[0]), actions[1..]);
      s := [m] + rest;
    }
  }

  /** Left to itself, a recording does what `RecordDuration` does: it stores and adds its sample, counts one,
      and leaves the greater of the old maximum and its sample. */
  lemma AloneIsSequential(m: Metric, millis: nat)
    requires m.trail != []
    ensures var m' := Run(m, Alone(m, millis)); var sample := if millis > U64_MAX then U64_MAX else millis;
            && m'.last == sample
            && m'.total == (if m.total + sample > U64_MAX then U64_MAX else m.total + sample)
            && m'.samples == (if m.samples + 1 > U64_MAX then U64_MAX else m.samples + 1)
            && Max(m') == (if Max(m) < sample then sample else Max(m))
            && m'.recordings == m.recordings + [Recording(sample, Done)]
  {
    hide Run, Step, Alone, Clamp;
    var sample, rs := Clamp(millis), m.recordings;
    var next := Advance(|rs|, false, |m.trail| - 1);
    var m1, m2, m3, m4, m5, m6 := SixStates(m, millis, next);
    LastAdvances(m1, rs, sample, StoringLast);
    LastAdvances(m2, rs, sample, AddingTotal);
    LastAdvances(m3, rs, sample, CountingSample);
    LastAdvances(m4, rs, sample, LoadingMax);
    LastAdvances(m5, rs, sample, Trying(Max(m)));
    SaturatedFigures(m, millis);
  }

  lemma SaturatedFigures(m: Metric, millis: nat)
    ensures var sample := if millis > U64_MAX then U64_MAX else millis;
            && Clamp(millis) == sample
            && Clamp(m.total + sample) == (if m.total + sample > U64_MAX then U64_MAX else m.total + sample)
            && Clamp(m.samples + 1) == (if m.samples + 1 > U64_MAX then U64_MAX else m.samples + 1)
  {
  }

  lemma SixStates(m: Metric, millis: nat, next: Action)
    returns (m1: Metric, m2: Metric, m3: Metric, m4: Metric, m5: Metric, m6: Metric)
    requires m.trail != [] && next == Advance(|m.recordings|, false, |m.trail| - 1)
    ensures m1.trail != [] && m2.trail != [] && m3.trail != [] && m4.trail != [] && m5.trail != []
    ensures m1 == WithLast(m, Clamp(millis), m.recordings, StoringLast) && m2 == Step(m1, next) && m3 == Step(m2, next) && m4 == Step(m3, next)
    ensures m5 == Step(m4, next) && m6 == Step(m5, next) && m6 == Run(m, Alone(m, millis))
  {
    var s := RunPasses(m, Alone(m, millis));
    assert s[1] == Step(s[0], Alone(m, millis)[0]) == WithLast(m, Clamp(millis), m.recordings, StoringLast);
    hide Step, Run;
    m1, m2, m3, m4, m5, m6 := s[1], s[2], s[3], s[4], s[5], s[6];
  }

  function WithLast(m: Metric, sample: nat, rs: seq<Recording>, stage: Stage): Metric {
    m.(recordings := rs + [Recording(sample, stage)])
  }

  /** One step of the newest recording, undisturbed. */
  lemma LastAdvances(m: Metric, rs: seq<Recording>, sample: nat, stage: Stage)
    requires m.trail != [] && m.recordings == rs + [Recording(sample, stage)]
    ensures var n := Step(m, Advance(|rs|, false, |m.trail| - 1));
            n == match stage
                 case StoringLast => WithLast(m, sample, rs, AddingTotal).(last := sample)
                 case AddingTotal => WithLast(m, sample, rs, CountingSample).(total := Clamp(m.total + sample))
                 case CountingSample => WithLast(m, sample, rs, LoadingMax).(samples := Clamp(m.samples + 1))
                 case LoadingMax => WithLast(m, sample, rs, Trying(Max(m)))
                 case Trying(current) =>
                   if sample <= current then WithLast(m, sample, rs, Done)
                   else if current == Max(m) then WithLast(m, sample, rs, Done).(trail := m.trail + [sample])
                   else WithLast(m, sample, rs, Trying(Max(m)))
                 case Done => m
  {
    var moved := Step(m, Advance(|rs|, false, |m.trail| - 1)).recordings[|rs|].stage;
    assert m.recordings[|rs| := Recording(sample, moved)] == rs + [Recording(sample, moved)];
  }

  /** The metric's cells; with no other thread about, only spurious failures delay a recording. */
  class AtomicLatencyMetric {
    var last: nat
    var total: nat
    var samples: nat
    var maximum: nat

    constructor ()
      ensures last == total == samples == maximum == 0
    {
      last, total, samples, maximum := 0, 0, 0, 0;
    }

    /** Records one duration; the first `spurious` exchanges fail for no reason. */
    method RecordDuration(millis: nat, spurious: nat)
      modifies this
      ensures last == Clamp(millis)
      ensures total == SaturatingAdd(old(total), last) && samples == SaturatingAdd(old(samples), 1)
      ensures maximum == if old(maximum) < last then last else old(maximum)
    {
      hide Clamp, SaturatingAdd;
      var elapsed := Clamp(millis);
      last := elapsed;
      total := SaturatingAdd(total, elapsed);
      samples := SaturatingAdd(samples, 1);
      var current, left: nat := maximum, spurious;
      var done := false;
      while !done && elapsed > current
        invariant !done ==> maximum == current == old(maximum)
        invariant done ==> maximum == elapsed && elapsed > old(maximum)
        invariant last == elapsed && total == SaturatingAdd(old(total), elapsed) && samples == SaturatingAdd(old(samples), 1)
        decreases !done, left
      {
        if left == 0 {
          assert maximum == current;
          maximum, done := elapsed, true;
        } else {
          current, left := maximum, left - 1;
        }
      }
    }
  }
}
