/**
 * Indicator engines as a lane drives them: previews on a copy, live confirmed
 * evaluations inside a cycle, and state-only replays gated by the last
 * dispatched bar.
 */
module Indicators {
  import opened Options
  import opened Market

  /** An indicator: its evaluation function and its current state. */
  datatype Indicator<!S, !G> = Indicator(engine: (S, Bar, Phase) -> (S, G), state: S)

  /** One confirmed evaluation of every indicator. */
  function Feed<S, G>(indicators: seq<Indicator<S, G>>, bar: Bar): seq<Indicator<S, G>> {
    seq(|indicators|, i requires 0 <= i < |indicators| =>
      indicators[i].(state := indicators[i].engine(indicators[i].state, bar, Confirmed).0))
  }

  function Fold<S, G>(indicators: seq<Indicator<S, G>>, bars: seq<Bar>): seq<Indicator<S, G>>
    decreases |bars|
  {
    if bars == [] then indicators else Fold(Feed(indicators, bars[0]), bars[1..])
  }

  /** The lane fields that indicator evaluation touches. */
  class LaneRuntime<S, G> {
    var indicators: seq<Indicator<S, G>>
    var lastDispatched: Option<int>

    constructor (indicators: seq<Indicator<S, G>>)
      ensures this.indicators == indicators && lastDispatched == None
    {
      this.indicators, lastDispatched := indicators, None;
    }

    /** Signals come from the current states; only a confirmed evaluation moves them. */
    method EvaluateIndicatorSignals(bar: Bar, phase: Phase) returns (signals: seq<G>)
      modifies this`indicators
      ensures indicators == if phase == Confirmed then Feed(old(indicators), bar) else old(indicators)
      ensures |signals| == |indicators| == |old(indicators)|
      ensures forall i :: 0 <= i < |indicators| ==>
        indicators[i] == if phase == Preview then old(indicators)[i]
                         else Indicator(old(indicators)[i].engine, old(indicators)[i].engine(old(indicators)[i].state, bar, Confirmed).0)
      ensures forall i :: 0 <= i < |signals| ==>
        signals[i] == old(indicators)[i].engine(old(indicators)[i].state, bar, phase).1
    {
      signals := [];
      ghost var before := indicators;
      for k := 0 to |indicators|
        invariant |indicators| == |before| && |signals| == k
        invariant forall i :: 0 <= i < k ==> signals[i] == before[i].engine(before[i].state, bar, phase).1
        invariant forall i :: 0 <= i < k && phase == Confirmed ==> indicators[i] == Feed(before, bar)[i]
        invariant forall i :: 0 <= i < |before| && (k <= i || phase == Preview) ==> indicators[i] == before[i]
      {
        var evaluated := indicators[k].engine(indicators[k].state, bar, phase);
        if phase == Confirmed {
          indicators := indicators[k := indicators[k].(state := evaluated.0)];
        }
        signals := signals + [evaluated.1];
      }
      assert phase == Confirmed ==> indicators == Feed(before, bar);
    }

    /** Feeds a bar without trading on it, unless it is not newer than the last dispatched one. */
    method ApplyStateOnlyConfirmedBar(bar: Bar) returns (applied: bool)
      modifies this
      ensures applied <==> Newer(old(lastDispatched), bar)
      ensures applied ==> indicators == Feed(old(indicators), bar) && lastDispatched == Some(bar.time)
      ensures !applied ==> indicators == old(indicators) && lastDispatched == old(lastDispatched)
    {
      if lastDispatched.Some? && lastDispatched.value >= bar.time {
        return false;
      }
      var _ := EvaluateIndicatorSignals(bar, Confirmed);
      lastDispatched := Some(bar.time);
      applied := true;
    }

    method ReplayPage(page: seq<Bar>)
      modifies this
      ensures (indicators, lastDispatched) ==
        var (fed, last) := Replayed(old(lastDispatched), page); (Fold(old(indicators), fed), last)
    {
      ghost var start, from := indicators, lastDispatched;
      for k := 0 to |page|
        invariant (indicators, lastDispatched) ==
          var (fed, last) := Replayed(from, page[..k]); (Fold(start, fed), last)
      {
        assert page[..k + 1][..k] == page[..k];
        ghost var fed := Replayed(from, page[..k]).0;
        FoldSnoc(start, fed, page[k]);
        var _ := ApplyStateOnlyConfirmedBar(page[k]);
      }
      assert page[..|page|] == page;
    }
  }

  predicate Newer(last: Option<int>, bar: Bar) {
    last.None? || last.value < bar.time
  }

  /** The bars of a page that pass the gate, and where the gate then stands. */
  function Replayed(last: Option<int>, page: seq<Bar>): (seq<Bar>, Option<int>) {
    if page == [] then ([], last)
    else
      var (fed, gate) := Replayed(last, page[..|page| - 1]);
      var bar := page[|page| - 1];
      if Newer(gate, bar) then (fed + [bar], Some(bar.time)) else (fed, gate)
  }

  lemma {:induction false} FoldSnoc<S, G>(indicators: seq<Indicator<S, G>>, bars: seq<Bar>, bar: Bar)
    ensures Fold(indicators, bars + [bar]) == Feed(Fold(indicators, bars), bar)
    decreases |bars|
  {
    if bars == [] {
      assert [bar][1..] == [];
      assert bars + [bar] == [bar];
      assert Fold(Feed(indicators, bar), []) == Feed(indicators, bar);
    } else {
      assert (bars + [bar])[1..] == bars[1..] + [bar];
      FoldSnoc(Feed(indicators, bars[0]), bars[1..], bar);
    }
  }

  lemma {:induction false} FoldConcat<S, G>(indicators: seq<Indicator<S, G>>, a: seq<Bar>, b: seq<Bar>)
    ensures Fold(indicators, a + b) == Fold(Fold(indicators, a), b)
    decreases |b|
  {
    if b == [] {
      assert a + b == a;
    } else {
      var n := |b| - 1;
      assert a + b == (a + b[..n]) + [b[n]] && b == b[..n] + [b[n]];
      FoldSnoc(indicators, a + b[..n], b[n]);
      FoldConcat(indicators, a, b[..n]);
      FoldSnoc(Fold(indicators, a), b[..n], b[n]);
    }
  }

  // ----- Whole runs -----

  /**
   * A preview; a live confirmed evaluation, whose cycle may abort before the
   * last-dispatched time is updated; or a page of state-only replays.
   */
  datatype Event = PreviewBar(bar: Bar) | LiveBar(bar: Bar, completes: bool) | ReplayBars(page: seq<Bar>)

  datatype Lane<!S, !G> = Lane(indicators: seq<Indicator<S, G>>, last: Option<int>)

  function Step<S, G>(lane: Lane<S, G>, e: Event): Lane<S, G> {
    match e
    case PreviewBar(_) => lane
    case LiveBar(bar, completes) =>
      Lane(Feed(lane.indicators, bar), if completes then Some(bar.time) else lane.last)
    case ReplayBars(page) =>
      var (fed, last) := Replayed(lane.last, page);
      Lane(Fold(lane.indicators, fed), last)
  }

  function Run<S, G>(lane: Lane<S, G>, events: seq<Event>): Lane<S, G> {
    if events == [] then lane else Step(Run(lane, events[..|events| - 1]), events[|events| - 1])
  }

  // ----- What reaches the engines -----

  /** One confirmed bar offered to the lane, live or for replay. */
  datatype Offer = Replay(bar: Bar) | Live(bar: Bar, completes: bool)

  function ReplayOffers(page: seq<Bar>): seq<Offer> {
    seq(|page|, i requires 0 <= i < |page| => Replay(page[i]))
  }

  /** The confirmed bars of a run in order; previews and page boundaries leave no trace. */
  function Offers(events: seq<Event>): seq<Offer> {
    if events == [] then []
    else
      var e := events[|events| - 1];
      Offers(events[..|events| - 1]) + match e
        case PreviewBar(_) => []
        case LiveBar(bar, completes) => [Live(bar, completes)]
        case ReplayBars(page) => ReplayOffers(page)
  }

  /** Whether an offered bar is evaluated: live bars always, replayed ones when the gate lets them. */
  predicate Passes(gate: Option<int>, o: Offer) { o.Live? || Newer(gate, o.bar) }

  function GateAfter(gate: Option<int>, o: Offer): Option<int> {
    if (o.Live? && o.completes) || (o.Replay? && Newer(gate, o.bar)) then Some(o.bar.time) else gate
  }

  function Gate(start: Option<int>, offers: seq<Offer>): Option<int> {
    if offers == [] then start
    else GateAfter(Gate(start, offers[..|offers| - 1]), offers[|offers| - 1])
  }

  /** The bars evaluated, in order. */
  function Fed(start: Option<int>, offers: seq<Offer>): seq<Bar> {
    if offers == [] then []
    else
      var n := |offers| - 1;
      Fed(start, offers[..n]) + if Passes(Gate(start, offers[..n]), offers[n]) then [offers[n].bar] else []
  }

  lemma {:induction false} ReplayedIsFed(start: Option<int>, offers: seq<Offer>, page: seq<Bar>)
    ensures var (fed, gate) := Replayed(Gate(start, offers), page);
            && Fed(start, offers + ReplayOffers(page)) == Fed(start, offers) + fed
            && Gate(start, offers + ReplayOffers(page)) == gate
    decreases |page|
  {
    if page == [] {
      assert offers + ReplayOffers(page) == offers;
    } else {
      var n := |page| - 1;
      ReplayedIsFed(start, offers, page[..n]);
      var all, earlier := offers + ReplayOffers(page), offers + ReplayOffers(page[..n]);
      assert all[..|all| - 1] == earlier && all[|all| - 1] == Replay(page[n]);
    }
  }

  /** Whatever the engines compute, their states are one fold over the bars evaluated. */
  lemma {:induction false} RunIsFold<S, G>(lane: Lane<S, G>, events: seq<Event>)
    ensures Run(lane, events) ==
            Lane(Fold(lane.indicators, Fed(lane.last, Offers(events))), Gate(lane.last, Offers(events)))
    decreases |events|
  {
    if events != [] {
      var n := |events| - 1;
      RunIsFold(lane, events[..n]);
      var offers := Offers(events[..n]);
      match events[n] {
        case PreviewBar(_) =>
          assert offers + [] == offers;
        case LiveBar(bar, completes) =>
          assert (offers + [Live(bar, completes)])[..|offers|] == offers;
          FoldSnoc(lane.indicators, Fed(lane.last, offers), bar);
        case ReplayBars(page) =>
          ReplayedIsFed(lane.last, offers, page);
          FoldConcat(lane.indicators, Fed(lane.last, offers), Replayed(Gate(lane.last, offers), page).0);
      }
    }
  }

  /** Previews, and how replays are split into pages, make no difference. */
  lemma OnlyOffersMatter<S, G>(lane: Lane<S, G>, a: seq<Event>, b: seq<Event>)
    requires Offers(a) == Offers(b)
    ensures Run(lane, a) == Run(lane, b)
  {
    RunIsFold(lane, a);
    RunIsFold(lane, b);
  }

  lemma PagesMayBeSplit<S, G>(lane: Lane<S, G>, a: seq<Bar>, b: seq<Bar>, bar: Bar)
    ensures Run(lane, [ReplayBars(a), PreviewBar(bar), ReplayBars(b)]) == Run(lane, [ReplayBars(a + b)])
  {
    var split := [ReplayBars(a), PreviewBar(bar), ReplayBars(b)];
    assert split[..2][..1] == [ReplayBars(a)] && split[..2] == [ReplayBars(a), PreviewBar(bar)];
    assert [ReplayBars(a)][..0] == [] && [ReplayBars(a + b)][..0] == [];
    assert Offers([ReplayBars(a)]) == ReplayOffers(a);
    assert Offers(split[..2]) == ReplayOffers(a);
    assert Offers(split) == ReplayOffers(a) + ReplayOffers(b) == ReplayOffers(a + b);
    assert Offers([ReplayBars(a + b)]) == ReplayOffers(a + b);
    OnlyOffersMatter(lane, split, [ReplayBars(a + b)]);
  }

  // ----- The reference: the distinct bars -----

  /** The greatest time among the starting point and the bars offered. */
  function Latest(start: Option<int>, offers: seq<Offer>): Option<int> {
    if offers == [] then start
    else
      var earlier, bar := Latest(start, offers[..|offers| - 1]), offers[|offers| - 1].bar;
      if Newer(earlier, bar) then Some(bar.time) else earlier
  }

  /** The distinct bars of a stream: each one newer than everything before it. */
  function Distinct(start: Option<int>, offers: seq<Offer>): seq<Bar> {
    if offers == [] then []
    else
      var n := |offers| - 1;
      Distinct(start, offers[..n]) + if Newer(Latest(start, offers[..n]), offers[n].bar) then [offers[n].bar] else []
  }

  predicate Ascending(start: Option<int>, bars: seq<Bar>) {
    && (forall i :: 0 <= i < |bars| ==> Newer(start, bars[i]))
    && forall i, j :: 0 <= i < j < |bars| ==> bars[i].time < bars[j].time
  }

  lemma {:induction false} DistinctIsAscending(start: Option<int>, offers: seq<Offer>)
    ensures Ascending(start, Distinct(start, offers))
    ensures var bars := Distinct(start, offers);
            Latest(start, offers) == if bars == [] then start else Some(bars[|bars| - 1].time)
    decreases |offers|
  {
    if offers != [] {
      DistinctIsAscending(start, offers[..|offers| - 1]);
    }
  }

  /** A repeated evaluation: a bar gets through although it is not newer than everything offered before. */
  predicate Leaks(start: Option<int>, earlier: seq<Offer>, o: Offer) {
    Passes(Gate(start, earlier), o) && !Newer(Latest(start, earlier), o.bar)
  }

  function LeakCount(start: Option<int>, offers: seq<Offer>): nat {
    if offers == [] then 0
    else
      var n := |offers| - 1;
      LeakCount(start, offers[..n]) + if Leaks(start, offers[..n], offers[n]) then 1 else 0
  }

  predicate AtMost(a: Option<int>, b: Option<int>) {
    a.None? || (b.Some? && a.value <= b.value)
  }

  lemma {:induction false} GateTrailsLatest(start: Option<int>, offers: seq<Offer>)
    ensures AtMost(Gate(start, offers), Latest(start, offers))
    decreases |offers|
  {
    if offers != [] {
      GateTrailsLatest(start, offers[..|offers| - 1]);
    }
  }

  /** No distinct bar is ever missed, so the surplus of evaluations is exactly the repeats. */
  lemma {:induction false} SurplusIsRepeats(start: Option<int>, offers: seq<Offer>)
    ensures |Fed(start, offers)| == |Distinct(start, offers)| + LeakCount(start, offers)
    ensures LeakCount(start, offers) == 0 ==> Fed(start, offers) == Distinct(start, offers)
    decreases |offers|
  {
    if offers != [] {
      var n := |offers| - 1;
      SurplusIsRepeats(start, offers[..n]);
      GateTrailsLatest(start, offers[..n]);
    }
  }

  /** With no repeated evaluation, every engine's state is one fold over the distinct bars. */
  lemma IndicatorsFoldDistinctBars<S, G>(lane: Lane<S, G>, events: seq<Event>)
    requires LeakCount(lane.last, Offers(events)) == 0
    ensures Run(lane, events).indicators == Fold(lane.indicators, Distinct(lane.last, Offers(events)))
  {
    RunIsFold(lane, events);
    SurplusIsRepeats(lane.last, Offers(events));
  }

  // ----- The condition is exact: an engine that remembers everything -----

  function Remember(seen: seq<Bar>, bar: Bar, phase: Phase): (seq<Bar>, bool) { (seen + [bar], true) }

  function Recorder(seen: seq<Bar>): seq<Indicator<seq<Bar>, bool>> { [Indicator(Remember, seen)] }

  lemma {:induction false} RecorderRecords(seen: seq<Bar>, bars: seq<Bar>)
    ensures Fold(Recorder(seen), bars) == Recorder(seen + bars)
    decreases |bars|
  {
    if bars == [] {
      assert seen + bars == seen;
    } else {
      assert Feed(Recorder(seen), bars[0]) == Recorder(seen + [bars[0]]);
      RecorderRecords(seen + [bars[0]], bars[1..]);
      assert seen + [bars[0]] + bars[1..] == seen + bars;
    }
  }

  /** The fold over distinct bars describes the lane exactly when nothing was evaluated twice. */
  lemma FoldIsExactIffNothingRepeats(last: Option<int>, events: seq<Event>)
    ensures Run(Lane(Recorder([]), last), events).indicators == Fold(Recorder([]), Distinct(last, Offers(events)))
            <==> LeakCount(last, Offers(events)) == 0
  {
    var lane, offers := Lane(Recorder([]), last), Offers(events);
    RunIsFold(lane, events);
    RecorderRecords([], Fed(last, offers));
    RecorderRecords([], Distinct(last, offers));
    SurplusIsRepeats(last, offers);
    assert [] + Fed(last, offers) == Fed(last, offers);
    assert [] + Distinct(last, offers) == Distinct(last, offers);
    if Recorder(Fed(last, offers)) == Recorder(Distinct(last, offers)) {
      assert Recorder(Fed(last, offers))[0].state == Recorder(Distinct(last, offers))[0].state;
    }
  }

  /** Every live bar is newer than the last dispatched one, and its cycle completes. */
  predicate Clean(start: Option<int>, offers: seq<Offer>) {
    forall i :: 0 <= i < |offers| && offers[i].Live? ==>
      offers[i].completes && Newer(Gate(start, offers[..i]), offers[i].bar)
  }

  lemma {:induction false} CleanNeverRepeats(start: Option<int>, offers: seq<Offer>)
    requires Clean(start, offers)
    ensures LeakCount(start, offers) == 0 && Gate(start, offers) == Latest(start, offers)
    decreases |offers|
  {
    if offers != [] {
      var n := |offers| - 1;
      assert forall i :: 0 <= i < n ==> offers[..n][i] == offers[i] && offers[..n][..i] == offers[..i];
      CleanNeverRepeats(start, offers[..n]);
    }
  }

  /** For every engine and every interleaving of clean live cycles, replays in pages, and previews. */
  lemma CleanRunsFoldDistinctBars<S, G>(lane: Lane<S, G>, events: seq<Event>)
    requires Clean(lane.last, Offers(events))
    ensures Run(lane, events) ==
            Lane(Fold(lane.indicators, Distinct(lane.last, Offers(events))), Latest(lane.last, Offers(events)))
  {
    CleanNeverRepeats(lane.last, Offers(events));
    IndicatorsFoldDistinctBars(lane, events);
    RunIsFold(lane, events);
  }

  /** A cycle that aborts after evaluating, then is retried, feeds its bar twice. */
  lemma AbortedCycleFeedsTwice(bar: Bar)
    ensures Run(Lane(Recorder([]), None), [LiveBar(bar, false), LiveBar(bar, true)]).indicators == Recorder([bar, bar])
    ensures Distinct(None, Offers([LiveBar(bar, false), LiveBar(bar, true)])) == [bar]
  {
    var events := [LiveBar(bar, false), LiveBar(bar, true)];
    var offers := [Live(bar, false), Live(bar, true)];
    assert events[..1] == [LiveBar(bar, false)] && [LiveBar(bar, false)][..0] == [];
    assert Offers(events[..1]) == [Live(bar, false)];
    assert Offers(events) == offers;
    assert offers[..1] == [Live(bar, false)] && offers[..1][..0] == [];
    assert Fed(None, offers[..1]) == [bar];
    assert Latest(None, []) == None && Distinct(None, []) == [];
    assert Distinct(None, offers[..1]) == [bar];
    assert Fed(None, offers) == [bar, bar] && Distinct(None, offers) == [bar];
    RunIsFold(Lane(Recorder([]), None), events);
    RecorderRecords([], [bar, bar]);
    assert [] + [bar, bar] == [bar, bar];
  }
}
