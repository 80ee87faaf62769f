/**
 * What polling feeds to the indicators: the history a run of polls leaves in a
 * lane, read as the bars offered to its engines.
 */
module LaneFeeds {
  import opened Options
  import opened Market
  import R = LaneRecovery
  import I = Indicators

  /** How an entry of the history reached the engines. */
  function OfferOf(f: R.Fed): I.Offer {
    match f.mode
    case StateOnly => I.Replay(f.bar)
    case Live => I.Live(f.bar, true)
    case Abandoned => I.Live(f.bar, false)
  }

  function OffersOf(log: seq<R.Fed>): seq<I.Offer> {
    seq(|log|, i requires 0 <= i < |log| => OfferOf(log[i]))
  }

  function Bars(log: seq<R.Fed>): seq<Bar> {
    seq(|log|, i requires 0 <= i < |log| => log[i].bar)
  }

  predicate Rising(log: seq<R.Fed>) {
    forall i, j :: 0 <= i < j < |log| ==> log[i].bar.time < log[j].bar.time
  }

  /** No abandoned bar is followed by a bar that is not newer. */
  predicate NothingRefed(log: seq<R.Fed>) {
    forall i, j :: 0 <= i < j < |log| && log[i].mode.Abandoned? ==> log[i].bar.time < log[j].bar.time
  }

  // ----- The history obeys the gate -----

  /** The first clause of safety, on a history alone. */
  predicate Ordered(log: seq<R.Fed>) {
    forall i, j :: 0 <= i < j < |log| && !log[i].mode.Abandoned? ==> log[i].bar.time < log[j].bar.time
  }

  lemma NewerThanLastSent(log: seq<R.Fed>)
    requires Ordered(log) && log != []
    ensures I.Newer(R.LastSent(log[..|log| - 1]), log[|log| - 1].bar)
  {
    var n := |log| - 1;
    LastSentIsSome(log[..n]);
    if R.LastSent(log[..n]).Some? {
      var i :| 0 <= i < n && !log[..n][i].mode.Abandoned? && log[..n][i].bar.time == R.LastSent(log[..n]).value;
      assert log[i] == log[..n][i];
    }
  }

  lemma {:induction false} LastSentIsSome(log: seq<R.Fed>)
    ensures R.LastSent(log).Some? ==>
      exists i :: 0 <= i < |log| && !log[i].mode.Abandoned? && log[i].bar.time == R.LastSent(log).value
    decreases |log|
  {
    if log != [] {
      var n := |log| - 1;
      if log[n].mode.Abandoned? {
        LastSentIsSome(log[..n]);
        if R.LastSent(log).Some? {
          var i :| 0 <= i < n && !log[..n][i].mode.Abandoned? && log[..n][i].bar.time == R.LastSent(log[..n]).value;
          assert log[i] == log[..n][i];
        }
      }
    }
  }

  lemma OffersOfFront(log: seq<R.Fed>)
    requires log != []
    ensures OffersOf(log) == OffersOf(log[..|log| - 1]) + [OfferOf(log[|log| - 1])]
    ensures Bars(log) == Bars(log[..|log| - 1]) + [log[|log| - 1].bar]
  {
  }

  lemma FeedOne(offers: seq<I.Offer>, o: I.Offer)
    ensures I.Gate(None, offers + [o]) == I.GateAfter(I.Gate(None, offers), o)
    ensures I.Newer(I.Gate(None, offers), o.bar) ==> I.Fed(None, offers + [o]) == I.Fed(None, offers) + [o.bar]
    ensures I.LeakCount(None, offers + [o]) == I.LeakCount(None, offers) + if I.Leaks(None, offers, o) then 1 else 0
  {
    assert (offers + [o])[..|offers|] == offers;
  }

  /** Every bar in the history passed the gate, live ones too, and the gate stands at `dispatched`. */
  lemma {:induction false} HistoryPassesGate(log: seq<R.Fed>)
    requires Ordered(log)
    ensures I.Fed(None, OffersOf(log)) == Bars(log) && I.Gate(None, OffersOf(log)) == R.LastSent(log)
    decreases |log|
  {
    if log != [] {
      var n := |log| - 1;
      HistoryPassesGate(log[..n]);
      NewerThanLastSent(log);
      OffersOfFront(log);
      FeedOne(OffersOf(log[..n]), OfferOf(log[n]));
      hide OffersOf, Bars, Ordered, I.Fed, I.Gate;
    }
  }

  /** Live or not, each bar was newer than the last dispatched one when it was offered. */
  lemma OfferedBarsAreNewer(log: seq<R.Fed>, i: nat)
    requires Ordered(log) && i < |log|
    ensures I.Newer(I.Gate(None, OffersOf(log)[..i]), log[i].bar)
  {
    var upTo := log[..i + 1];
    assert upTo[..i] == log[..i] && OffersOf(log)[..i] == OffersOf(log[..i]);
    HistoryPassesGate(log[..i]);
    NewerThanLastSent(upTo);
  }

  // ----- When the feed rises -----

  lemma {:induction false} NewerThanAll(offers: seq<I.Offer>, bar: Bar)
    ensures I.Newer(I.Latest(None, offers), bar) <==> forall i :: 0 <= i < |offers| ==> offers[i].bar.time < bar.time
    decreases |offers|
  {
    if offers != [] {
      var n := |offers| - 1;
      NewerThanAll(offers[..n], bar);
      NewerThanAll(offers[..n], offers[n].bar);
      assert forall i :: 0 <= i < n ==> offers[..n][i] == offers[i];
    }
  }

  /** The feed rises exactly when no engine is fed a bar that is not newer than all before. */
  lemma {:induction false} RisingMeansNoRepeat(log: seq<R.Fed>)
    requires Ordered(log)
    ensures Rising(log) <==> I.LeakCount(None, OffersOf(log)) == 0
    decreases |log|
  {
    if log != [] {
      var n := |log| - 1;
      var front, last := log[..n], log[n];
      RisingMeansNoRepeat(front);
      HistoryPassesGate(front);
      NewerThanLastSent(log);
      OffersOfFront(log);
      assert log == front + [last] && OfferOf(last).bar == last.bar;
      hide OffersOf, OfferOf, Ordered, Rising, R.LastSent, I.Newer, I.Gate, I.LeakCount, I.Latest;
      FeedOne(OffersOf(front), OfferOf(last));
      NewerThanFront(front, last);
    }
  }

  lemma NewerThanFront(log: seq<R.Fed>, last: R.Fed)
    ensures Rising(log + [last]) <==> Rising(log) && I.Newer(I.Latest(None, OffersOf(log)), last.bar)
  {
    RisingSnoc(log, last);
    NewerThanAll(OffersOf(log), last.bar);
    assert forall i :: 0 <= i < |log| ==> OffersOf(log)[i].bar == log[i].bar;
    hide Rising, I.Latest, OffersOf;
  }

  lemma RisingSnoc(log: seq<R.Fed>, last: R.Fed)
    ensures Rising(log + [last]) <==> Rising(log) && forall i :: 0 <= i < |log| ==> log[i].bar.time < last.bar.time
  {
    var all := log + [last];
    if Rising(all) {
      forall i, j | 0 <= i < j < |log| ensures log[i].bar.time < log[j].bar.time {
        assert all[i].bar.time < all[j].bar.time;
      }
      forall i | 0 <= i < |log| ensures log[i].bar.time < last.bar.time {
        assert all[i].bar.time < all[|log|].bar.time;
      }
    }
  }

  /** A safe lane was fed in strictly rising order if and only if nothing abandoned was fed again. */
  lemma FeedRisesIff(l: R.Lane)
    requires R.Safe(l)
    ensures Rising(l.log) <==> NothingRefed(l.log)
    ensures Rising(l.log) <==> I.LeakCount(None, OffersOf(l.log)) == 0
    ensures I.Gate(None, OffersOf(l.log)) == l.dispatched
  {
    RisingMeansNoRepeat(l.log);
    HistoryPassesGate(l.log);
  }

  // ----- Whole runs of polls -----

  /** The history as events of the indicator model. */
  function EventsOf(log: seq<R.Fed>): seq<I.Event> {
    seq(|log|, i requires 0 <= i < |log| =>
      if log[i].mode.StateOnly? then I.ReplayBars([log[i].bar]) else I.LiveBar(log[i].bar, log[i].mode.Live?))
  }

  lemma {:induction false} EventsOffer(log: seq<R.Fed>)
    ensures I.Offers(EventsOf(log)) == OffersOf(log)
    decreases |log|
  {
    if log != [] {
      var n := |log| - 1;
      EventsOffer(log[..n]);
      assert EventsOf(log)[..n] == EventsOf(log[..n]);
      assert OffersOf(log) == OffersOf(log[..n]) + [OfferOf(log[n])];
      assert I.ReplayOffers([log[n].bar]) == [I.Replay(log[n].bar)];
    }
  }

  /**
   * After any run of polls from a fresh lane, with any connector, journal and cycles: the engines
   * have folded exactly the history, the gate stands at the last dispatched bar, and the fold is
   * one over the distinct bars whenever nothing abandoned was fed again.
   */
  lemma PolledEnginesFoldHistory<S, G>(
    indicators: seq<I.Indicator<S, G>>, steps: seq<R.Step>, limit: nat, maxPages: nat)
    ensures var end := R.After(R.FRESH, steps, limit, maxPages);
            var lane := I.Lane(indicators, None);
            && I.Run(lane, EventsOf(end.log)) == I.Lane(I.Fold(indicators, Bars(end.log)), end.dispatched)
            && (NothingRefed(end.log) ==>
                  I.Fold(indicators, Bars(end.log)) == I.Fold(indicators, I.Distinct(None, OffersOf(end.log))))
  {
    R.EveryRunIsSafe(R.FRESH, steps, limit, maxPages);
    var end := R.After(R.FRESH, steps, limit, maxPages);
    EventsOffer(end.log);
    HistoryPassesGate(end.log);
    FeedRisesIff(end);
    I.RunIsFold(I.Lane(indicators, None), EventsOf(end.log));
    I.SurplusIsRepeats(None, OffersOf(end.log));
  }

  /** The condition is exact: an engine that remembers every bar tells a refed history from a rising one. */
  lemma RisingIffDistinctFold(steps: seq<R.Step>, limit: nat, maxPages: nat)
    ensures var end := R.After(R.FRESH, steps, limit, maxPages);
            I.Run(I.Lane(I.Recorder([]), None), EventsOf(end.log)).indicators ==
            I.Fold(I.Recorder([]), I.Distinct(None, OffersOf(end.log)))
            <==> NothingRefed(end.log)
  {
    R.EveryRunIsSafe(R.FRESH, steps, limit, maxPages);
    var end := R.After(R.FRESH, steps, limit, maxPages);
    EventsOffer(end.log);
    FeedRisesIff(end);
    I.FoldIsExactIffNothingRepeats(None, EventsOf(end.log));
  }

  /** As long as no live cycle aborts after evaluating its bar, the feed rises strictly. */
  lemma RunsWithoutAbortRise(steps: seq<R.Step>, limit: nat, maxPages: nat)
    requires forall i :: 0 <= i < |steps| && steps[i].Polled? ==> steps[i].env.cycle != R.Aborted(R.Evaluation)
    ensures Rising(R.After(R.FRESH, steps, limit, maxPages).log)
  {
    R.EveryRunIsSafe(R.FRESH, steps, limit, maxPages);
    R.NothingAbandonedWithoutAbort(R.FRESH, steps, limit, maxPages);
    FeedRisesIff(R.After(R.FRESH, steps, limit, maxPages));
  }

  /** Two polls that offer one bar, the first cycle aborting after its evaluation, feed the bar twice. */
  lemma RetriedBarIsFedTwice(bar: Bar, limit: nat, maxPages: nat)
    ensures var first := R.Env(false, R.Got(bar), R.Unavailable, _ => R.Unavailable, _ => true, R.Aborted(R.Evaluation));
            var end := R.After(R.FRESH, [R.Polled(first), R.Polled(first.(cycle := R.Processed))], limit, maxPages);
            && end.log == [R.Fed(bar, R.Abandoned), R.Fed(bar, R.Live)]
            && !Rising(end.log) && end.dispatched == Some(bar.time)
  {
    var first := R.Env(false, R.Got(bar), R.Unavailable, _ => R.Unavailable, _ => true, R.Aborted(R.Evaluation));
    var steps := [R.Polled(first), R.Polled(first.(cycle := R.Processed))];
    var l1 := R.Poll(R.FRESH, first, limit, maxPages).0;
    assert l1 == R.FRESH.(log := [R.Fed(bar, R.Abandoned)]);
    var l2 := R.Poll(l1, first.(cycle := R.Processed), limit, maxPages).0;
    assert steps[1..] == [R.Polled(first.(cycle := R.Processed))] && steps[1..][1..] == [];
    assert R.After(R.FRESH, steps, limit, maxPages) == R.After(l1, steps[1..], limit, maxPages) == l2;
    assert l2.log == [R.Fed(bar, R.Abandoned), R.Fed(bar, R.Live)];
    assert l2.log[0].bar.time == l2.log[1].bar.time;
  }

  /** The two models of a gated replay are one: same bars let through, same gate afterwards. */
  lemma {:induction false} GatedReplaysAgree(l: R.Lane, bars: seq<Bar>)
    ensures var (fed, gate) := I.Replayed(l.dispatched, bars);
            var l' := R.ReplayedAll(l, bars);
            && l'.dispatched == gate
            && l'.log == l.log + seq(|fed|, i requires 0 <= i < |fed| => R.Fed(fed[i], R.StateOnly))
    decreases |bars|
  {
    if bars != [] {
      var n := |bars| - 1;
      GatedReplaysAgree(l, bars[..n]);
      assert I.Newer(R.ReplayedAll(l, bars[..n]).dispatched, bars[n]) <==> R.Behind(R.ReplayedAll(l, bars[..n]), bars[n]);
    }
  }
}
