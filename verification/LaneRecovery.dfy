/**
 * The confirmed-bar polling and recovery protocol of a lane.
 *
 * The connector and the journal are adversaries: every answer a poll receives is
 * universally quantified through `Env`.  Each engine call mutates the lane first
 * and then writes to the journal, so a failing journal leaves the mutation behind.
 */
module LaneRecovery {
  import opened Options
  import opened Market

  datatype RecoveryState = Healthy | CatchingUp | OutOfSync

  /** A bar is fed by a live cycle, by a live cycle that then aborted, or without trading. */
  datatype Mode = Live | Abandoned | StateOnly

  datatype Fed = Fed(bar: Bar, mode: Mode)

  /** A lane as polling sees it; `log` is the history of bars fed to its indicators. */
  datatype Lane = Lane(
    state: RecoveryState,
    target: Option<int>,
    dispatched: Option<int>,
    stalled: nat,
    log: seq<Fed>)

  const FRESH := Lane(Healthy, None, None, 0, [])

  datatype Page = Page(bars: seq<Bar>, exhausted: bool)

  datatype Reply<+T> = Got(value: T) | Unavailable

  /** How far an aborted cycle got: nowhere, through the warm-up seeding, or through the evaluation. */
  datatype Progress = Nowhere | Seeding | Evaluation

  /** What a live processing cycle does with a bar it is handed. */
  datatype Cycle = Aborted(after: Progress) | Duplicate | Warming | Processed

  datatype Env = Env(
    killSwitch: bool,
    latestBar: Reply<Bar>,
    latestConfirmed: Reply<Option<int>>,
    pages: nat -> Reply<Page>,
    journal: nat -> bool,
    cycle: Cycle)

  datatype Outcome = Tradable(bar: Bar) | Passive

  datatype PollError = KillSwitch | InvariantViolation | ConnectorFailed | JournalFailed | CycleFailed

  datatype Result = Done(recorded: seq<Bar>, outcomes: seq<Outcome>) | Error(error: PollError)

  const U32_MAX: nat := 0xFFFF_FFFF

  // ---------------------------------------------------------- transitions

  function Started(l: Lane, target: int): Lane {
    l.(state := CatchingUp, target := Some(target), stalled := 0)
  }

  function Completed(l: Lane): Lane {
    l.(state := Healthy, target := None, stalled := 0)
  }

  function Desynced(l: Lane): Lane {
    l.(state := OutOfSync, target := if l.target.Some? then l.target else l.dispatched)
  }

  function Stalled(l: Lane): Lane {
    l.(stalled := if l.stalled < U32_MAX then l.stalled + 1 else l.stalled)
  }

  predicate Behind(l: Lane, bar: Bar) {
    l.dispatched.Some? ==> l.dispatched.value < bar.time
  }

  function Dispatched(l: Lane, bar: Bar, mode: Mode): Lane {
    l.(dispatched := Some(bar.time), log := l.log + [Fed(bar, mode)])
  }

  /** The indicators took the bar, but the last-dispatched time did not move. */
  function Evaluated(l: Lane, bar: Bar): Lane {
    l.(log := l.log + [Fed(bar, Abandoned)])
  }

  /** Replays a bar into the indicators without trading; an old bar is ignored. */
  function Replayed(l: Lane, bar: Bar): Lane {
    if Behind(l, bar) then Dispatched(l, bar, StateOnly) else l
  }

  function ReplayedAll(l: Lane, bars: seq<Bar>): Lane
    decreases |bars|
  {
    if bars == [] then l else Replayed(ReplayedAll(l, bars[..|bars| - 1]), bars[|bars| - 1])
  }

  function PageApplied(l: Lane, bars: seq<Bar>): Lane {
    var l' := ReplayedAll(l, bars);
    if bars == [] then l' else l'.(stalled := 0)
  }

  /** Hands a bar to the live cycle: new lane, whether it was applied, and its outcome. */
  function LiveReplay(l: Lane, bar: Bar, cycle: Cycle): (Lane, Result) {
    if !Behind(l, bar) then (l, Done([], []))
    else
      match cycle
      case Aborted(Nowhere) => (l, Error(CycleFailed))
      case Aborted(Seeding) => (Replayed(l, bar), Error(CycleFailed))
      case Aborted(Evaluation) => (if l.state.Healthy? then Evaluated(l, bar) else l, Error(CycleFailed))
      case Duplicate => (l, Done([bar], [Passive]))
      case Warming => (Replayed(l, bar), Done([bar], [Passive]))
      case Processed =>
        if l.state.Healthy? then (Dispatched(l, bar, Live), Done([bar], [Tradable(bar)]))
        else (l, Done([bar], [Passive]))
  }

  // ------------------------------------------------------- page validation

  /** Bars strictly increase from `after` and none is later than `end`. */
  predicate InWindow(after: Option<int>, end: int, bars: seq<Bar>) {
    && (forall i :: 0 <= i < |bars| ==> bars[i].time <= end)
    && (bars != [] && after.Some? ==> after.value < bars[0].time)
    && (forall i, j :: 0 <= i < j < |bars| ==> bars[i].time < bars[j].time)
  }

  datatype PageFault = NotIncreasing(at: int) | PastTarget(at: int)

  /** The fault names the first bar that breaks the window, and how. */
  predicate Faults(after: Option<int>, end: int, bars: seq<Bar>, i: int, fault: PageFault) {
    && 0 <= i < |bars| && fault.at == bars[i].time && InWindow(after, end, bars[..i])
    && var previous := if i == 0 then after else Some(bars[i - 1].time);
       if fault.NotIncreasing? then previous.Some? && bars[i].time <= previous.value else bars[i].time > end
  }

  method ValidateRecoveryBars(after: Option<int>, end: int, bars: seq<Bar>)
    returns (fault: Option<PageFault>)
    ensures fault.None? <==> InWindow(after, end, bars)
    ensures fault.Some? ==> exists i :: Faults(after, end, bars, i, fault.value)
  {
    var previous := after;
    for i := 0 to |bars|
      invariant previous == if i == 0 then after else Some(bars[i - 1].time)
      invariant InWindow(after, end, bars[..i])
    {
      if previous.Some? && bars[i].time <= previous.value {
        assert i > 0 ==> bars[i - 1].time >= bars[i].time;
        assert Faults(after, end, bars, i, NotIncreasing(bars[i].time));
        return Some(NotIncreasing(bars[i].time));
      }
      if bars[i].time > end {
        assert Faults(after, end, bars, i, PastTarget(bars[i].time));
        return Some(PastTarget(bars[i].time));
      }
      assert forall j :: 0 <= j < i ==> bars[..i][j] == bars[j];
      previous := Some(bars[i].time);
    }
    assert bars[..|bars|] == bars;
    fault := None;
  }

  // ------------------------------------------------------------- one poll

  /** What a call returns when its journal write succeeded or not. */
  function Journaled(ok: bool, done: Result): Result {
    if ok then done else Error(JournalFailed)
  }

  /** How the handling of one page ends: the poll stops, or it asks for another page. */
  datatype PageOutcome = Stop(lane: Lane, result: Result) | Continue(lane: Lane, bars: seq<Bar>)

  function OnePage(l: Lane, env: Env, limit: nat, target: int, w: nat, reply: Reply<Page>,
                   recorded: seq<Bar>): PageOutcome {
    if l.dispatched.None? then
      Stop(Desynced(l), Journaled(env.journal(w), Done(recorded, [])))
    else if reply.Unavailable? then
      Stop(Desynced(l), Journaled(env.journal(w), Error(ConnectorFailed)))
    else
      var page := reply.value;
      if !InWindow(l.dispatched, target, page.bars) then
        Stop(Desynced(l), Journaled(env.journal(w), Done(recorded, [])))
      else if page.bars == [] then
        var l1 := Stalled(l);
        if !env.journal(w) then Stop(l1, Error(JournalFailed))
        else if page.exhausted || l1.stalled >= limit then
          Stop(Desynced(l1), Journaled(env.journal(w + 1), Done(recorded, [])))
        else Stop(l1, Done(recorded, []))
      else
        var l1 := PageApplied(l, page.bars);
        var all := recorded + page.bars;
        if !env.journal(w) then Stop(l1, Error(JournalFailed))
        else if l1.dispatched.Some? && l1.dispatched.value >= target then
          Stop(Completed(l1), Journaled(env.journal(w + 1), Done(all, [])))
        else if page.exhausted then
          Stop(Desynced(l1), Journaled(env.journal(w + 1), Done(all, [])))
        else Continue(l1, all)
  }

  function RunPages(l: Lane, env: Env, limit: nat, target: int, budget: nat, k: nat, w: nat,
                    first: Option<Page>, recorded: seq<Bar>): (Lane, Result)
    decreases budget
  {
    if budget == 0 then (l, Done(recorded, []))
    else
      var reply := if first.Some? then Got(first.value) else env.pages(k);
      match OnePage(l, env, limit, target, w, reply, recorded)
      case Stop(l', r) => (l', r)
      case Continue(l', all) =>
        RunPages(l', env, limit, target, budget - 1, if first.Some? then k else k + 1, w + 1, None, all)
  }

  function Budget(maxPages: nat): nat { if maxPages == 0 then 1 else maxPages }

  predicate OneBehind(page: Page, target: int) {
    page.exhausted && |page.bars| == 1 && page.bars[0].time == target
  }

  function Poll(l: Lane, env: Env, limit: nat, maxPages: nat): (Lane, Result) {
    if env.killSwitch then (l, Error(KillSwitch))
    else if l.state.CatchingUp? then
      if l.target.None? then (l, Error(InvariantViolation))
      else RunPages(l, env, limit, l.target.value, Budget(maxPages), 0, 0, None, [])
    else if l.dispatched.None? then
      if env.latestBar.Unavailable? then (l, Error(ConnectorFailed))
      else LiveReplay(l, env.latestBar.value, env.cycle)
    else if env.latestConfirmed.Unavailable? then (l, Error(ConnectorFailed))
    else if env.latestConfirmed.value.None? then (l, Done([], []))
    else
      var target := env.latestConfirmed.value.value;
      if target <= l.dispatched.value then
        if env.latestBar.Unavailable? then (l, Error(ConnectorFailed))
        else
          var bar := env.latestBar.value;
          var done := Done(if bar.time == l.dispatched.value then [bar] else [], []);
          if l.state.Healthy? then (l, done)
          else (Completed(l), Journaled(env.journal(0), done))
      else if env.pages(0).Unavailable? then
        (Desynced(l), Journaled(env.journal(0), Error(ConnectorFailed)))
      else
        var page := env.pages(0).value;
        if !InWindow(l.dispatched, target, page.bars) then
          (Desynced(l), Journaled(env.journal(0), Done([], [])))
        else if l.state.Healthy? && OneBehind(page, target) then
          LiveReplay(l, page.bars[0], env.cycle)
        else if !env.journal(0) then (Started(l, target), Error(JournalFailed))
        else RunPages(Started(l, target), env, limit, target, Budget(maxPages), 1, 1, Some(page), [])
  }

  // --------------------------------------------------------- the live object

  class LaneRuntime {
    var state: RecoveryState
    var target: Option<int>
    var dispatched: Option<int>
    var stalled: nat
    ghost var log: seq<Fed>

    ghost function View(): Lane
      reads this
    {
      Lane(state, target, dispatched, stalled, log)
    }

    constructor ()
      ensures View() == FRESH
    {
      state, target, dispatched, stalled, log := Healthy, None, None, 0, [];
    }

    method StartRecovery(end: int)
      modifies this
      ensures View() == Started(old(View()), end)
    {
      state, target, stalled := CatchingUp, Some(end), 0;
    }

    method CompleteRecovery()
      modifies this
      ensures View() == Completed(old(View()))
    {
      state, target, stalled := Healthy, None, 0;
    }

    method MarkOutOfSync()
      modifies this
      ensures View() == Desynced(old(View()))
    {
      state := OutOfSync;
      target := if target.Some? then target else dispatched;
    }

    method RecordNoProgress(exhausted: bool, limit: nat) returns (shouldFail: bool)
      modifies this
      ensures View() == Stalled(old(View()))
      ensures shouldFail == (exhausted || stalled >= limit)
    {
      stalled := if stalled < U32_MAX then stalled + 1 else stalled;
      shouldFail := exhausted || stalled >= limit;
    }

    method ReplayStateOnly(bar: Bar) returns (applied: bool)
      modifies this
      ensures applied == Behind(old(View()), bar)
      ensures View() == Replayed(old(View()), bar)
    {
      if dispatched.Some? && dispatched.value >= bar.time {
        return false;
      }
      dispatched := Some(bar.time);
      log := log + [Fed(bar, StateOnly)];
      applied := true;
    }

    method ApplyRecoveryPage(bars: seq<Bar>)
      modifies this
      ensures View() == PageApplied(old(View()), bars)
    {
      for i := 0 to |bars|
        invariant View() == ReplayedAll(old(View()), bars[..i])
      {
        var _ := ReplayStateOnly(bars[i]);
        assert bars[..i + 1][..i] == bars[..i];
      }
      assert bars[..|bars|] == bars;
      if bars != [] {
        stalled := 0;
      }
    }

    method ReplayLive(bar: Bar, cycle: Cycle) returns (r: Result)
      modifies this
      ensures (View(), r) == LiveReplay(old(View()), bar, cycle)
    {
      if dispatched.Some? && dispatched.value >= bar.time {
        return Done([], []);
      }
      match cycle {
        case Aborted(after) =>
          if after.Seeding? {
            var _ := ReplayStateOnly(bar);
          } else if after.Evaluation? && state.Healthy? {
            log := log + [Fed(bar, Abandoned)];
          }
          r := Error(CycleFailed);
        case Duplicate =>
          r := Done([bar], [Passive]);
        case Warming =>
          var _ := ReplayStateOnly(bar);
          r := Done([bar], [Passive]);
        case Processed =>
          if state.Healthy? {
            dispatched := Some(bar.time);
            log := log + [Fed(bar, Live)];
            r := Done([bar], [Tradable(bar)]);
          } else {
            r := Done([bar], [Passive]);
          }
      }
    }

    method RunRecoveryPages(env: Env, limit: nat, end: int, maxPages: nat, firstPage: Option<Page>,
                            k0: nat, w0: nat)
      returns (r: Result)
      modifies this
      ensures (View(), r) ==
              RunPages(old(View()), env, limit, end, Budget(maxPages), k0, w0, firstPage, [])
    {
      var recorded: seq<Bar> := [];
      var first, k, w := firstPage, k0, w0;
      for i := 0 to Budget(maxPages)
        invariant RunPages(View(), env, limit, end, Budget(maxPages) - i, k, w, first, recorded) ==
                  RunPages(old(View()), env, limit, end, Budget(maxPages), k0, w0, firstPage, [])
      {
        if dispatched.None? {
          MarkOutOfSync();
          return Journaled(env.journal(w), Done(recorded, []));
        }
        var reply := if first.Some? then Got(first.value) else env.pages(k);
        if reply.Unavailable? {
          MarkOutOfSync();
          return Journaled(env.journal(w), Error(ConnectorFailed));
        }
        var page := reply.value;
        var fault := ValidateRecoveryBars(dispatched, end, page.bars);
        if fault.Some? {
          MarkOutOfSync();
          return Journaled(env.journal(w), Done(recorded, []));
        }
        if page.bars == [] {
          var shouldFail := RecordNoProgress(page.exhausted, limit);
          if !env.journal(w) {
            return Error(JournalFailed);
          }
          if shouldFail {
            MarkOutOfSync();
            return Journaled(env.journal(w + 1), Done(recorded, []));
          }
          return Done(recorded, []);
        }
        ApplyRecoveryPage(page.bars);
        recorded := recorded + page.bars;
        if !env.journal(w) {
          return Error(JournalFailed);
        }
        if dispatched.Some? && dispatched.value >= end {
          CompleteRecovery();
          return Journaled(env.journal(w + 1), Done(recorded, []));
        }
        if page.exhausted {
          MarkOutOfSync();
          return Journaled(env.journal(w + 1), Done(recorded, []));
        }
        k := if first.Some? then k else k + 1;
        w := w + 1;
        first := None;
      }
      r := Done(recorded, []);
    }

    method AdvancePollingOnce(env: Env, limit: nat, maxPages: nat) returns (r: Result)
      modifies this
      ensures (View(), r) == Poll(old(View()), env, limit, maxPages)
    {
      if env.killSwitch {
        return Error(KillSwitch);
      }
      if state.CatchingUp? {
        if target.None? {
          return Error(InvariantViolation);
        }
        r := RunRecoveryPages(env, limit, target.value, maxPages, None, 0, 0);
        return;
      }
      if dispatched.None? {
        if env.latestBar.Unavailable? {
          return Error(ConnectorFailed);
        }
        r := ReplayLive(env.latestBar.value, env.cycle);
        return;
      }
      if env.latestConfirmed.Unavailable? {
        return Error(ConnectorFailed);
      }
      if env.latestConfirmed.value.None? {
        return Done([], []);
      }
      var end := env.latestConfirmed.value.value;
      if end <= dispatched.value {
        if env.latestBar.Unavailable? {
          return Error(ConnectorFailed);
        }
        var bar := env.latestBar.value;
        var done := Done(if bar.time == dispatched.value then [bar] else [], []);
        if state.Healthy? {
          return done;
        }
        CompleteRecovery();
        return Journaled(env.journal(0), done);
      }
      if env.pages(0).Unavailable? {
        MarkOutOfSync();
        return Journaled(env.journal(0), Error(ConnectorFailed));
      }
      var page := env.pages(0).value;
      var fault := ValidateRecoveryBars(dispatched, end, page.bars);
      if fault.Some? {
        MarkOutOfSync();
        return Journaled(env.journal(0), Done([], []));
      }
      if state.Healthy? && OneBehind(page, end) {
        r := ReplayLive(page.bars[0], env.cycle);
        return;
      }
      StartRecovery(end);
      if !env.journal(0) {
        return Error(JournalFailed);
      }
      r := RunRecoveryPages(env, limit, end, maxPages, Some(page), 1, 1);
    }
  }

  // ------------------------------------------------------ safety of every run

  /** The time of the last bar that was fed and not abandoned. */
  function LastSent(log: seq<Fed>): Option<int> {
    if log == [] then None
    else if log[|log| - 1].mode.Abandoned? then LastSent(log[..|log| - 1])
    else Some(log[|log| - 1].bar.time)
  }

  /** Every bar fed is newer than every bar dispatched before it, and `dispatched` is the
      last of those; a lane that is not healthy knows where it stands and where it is heading. */
  predicate Safe(l: Lane) {
    && (forall i, j :: 0 <= i < j < |l.log| && !l.log[i].mode.Abandoned? ==> l.log[i].bar.time < l.log[j].bar.time)
    && l.dispatched == LastSent(l.log)
    && (l.state.Healthy? <==> l.target.None?)
    && (!l.state.Healthy? ==> l.dispatched.Some?)
  }

  lemma {:induction false} SentIsAtMostLast(log: seq<Fed>, i: nat)
    requires forall i, j :: 0 <= i < j < |log| && !log[i].mode.Abandoned? ==> log[i].bar.time < log[j].bar.time
    requires i < |log| && !log[i].mode.Abandoned?
    ensures LastSent(log).Some? && log[i].bar.time <= LastSent(log).value
    decreases |log|
  {
    var n := |log| - 1;
    if log[n].mode.Abandoned? {
      SentIsAtMostLast(log[..n], i);
    }
  }

  /** The log grew only by bars replayed state-only, none of them later than `end`. */
  predicate FedUpTo(before: seq<Fed>, after: seq<Fed>, end: int) {
    && before <= after
    && forall i :: |before| <= i < |after| ==> after[i].mode.StateOnly? && after[i].bar.time <= end
  }

  lemma ReplayIsSafe(l: Lane, bar: Bar)
    requires Safe(l)
    ensures Safe(Replayed(l, bar))
    ensures Behind(l, bar) ==> Safe(Dispatched(l, bar, Live)) && Safe(Evaluated(l, bar))
  {
    forall i | 0 <= i < |l.log| && !l.log[i].mode.Abandoned?
      ensures Behind(l, bar) ==> l.log[i].bar.time < bar.time
    {
      SentIsAtMostLast(l.log, i);
    }
    assert (l.log + [Fed(bar, Abandoned)])[..|l.log|] == l.log;
  }

  /** A validated page is applied in full, and leaves the lane at its last bar. */
  lemma {:induction false} PageIsSafe(l: Lane, end: int, bars: seq<Bar>)
    requires Safe(l) && InWindow(l.dispatched, end, bars)
    ensures var l' := ReplayedAll(l, bars);
            && Safe(l') && FedUpTo(l.log, l'.log, end)
            && l' == l.(dispatched := l'.dispatched, log := l'.log)
            && |l'.log| == |l.log| + |bars|
            && (bars != [] ==> l'.dispatched == Some(bars[|bars| - 1].time))
            && (bars == [] ==> l' == l)
    decreases |bars|
  {
    if bars != [] {
      var n := |bars| - 1;
      var front, last := bars[..n], bars[n];
      PageIsSafe(l, end, front);
      var l1 := ReplayedAll(l, front);
      ReplayIsSafe(l1, last);
      assert Behind(l1, last) by {
        assert n > 0 ==> front[n - 1].time < last.time;
      }
      hide Safe, LastSent;
    }
  }

  /** What paging towards `target` has guaranteed when it stops at `l'`. */
  predicate PagedSafely(l: Lane, l': Lane, target: int) {
    && Safe(l') && FedUpTo(l.log, l'.log, target)
    && (l'.state.Healthy? ==> l'.dispatched.Some? && l'.dispatched.value >= target)
  }

  /** The ways a page can leave the loop all stop safely. */
  lemma StopsAreSafe(l: Lane, l1: Lane, target: int)
    requires Safe(l1) && l1.state.CatchingUp? && FedUpTo(l.log, l1.log, target)
    ensures PagedSafely(l, l1, target)
    ensures PagedSafely(l, Stalled(l1), target)
    ensures PagedSafely(l, Desynced(l1), target)
    ensures PagedSafely(l, Desynced(Stalled(l1)), target)
    ensures l1.dispatched.value >= target ==> PagedSafely(l, Completed(l1), target)
  {
  }

  lemma AppliedPageIsSafe(l: Lane, end: int, bars: seq<Bar>)
    requires Safe(l) && bars != [] && InWindow(l.dispatched, end, bars)
    ensures var l1 := PageApplied(l, bars);
            && Safe(l1) && FedUpTo(l.log, l1.log, end)
            && l1.state == l.state && l1.target == l.target
            && l1.dispatched == Some(bars[|bars| - 1].time)
            && (l.dispatched.Some? ==> l.dispatched.value < l1.dispatched.value <= end)
  {
    PageIsSafe(l, end, bars);
    assert bars[0].time <= bars[|bars| - 1].time;
  }

  /** One page keeps the lane safe and moves it forward, if at all. */
  lemma OnePageIsSafe(l: Lane, env: Env, limit: nat, target: int, w: nat, reply: Reply<Page>, recorded: seq<Bar>)
    requires Safe(l) && l.state.CatchingUp?
    ensures var o := OnePage(l, env, limit, target, w, reply, recorded);
            && PagedSafely(l, o.lane, target)
            && (o.lane.state.CatchingUp? ==> o.lane.target == l.target && l.dispatched.value <= o.lane.dispatched.value)
            && (o.Continue? ==> o.lane.state.CatchingUp?)
  {
    var o := OnePage(l, env, limit, target, w, reply, recorded);
    if reply.Got? && InWindow(l.dispatched, target, reply.value.bars) && reply.value.bars != [] {
      var l1 := PageApplied(l, reply.value.bars);
      assert Safe(l1) && l1.state.CatchingUp? && FedUpTo(l.log, l1.log, target) && l1.target == l.target &&
             l1.dispatched.Some? && l.dispatched.value < l1.dispatched.value by {
        AppliedPageIsSafe(l, target, reply.value.bars);
      }
      assert o.lane == l1 || (o.lane == Completed(l1) && l1.dispatched.value >= target) || o.lane == Desynced(l1);
      StopsAreSafe(l, l1, target);
    } else {
      assert o.lane == Desynced(l) || o.lane == Stalled(l) || o.lane == Desynced(Stalled(l));
      StopsAreSafe(l, l, target);
    }
  }

  predicate Harmless(r: Result) {
    (r.Done? ==> r.outcomes == []) && r != Error(InvariantViolation)
  }

  lemma OnePageIsHarmless(l: Lane, env: Env, limit: nat, target: int, w: nat, reply: Reply<Page>, recorded: seq<Bar>)
    ensures var o := OnePage(l, env, limit, target, w, reply, recorded);
            o.Stop? ==> Harmless(o.result)
  {
  }

  /** Paging towards `target` keeps the lane safe, feeds it only bars up to the target
      without trading, and declares it healthy only at the target. */
  lemma {:induction false} PagesAreSafe(l: Lane, env: Env, limit: nat, target: int, budget: nat, k: nat, w: nat,
                                        first: Option<Page>, recorded: seq<Bar>)
    requires Safe(l) && l.state.CatchingUp?
    ensures var (l', r) := RunPages(l, env, limit, target, budget, k, w, first, recorded);
            && PagedSafely(l, l', target)
            && Harmless(r)
            && (l'.state.CatchingUp? ==> l'.target == l.target && l.dispatched.value <= l'.dispatched.value)
    decreases budget
  {
    if budget != 0 {
      var reply := if first.Some? then Got(first.value) else env.pages(k);
      OnePageIsSafe(l, env, limit, target, w, reply, recorded);
      OnePageIsHarmless(l, env, limit, target, w, reply, recorded);
      var o := OnePage(l, env, limit, target, w, reply, recorded);
      if o.Continue? {
        PagesAreSafe(o.lane, env, limit, target, budget - 1, if first.Some? then k else k + 1, w + 1, None, o.bars);
      }
    }
  }

  /** Where a poll is heading: the recovery target, or else the newest confirmed bar. */
  function Goal(l: Lane, env: Env): Option<int> {
    if l.state.CatchingUp? then l.target
    else if env.latestConfirmed.Got? then env.latestConfirmed.value
    else None
  }

  /** The lane is on its first bar, or the connector offers exactly one newer bar. */
  predicate InStep(l: Lane, env: Env) {
    l.dispatched.None? ||
    (env.pages(0).Got? && Goal(l, env).Some? && OneBehind(env.pages(0).value, Goal(l, env).value))
  }

  /** Bars fed by a poll never pass its goal, and a live cycle gets a bar only of a healthy
      lane that is in step; every other bar is replayed without trading. */
  predicate FedTowardsGoal(l: Lane, l': Lane, env: Env) {
    && l.log <= l'.log
    && forall i :: |l.log| <= i < |l'.log| ==>
         && (l.dispatched.Some? ==> Goal(l, env).Some? && l'.log[i].bar.time <= Goal(l, env).value)
         && (!l'.log[i].mode.StateOnly? ==> l.state.Healthy? && InStep(l, env))
  }

  lemma LiveIsSafe(l: Lane, bar: Bar, cycle: Cycle)
    requires Safe(l)
    ensures var (l', r) := LiveReplay(l, bar, cycle);
            && Safe(l') && l'.state == l.state && l'.target == l.target
            && (r.Done? && r.outcomes != [] && r.outcomes[0].Tradable? ==> l.state.Healthy?)
            && r != Error(InvariantViolation)
            && (l'.log == l.log || l'.log == l.log + [Fed(bar, StateOnly)] ||
                ((l'.log == l.log + [Fed(bar, Live)] || l'.log == l.log + [Fed(bar, Abandoned)]) && l.state.Healthy?))
  {
    ReplayIsSafe(l, bar);
  }

  predicate Trades(r: Result) {
    r.Done? && exists i :: 0 <= i < |r.outcomes| && r.outcomes[i].Tradable?
  }

  /** What a poll that takes a lane from `l` to `l'` owes its callers. */
  predicate Guarantees(l: Lane, env: Env, l': Lane, r: Result) {
    && Safe(l')
    && r != Error(InvariantViolation)
    && (Trades(r) ==> l.state.Healthy? && InStep(l, env))
    && (!l.state.Healthy? && l'.state.Healthy? ==>
          Goal(l, env).Some? && l'.dispatched.Some? && l'.dispatched.value >= Goal(l, env).value)
    && FedTowardsGoal(l, l', env)
  }

  lemma PagedGuarantees(l: Lane, env: Env, l': Lane, r: Result, target: int)
    requires Goal(l, env) == Some(target) && PagedSafely(l, l', target) && Harmless(r)
    ensures Guarantees(l, env, l', r)
  {
  }

  lemma QuietGuarantees(l: Lane, env: Env, r: Result)
    requires Safe(l) && Harmless(r)
    ensures Guarantees(l, env, l, r)
    ensures l.dispatched.Some? ==> Guarantees(l, env, Desynced(l), r)
    ensures (l.dispatched.Some? && Goal(l, env).Some? && Goal(l, env).value <= l.dispatched.value) ==>
              Guarantees(l, env, Completed(l), r)
    ensures l.dispatched.Some? && Goal(l, env).Some? ==> Guarantees(l, env, Started(l, Goal(l, env).value), r)
  {
  }

  lemma LiveGuarantees(l: Lane, env: Env, bar: Bar)
    requires Safe(l) && InStep(l, env)
    requires l.dispatched.Some? ==> Goal(l, env) == Some(bar.time)
    ensures var (l', r) := LiveReplay(l, bar, env.cycle); Guarantees(l, env, l', r)
  {
    LiveIsSafe(l, bar, env.cycle);
  }

  /** What one poll of a safe lane guarantees, whatever connector and journal answer. */
  lemma PollIsSafe(l: Lane, env: Env, limit: nat, maxPages: nat)
    requires Safe(l)
    ensures var (l', r) := Poll(l, env, limit, maxPages); Guarantees(l, env, l', r)
  {
    var (l', r) := Poll(l, env, limit, maxPages);
    if env.killSwitch {
      QuietGuarantees(l, env, r);
    } else if l.state.CatchingUp? {
      PagesAreSafe(l, env, limit, l.target.value, Budget(maxPages), 0, 0, None, []);
      PagedGuarantees(l, env, l', r, l.target.value);
    } else if l.dispatched.None? {
      if env.latestBar.Got? {
        LiveGuarantees(l, env, env.latestBar.value);
      } else {
        QuietGuarantees(l, env, r);
      }
    } else if env.latestConfirmed.Got? && env.latestConfirmed.value.Some? {
      PollTowardsTarget(l, env, limit, maxPages);
    } else {
      QuietGuarantees(l, env, r);
    }
  }

  lemma PollTowardsTarget(l: Lane, env: Env, limit: nat, maxPages: nat)
    requires Safe(l) && !env.killSwitch && !l.state.CatchingUp? && l.dispatched.Some?
    requires env.latestConfirmed.Got? && env.latestConfirmed.value.Some?
    ensures var (l', r) := Poll(l, env, limit, maxPages); Guarantees(l, env, l', r)
  {
    var (l', r) := Poll(l, env, limit, maxPages);
    var target := env.latestConfirmed.value.value;
    if target > l.dispatched.value && env.pages(0).Got? && InWindow(l.dispatched, target, env.pages(0).value.bars) {
      var page := env.pages(0).value;
      if l.state.Healthy? && OneBehind(page, target) {
        LiveGuarantees(l, env, page.bars[0]);
      } else if env.journal(0) {
        PagesAreSafe(Started(l, target), env, limit, target, Budget(maxPages), 1, 1, Some(page), []);
        PagedGuarantees(l, env, l', r, target);
      } else {
        QuietGuarantees(l, env, r);
      }
    } else {
      QuietGuarantees(l, env, r);
    }
  }

  /** A run interleaves polls with warm-up seeding of confirmed bars. */
  datatype Step = Polled(env: Env) | Seeded(bar: Bar)

  function Taken(l: Lane, step: Step, limit: nat, maxPages: nat): Lane {
    match step
    case Polled(env) => Poll(l, env, limit, maxPages).0
    case Seeded(bar) => Replayed(l, bar)
  }

  function After(l: Lane, steps: seq<Step>, limit: nat, maxPages: nat): Lane
    decreases |steps|
  {
    if steps == [] then l else After(Taken(l, steps[0], limit, maxPages), steps[1..], limit, maxPages)
  }

  /** Every run keeps every lane safe: bars are dispatched in strictly increasing time order,
      whatever is fed is newer than all of them, and a catching-up lane always has a target
      and a last dispatched time. */
  lemma {:induction false} EveryRunIsSafe(l: Lane, steps: seq<Step>, limit: nat, maxPages: nat)
    requires Safe(l)
    ensures Safe(After(l, steps, limit, maxPages))
    decreases |steps|
  {
    if steps != [] {
      match steps[0] {
        case Polled(env) =>
          PollIsSafe(l, env, limit, maxPages);
          EveryRunIsSafe(Poll(l, env, limit, maxPages).0, steps[1..], limit, maxPages);
        case Seeded(bar) =>
          ReplayIsSafe(l, bar);
          EveryRunIsSafe(Replayed(l, bar), steps[1..], limit, maxPages);
      }
    }
  }

  /** `after` extends `before` by bars that were not abandoned. */
  predicate NoneAbandoned(before: seq<Fed>, after: seq<Fed>) {
    before <= after && forall i :: |before| <= i < |after| ==> !after[i].mode.Abandoned?
  }

  lemma PagesAbandonNothing(l: Lane, env: Env, limit: nat, target: int, budget: nat, k: nat, w: nat, first: Option<Page>)
    requires Safe(l) && l.state.CatchingUp?
    ensures NoneAbandoned(l.log, RunPages(l, env, limit, target, budget, k, w, first, []).0.log)
  {
    PagesAreSafe(l, env, limit, target, budget, k, w, first, []);
  }

  lemma LiveAbandonsOnlyOnAbort(l: Lane, bar: Bar, cycle: Cycle)
    requires cycle != Aborted(Evaluation)
    ensures NoneAbandoned(l.log, LiveReplay(l, bar, cycle).0.log)
  {
  }

  /** A bar is abandoned only by a cycle that aborts after its evaluation. */
  lemma PollAbandonsOnlyOnAbort(l: Lane, env: Env, limit: nat, maxPages: nat)
    requires Safe(l) && env.cycle != Aborted(Evaluation)
    ensures NoneAbandoned(l.log, Poll(l, env, limit, maxPages).0.log)
  {
    hide RunPages, LiveReplay, InWindow;
    if !env.killSwitch && l.state.CatchingUp? {
      PagesAbandonNothing(l, env, limit, l.target.value, Budget(maxPages), 0, 0, None);
    } else if l.dispatched.None? && env.latestBar.Got? {
      LiveAbandonsOnlyOnAbort(l, env.latestBar.value, env.cycle);
    } else if l.dispatched.Some? && env.latestConfirmed.Got? && env.latestConfirmed.value.Some? && env.pages(0).Got? {
      var target, page := env.latestConfirmed.value.value, env.pages(0).value;
      if page.bars != [] {
        LiveAbandonsOnlyOnAbort(l, page.bars[0], env.cycle);
      }
      PagesAbandonNothing(Started(l, target), env, limit, target, Budget(maxPages), 1, 1, Some(page));
    }
  }

  /** A run without such an abort abandons nothing. */
  lemma {:induction false} NothingAbandonedWithoutAbort(l: Lane, steps: seq<Step>, limit: nat, maxPages: nat)
    requires Safe(l)
    requires forall i :: 0 <= i < |steps| && steps[i].Polled? ==> steps[i].env.cycle != Aborted(Evaluation)
    ensures NoneAbandoned(l.log, After(l, steps, limit, maxPages).log)
    decreases |steps|
  {
    if steps != [] {
      var l' := Taken(l, steps[0], limit, maxPages);
      match steps[0] {
        case Polled(env) =>
          PollIsSafe(l, env, limit, maxPages);
          PollAbandonsOnlyOnAbort(l, env, limit, maxPages);
        case Seeded(bar) =>
          ReplayIsSafe(l, bar);
      }
      assert Safe(l') && NoneAbandoned(l.log, l'.log);
      hide Taken, Safe;
      NothingAbandonedWithoutAbort(l', steps[1..], limit, maxPages);
    }
  }

  // ---------------------------------------------------- recovery terminates

  function NonNeg(x: int): nat { if x < 0 then 0 else x }

  function Gap(l: Lane): nat {
    if l.target.Some? && l.dispatched.Some? then NonNeg(l.target.value - l.dispatched.value) else 0
  }

  function Patience(l: Lane, limit: nat): nat { NonNeg(limit - l.stalled) }

  /** Either the lane leaves catch-up, or (gap, patience) drops lexicographically. */
  predicate Advances(l: Lane, l': Lane, limit: nat) {
    || !l'.state.CatchingUp?
    || Gap(l') < Gap(l)
    || (Gap(l') == Gap(l) && Patience(l', limit) < Patience(l, limit))
  }

  /** The one way for a poll that runs to make no progress: an empty page on a lane that is out of patience,
      with a journal that refuses the write which precedes marking it out of sync. */
  predicate JournalBlocks(l: Lane, env: Env, limit: nat) {
    && env.pages(0).Got? && env.pages(0).value.bars == []
    && l.stalled >= limit
    && !env.journal(0)
  }

  /** Every poll of a catching-up lane leaves that state or makes lexicographic progress,
      with two exceptions: the kill switch stops polling, or the journal blocks it. */
  lemma PollAdvancesUnlessBlocked(l: Lane, env: Env, limit: nat, maxPages: nat)
    requires Safe(l) && l.state.CatchingUp? && limit <= U32_MAX
    ensures Advances(l, Poll(l, env, limit, maxPages).0, limit) <==> !env.killSwitch && !JournalBlocks(l, env, limit)
  {
    var target := l.target.value;
    if env.pages(0).Got? && InWindow(l.dispatched, target, env.pages(0).value.bars) {
      var page := env.pages(0).value;
      PageIsSafe(l, target, page.bars);
      if page.bars != [] {
        var l1 := PageApplied(l, page.bars);
        assert l1.dispatched.value == page.bars[|page.bars| - 1].time;
        assert page.bars[0].time <= page.bars[|page.bars| - 1].time;
        assert l.dispatched.value < l1.dispatched.value <= target;
        if env.journal(0) && l1.dispatched.value < target && !page.exhausted {
          PagesAreSafe(l1, env, limit, target, Budget(maxPages) - 1, 1, 1, None, [] + page.bars);
        }
      }
    }
  }

  /** A natural number that a catching-up lane can only count down. */
  function Rank(l: Lane, limit: nat): nat {
    Gap(l) * (limit + 1) + Patience(l, limit)
  }

  lemma RankDrops(l: Lane, l': Lane, limit: nat)
    requires l'.state.CatchingUp? && Advances(l, l', limit)
    ensures Rank(l', limit) < Rank(l, limit)
  {
    if Gap(l') < Gap(l) {
      MulMonotone(Gap(l') + 1, Gap(l), limit + 1);
      assert (Gap(l') + 1) * (limit + 1) == Gap(l') * (limit + 1) + (limit + 1);
    }
  }

  lemma MulMonotone(a: nat, b: nat, k: nat)
    requires a <= b
    ensures a * k <= b * k
  {
  }

  function Polls(envs: seq<Env>): seq<Step> {
    seq(|envs|, i requires 0 <= i < |envs| => Polled(envs[i]))
  }

  lemma BlockedPollKeepsRank(l: Lane, env: Env, limit: nat, maxPages: nat)
    requires Safe(l) && l.state.CatchingUp? && (env.killSwitch || JournalBlocks(l, env, limit))
    ensures Rank(Poll(l, env, limit, maxPages).0, limit) == Rank(l, limit)
  {
  }

  /** How many polls of a run are stopped neither by the kill switch nor by the journal. */
  function Unblocked(l: Lane, envs: seq<Env>, limit: nat, maxPages: nat): nat
    decreases |envs|
  {
    if envs == [] then 0
    else
      (if envs[0].killSwitch || JournalBlocks(l, envs[0], limit) then 0 else 1)
      + Unblocked(Poll(l, envs[0], limit, maxPages).0, envs[1..], limit, maxPages)
  }

  /** No lane catches up forever: of the polls of a lane that is catching up all along,
      at most `Rank` are not blocked, whatever connector and journal answer. */
  lemma {:induction false} CatchUpIsBounded(l: Lane, envs: seq<Env>, limit: nat, maxPages: nat)
    requires Safe(l) && limit <= U32_MAX
    requires forall n :: 0 <= n <= |envs| ==> After(l, Polls(envs[..n]), limit, maxPages).state.CatchingUp?
    ensures Unblocked(l, envs, limit, maxPages) <= Rank(l, limit)
    decreases |envs|
  {
    assert After(l, Polls(envs[..0]), limit, maxPages) == l;
    if envs != [] {
      var l' := Poll(l, envs[0], limit, maxPages).0;
      var rest := envs[1..];
      forall n | 0 <= n <= |rest|
        ensures After(l', Polls(rest[..n]), limit, maxPages) == After(l, Polls(envs[..n + 1]), limit, maxPages)
      {
        assert Polls(envs[..n + 1])[1..] == Polls(rest[..n]);
      }
      assert rest[..0] == [];
      assert l' == After(l', Polls(rest[..0]), limit, maxPages);
      PollIsSafe(l, envs[0], limit, maxPages);
      PollAdvancesUnlessBlocked(l, envs[0], limit, maxPages);
      if envs[0].killSwitch || JournalBlocks(l, envs[0], limit) {
        BlockedPollKeepsRank(l, envs[0], limit, maxPages);
      } else {
        RankDrops(l, l', limit);
      }
      hide Poll, Rank, JournalBlocks, Safe;
      CatchUpIsBounded(l', rest, limit, maxPages);
    }
  }

  /** Blocked polls are real: while every journal write fails and pages stay
      empty, a lane that has run out of patience catches up for any number of polls. */
  lemma {:induction false} JournalOutageNeverEnds(l: Lane, env: Env, limit: nat, maxPages: nat, n: nat)
    requires Safe(l) && l.state.CatchingUp? && limit <= U32_MAX && l.stalled >= limit
    requires !env.killSwitch && env.pages(0) == Got(Page([], false)) && !env.journal(0)
    ensures After(l, Polls(seq(n, i => env)), limit, maxPages).state.CatchingUp?
    decreases n
  {
    if n > 0 {
      var l' := Poll(l, env, limit, maxPages).0;
      PollIsSafe(l, env, limit, maxPages);
      JournalOutageNeverEnds(l', env, limit, maxPages, n - 1);
      assert Polls(seq(n, i => env))[1..] == Polls(seq(n - 1, i => env));
    }
  }
}
