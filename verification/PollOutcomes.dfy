/**
 * What a poll comes to, read off its inputs: when it trades and on which bar, what it
 * records, where it leaves the lane. Pages are judged as one concatenated stream of
 * bars rather than page by page.
 */
module PollOutcomes {
  import opened Options
  import opened Market
  import opened LaneRecovery

  // ----- A bar for the live cycle -----

  /** A healthy lane is offered `bar` live: its first bar, or the one confirmed bar it is behind. */
  predicate OffersLive(l: Lane, env: Env, bar: Bar) {
    && !env.killSwitch && l.state.Healthy?
    && (if l.dispatched.None? then env.latestBar == Got(bar)
        else
          && l.dispatched.value < bar.time
          && env.latestConfirmed == Got(Some(bar.time))
          && env.pages(0) == Got(Page([bar], true)))
  }

  lemma OneBarIsInWindow(after: int, bar: Bar)
    ensures InWindow(Some(after), bar.time, [bar]) <==> after < bar.time
  {
  }

  /** What becomes of a bar offered live, for every fate of its cycle. */
  lemma LiveBarOnInputs(l: Lane, env: Env, limit: nat, maxPages: nat, bar: Bar)
    requires Safe(l) && OffersLive(l, env, bar)
    ensures var moved := l.(dispatched := Some(bar.time));
            Poll(l, env, limit, maxPages) ==
            match env.cycle
            case Processed => (moved.(log := l.log + [Fed(bar, Live)]), Done([bar], [Tradable(bar)]))
            case Warming => (moved.(log := l.log + [Fed(bar, StateOnly)]), Done([bar], [Passive]))
            case Duplicate => (l, Done([bar], [Passive]))
            case Aborted(Nowhere) => (l, Error(CycleFailed))
            case Aborted(Seeding) => (moved.(log := l.log + [Fed(bar, StateOnly)]), Error(CycleFailed))
            case Aborted(Evaluation) => (l.(log := l.log + [Fed(bar, Abandoned)]), Error(CycleFailed))
  {
    if l.dispatched.Some? {
      OneBarIsInWindow(l.dispatched.value, bar);
      hide InWindow;
    }
  }

  /** A poll trades exactly when a bar is offered live and its cycle goes through, and then on that bar. */
  lemma PollTradesIff(l: Lane, env: Env, limit: nat, maxPages: nat)
    requires Safe(l)
    ensures Trades(Poll(l, env, limit, maxPages).1) <==> env.cycle.Processed? && exists bar :: OffersLive(l, env, bar)
    ensures forall bar :: OffersLive(l, env, bar) && env.cycle.Processed? ==>
              Poll(l, env, limit, maxPages) ==
              (l.(dispatched := Some(bar.time), log := l.log + [Fed(bar, Live)]), Done([bar], [Tradable(bar)]))
  {
    var r := Poll(l, env, limit, maxPages).1;
    forall bar | OffersLive(l, env, bar) && env.cycle.Processed?
      ensures Poll(l, env, limit, maxPages) ==
              (l.(dispatched := Some(bar.time), log := l.log + [Fed(bar, Live)]), Done([bar], [Tradable(bar)]))
    {
      LiveBarOnInputs(l, env, limit, maxPages, bar);
    }
    if bar :| OffersLive(l, env, bar) {
      LiveBarOnInputs(l, env, limit, maxPages, bar);
      hide Poll;
      if env.cycle.Processed? {
        assert r.outcomes[0].Tradable?;
      }
    } else {
      NotOfferedNotTraded(l, env, limit, maxPages);
    }
  }

  lemma NotOfferedNotTraded(l: Lane, env: Env, limit: nat, maxPages: nat)
    requires Safe(l) && !exists bar :: OffersLive(l, env, bar)
    ensures !Trades(Poll(l, env, limit, maxPages).1)
  {
    hide InWindow, RunPages;
    if env.killSwitch {
    } else if l.state.CatchingUp? {
      PagesAreSafe(l, env, limit, l.target.value, Budget(maxPages), 0, 0, None, []);
    } else if l.dispatched.None? {
      assert env.latestBar.Got? ==> OffersLive(l, env, env.latestBar.value);
    } else if env.latestConfirmed.Got? && env.latestConfirmed.value.Some? && env.pages(0).Got? {
      var target, page := env.latestConfirmed.value.value, env.pages(0).value;
      if l.dispatched.value < target && l.state.Healthy? && OneBehind(page, target) {
        OneBehindIsOffered(l, env, page, target);
      }
      if target > l.dispatched.value {
        PagesAreSafe(Started(l, target), env, limit, target, Budget(maxPages), 1, 1, Some(page), []);
      }
    }
  }

  // ----- Polls that find nothing to fetch -----

  /** The kill switch, a silent connector or no confirmed bar leave the lane alone. */
  lemma IdlePollOnInputs(l: Lane, env: Env, limit: nat, maxPages: nat)
    requires Safe(l)
    ensures env.killSwitch ==> Poll(l, env, limit, maxPages) == (l, Error(KillSwitch))
    ensures !env.killSwitch && !l.state.CatchingUp? ==>
              && (l.dispatched.None? && env.latestBar.Unavailable? ==> Poll(l, env, limit, maxPages) == (l, Error(ConnectorFailed)))
              && (l.dispatched.Some? && env.latestConfirmed.Unavailable? ==>
                    Poll(l, env, limit, maxPages) == (l, Error(ConnectorFailed)))
              && (l.dispatched.Some? && env.latestConfirmed == Got(None) ==> Poll(l, env, limit, maxPages) == (l, Done([], [])))
  {
  }

  /**
   * A lane that has every confirmed bar records the newest bar if that is the one it dispatched last,
   * and nothing else; out of sync, it is healthy again.
   */
  lemma CaughtUpPollOnInputs(l: Lane, env: Env, limit: nat, maxPages: nat, confirmed: int)
    requires Safe(l) && !env.killSwitch && !l.state.CatchingUp? && l.dispatched.Some?
    requires env.latestConfirmed == Got(Some(confirmed)) && confirmed <= l.dispatched.value
    ensures var (l', r) := Poll(l, env, limit, maxPages);
            match env.latestBar
            case Unavailable => l' == l && r == Error(ConnectorFailed)
            case Got(bar) =>
              && l' == l.(state := Healthy, target := None, stalled := if l.state.Healthy? then l.stalled else 0)
              && (r == if l.state.OutOfSync? && !env.journal(0) then Error(JournalFailed)
                       else if bar.time == l.dispatched.value then Done([bar], []) else Done([], []))
  {
  }

  // ----- Pages as one stream of bars -----

  /** Each bar is newer than the one before it, the first newer than `after`, and none is past `end`. */
  predicate Rising(after: int, end: int, bars: seq<Bar>) {
    forall i :: 0 <= i < |bars| ==> TimeBefore(after, bars, i) < bars[i].time <= end
  }

  function TimeBefore(after: int, bars: seq<Bar>, i: nat): int
    requires i < |bars|
  {
    if i == 0 then after else bars[i - 1].time
  }

  lemma {:induction false} RisingOrders(after: int, end: int, bars: seq<Bar>, i: nat, j: nat)
    requires Rising(after, end, bars) && i < j < |bars|
    ensures bars[i].time < bars[j].time
    decreases j
  {
    if i < j - 1 {
      RisingOrders(after, end, bars, i, j - 1);
    }
    assert TimeBefore(after, bars, j) < bars[j].time;
  }

  lemma RisingIsInWindow(after: int, end: int, bars: seq<Bar>)
    ensures InWindow(Some(after), end, bars) <==> Rising(after, end, bars)
  {
    if Rising(after, end, bars) {
      forall i, j | 0 <= i < j < |bars| ensures bars[i].time < bars[j].time {
        RisingOrders(after, end, bars, i, j);
      }
      assert bars != [] ==> TimeBefore(after, bars, 0) < bars[0].time;
    }
  }

  function Bars(reply: Reply<Page>): seq<Bar> { if reply.Got? then reply.value.bars else [] }

  /** The bars of the first `n` pages, one after another. */
  function Stream(pages: nat -> Reply<Page>, n: nat): seq<Bar> {
    if n == 0 then [] else Stream(pages, n - 1) + Bars(pages(n - 1))
  }

  function LastTime(after: int, bars: seq<Bar>): int { if bars == [] then after else bars[|bars| - 1].time }

  /** A page that is applied and leaves more to fetch. */
  predicate Passes(env: Env, i: nat, w: nat, target: int) {
    && env.pages(i).Got? && env.pages(i).value.bars != [] && !env.pages(i).value.exhausted
    && LastTime(target, env.pages(i).value.bars) < target
    && env.journal(w + i)
  }

  /** The first `n` pages pass, and their bars rise from `after`. */
  predicate Passed(env: Env, after: int, target: int, w: nat, n: nat) {
    (forall i :: 0 <= i < n ==> Passes(env, i, w, target)) && Rising(after, target, Stream(env.pages, n))
  }

  function Replays(bars: seq<Bar>): seq<Fed> {
    seq(|bars|, i requires 0 <= i < |bars| => Fed(bars[i], StateOnly))
  }

  /** The lane once `bars` were replayed into it. */
  function FedWith(l: Lane, bars: seq<Bar>): Lane
    requires l.dispatched.Some?
  {
    if bars == [] then l
    else l.(dispatched := Some(bars[|bars| - 1].time), stalled := 0, log := l.log + Replays(bars))
  }

  function Or(ok: bool, r: Result): Result { if ok then r else Error(JournalFailed) }

  /** How a poll ends that replayed `bars` and then got `reply` for an answer. */
  function Ending(l: Lane, env: Env, limit: nat, target: int, w: nat, bars: seq<Bar>, reply: Reply<Page>): (Lane, Result)
    requires l.dispatched.Some?
  {
    var here := FedWith(l, bars);
    var lost := here.(state := OutOfSync);
    match reply
    case Unavailable => (lost, Or(env.journal(w), Error(ConnectorFailed)))
    case Got(Page(more, exhausted)) =>
      if !Rising(here.dispatched.value, target, more) then (lost, Or(env.journal(w), Done(bars, [])))
      else if more == [] then
        var stalled := if here.stalled >= U32_MAX then here.stalled else here.stalled + 1;
        if env.journal(w) && (exhausted || stalled >= limit) then
          (lost.(stalled := stalled), Or(env.journal(w + 1), Done(bars, [])))
        else (here.(stalled := stalled), Or(env.journal(w), Done(bars, [])))
      else
        var there := FedWith(l, bars + more);
        if !env.journal(w) then (there, Error(JournalFailed))
        else if there.dispatched.value == target then
          (there.(state := Healthy, target := None), Or(env.journal(w + 1), Done(bars + more, [])))
        else (there.(state := OutOfSync), Or(env.journal(w + 1), Done(bars + more, [])))
  }

  lemma {:induction false} ReplayingAll(l: Lane, end: int, bars: seq<Bar>)
    requires l.dispatched.Some? && Rising(l.dispatched.value, end, bars)
    ensures ReplayedAll(l, bars) ==
            l.(dispatched := Some(LastTime(l.dispatched.value, bars)), log := l.log + Replays(bars))
    decreases |bars|
  {
    if bars == [] {
      assert l.log + Replays(bars) == l.log;
    } else {
      var n := |bars| - 1;
      RisingSplits(l.dispatched.value, end, bars[..n], bars[n..]);
      assert bars == bars[..n] + bars[n..];
      ReplayingAll(l, end, bars[..n]);
      assert Replays(bars) == Replays(bars[..n]) + [Fed(bars[n], StateOnly)];
      assert TimeBefore(l.dispatched.value, bars, n) < bars[n].time;
      assert l.log + Replays(bars) == l.log + Replays(bars[..n]) + [Fed(bars[n], StateOnly)];
    }
  }

  lemma RisingSplits(after: int, end: int, a: seq<Bar>, b: seq<Bar>)
    ensures Rising(after, end, a + b) <==> Rising(after, end, a) && Rising(LastTime(after, a), end, b)
  {
    var all := a + b;
    if Rising(after, end, all) {
      forall i | 0 <= i < |a| ensures TimeBefore(after, a, i) < a[i].time <= end {
        assert TimeBefore(after, all, i) == TimeBefore(after, a, i) && all[i] == a[i];
      }
      forall i | 0 <= i < |b| ensures TimeBefore(LastTime(after, a), b, i) < b[i].time <= end {
        assert TimeBefore(after, all, |a| + i) == TimeBefore(LastTime(after, a), b, i) && all[|a| + i] == b[i];
      }
    }
    if Rising(after, end, a) && Rising(LastTime(after, a), end, b) {
      forall i | 0 <= i < |all| ensures TimeBefore(after, all, i) < all[i].time <= end {
        if i < |a| {
          assert TimeBefore(after, all, i) == TimeBefore(after, a, i) && all[i] == a[i];
        } else {
          assert TimeBefore(after, all, i) == TimeBefore(LastTime(after, a), b, i - |a|) && all[i] == b[i - |a|];
        }
      }
    }
  }

  /** Replaying a page on top of an earlier stream is replaying the longer stream. */
  lemma PageExtendsStream(l: Lane, end: int, bars: seq<Bar>, more: seq<Bar>)
    requires l.dispatched.Some? && Rising(l.dispatched.value, end, bars + more) && more != []
    ensures PageApplied(FedWith(l, bars), more) == FedWith(l, bars + more)
  {
    RisingSplits(l.dispatched.value, end, bars, more);
    FedFurther(l, bars, more);
    hide FedWith, Rising;
    ReplayingAll(FedWith(l, bars), end, more);
    hide ReplayedAll, Replays;
    FedTwice(l, bars, more);
  }

  lemma ReplaysConcat(a: seq<Bar>, b: seq<Bar>)
    ensures Replays(a + b) == Replays(a) + Replays(b)
  {
  }

  lemma FedTwice(l: Lane, bars: seq<Bar>, more: seq<Bar>)
    requires l.dispatched.Some? && more != []
    ensures var once := FedWith(l, bars);
            FedWith(l, bars + more) ==
            once.(dispatched := Some(LastTime(once.dispatched.value, more)), stalled := 0, log := once.log + Replays(more))
  {
    ReplaysConcat(bars, more);
    hide Replays;
    if bars == [] {
      assert bars + more == more;
    } else {
      assert l.log + (Replays(bars) + Replays(more)) == l.log + Replays(bars) + Replays(more);
    }
  }

  lemma StreamGrows(pages: nat -> Reply<Page>, n: nat)
    ensures Stream(pages, n + 1) == Stream(pages, n) + Bars(pages(n))
  {
  }

  /** After `n` pages that pass, paging goes on from the lane that was fed their bars. */
  lemma {:induction false} PagesPass(l: Lane, env: Env, limit: nat, target: int, budget: nat, w: nat, n: nat)
    requires l.dispatched.Some? && n <= budget && Passed(env, l.dispatched.value, target, w, n)
    ensures RunPages(l, env, limit, target, budget, 0, w, None, []) ==
            RunPages(FedWith(l, Stream(env.pages, n)), env, limit, target, budget - n, n, w + n, None, Stream(env.pages, n))
    decreases n
  {
    hide RunPages, OnePage, Rising, Passes;
    if n > 0 {
      PassedStep(env, l.dispatched.value, target, w, n - 1);
      hide *;
      PagesPass(l, env, limit, target, budget, w, n - 1);
      OneMorePasses(l, env, limit, target, budget - (n - 1), w, n - 1);
    }
  }

  lemma OneMorePasses(l: Lane, env: Env, limit: nat, target: int, budget: nat, w: nat, n: nat)
    requires l.dispatched.Some? && budget > 0 && Passes(env, n, w, target)
    requires Stream(env.pages, n + 1) == Stream(env.pages, n) + env.pages(n).value.bars
    requires Rising(l.dispatched.value, target, Stream(env.pages, n) + env.pages(n).value.bars)
    ensures var bars, more := Stream(env.pages, n), Stream(env.pages, n + 1);
            RunPages(FedWith(l, bars), env, limit, target, budget, n, w + n, None, bars) ==
            RunPages(FedWith(l, more), env, limit, target, budget - 1, n + 1, w + n + 1, None, more)
  {
    OnePassingPage(l, env, limit, target, w + n, Stream(env.pages, n), env.pages(n));
    hide *;
    PagingGoesOn(FedWith(l, Stream(env.pages, n)), env, limit, target, budget, n, w + n, Stream(env.pages, n));
  }

  lemma PassedStep(env: Env, after: int, target: int, w: nat, n: nat)
    requires Passed(env, after, target, w, n + 1)
    ensures Passed(env, after, target, w, n) && Passes(env, n, w, target)
    ensures Stream(env.pages, n + 1) == Stream(env.pages, n) + env.pages(n).value.bars
    ensures Rising(after, target, Stream(env.pages, n) + env.pages(n).value.bars)
  {
    assert Passes(env, n, w, target);
    RisingSplits(after, target, Stream(env.pages, n), env.pages(n).value.bars);
    hide Rising, Passes;
  }

  lemma PagingGoesOn(l: Lane, env: Env, limit: nat, target: int, budget: nat, k: nat, w: nat, recorded: seq<Bar>)
    requires budget > 0 && OnePage(l, env, limit, target, w, env.pages(k), recorded).Continue?
    ensures var o := OnePage(l, env, limit, target, w, env.pages(k), recorded);
            RunPages(l, env, limit, target, budget, k, w, None, recorded) ==
            RunPages(o.lane, env, limit, target, budget - 1, k + 1, w + 1, None, o.bars)
  {
    hide OnePage;
  }

  lemma OnePassingPage(l: Lane, env: Env, limit: nat, target: int, w: nat, bars: seq<Bar>, reply: Reply<Page>)
    requires l.dispatched.Some? && reply.Got? && reply.value.bars != [] && !reply.value.exhausted && env.journal(w)
    requires Rising(l.dispatched.value, target, bars + reply.value.bars)
    requires LastTime(target, reply.value.bars) < target
    ensures OnePage(FedWith(l, bars), env, limit, target, w, reply, bars) ==
            Continue(FedWith(l, bars + reply.value.bars), bars + reply.value.bars)
  {
    RisingSplits(l.dispatched.value, target, bars, reply.value.bars);
    RisingIsInWindow(LastTime(l.dispatched.value, bars), target, reply.value.bars);
    PageExtendsStream(l, target, bars, reply.value.bars);
    hide InWindow, Rising, PageApplied;
  }

  lemma LastPage(l: Lane, env: Env, limit: nat, target: int, w: nat, bars: seq<Bar>, reply: Reply<Page>)
    requires l.dispatched.Some? && l.target.Some? && Rising(l.dispatched.value, target, bars)
    requires reply.Unavailable? || reply.value.bars == [] || reply.value.exhausted || !env.journal(w) ||
             LastTime(target, reply.value.bars) >= target || !Rising(l.dispatched.value, target, bars + reply.value.bars)
    ensures var (l', r) := Ending(l, env, limit, target, w, bars, reply);
            OnePage(FedWith(l, bars), env, limit, target, w, reply, bars) == Stop(l', r)
  {
    if reply.Unavailable? || reply.value.bars == [] {
      UnfruitfulPage(l, env, limit, target, w, bars, reply);
    } else {
      RisingSplits(l.dispatched.value, target, bars, reply.value.bars);
      hide Rising, Ending, OnePage, FedWith;
      if Rising(l.dispatched.value, target, bars + reply.value.bars) {
        FruitfulPage(l, env, limit, target, w, bars, reply.value);
      } else {
        BadPage(l, env, limit, target, w, bars, reply.value);
      }
    }
  }

  /** No answer, or an empty page. */
  lemma UnfruitfulPage(l: Lane, env: Env, limit: nat, target: int, w: nat, bars: seq<Bar>, reply: Reply<Page>)
    requires l.dispatched.Some? && l.target.Some? && (reply.Unavailable? || reply.value.bars == [])
    ensures var (l', r) := Ending(l, env, limit, target, w, bars, reply);
            OnePage(FedWith(l, bars), env, limit, target, w, reply, bars) == Stop(l', r)
  {
    FedFurther(l, bars, []);
    hide FedWith, PageApplied;
  }

  lemma BadPage(l: Lane, env: Env, limit: nat, target: int, w: nat, bars: seq<Bar>, page: Page)
    requires l.dispatched.Some? && l.target.Some? && page.bars != []
    requires !Rising(LastTime(l.dispatched.value, bars), target, page.bars)
    ensures var (l', r) := Ending(l, env, limit, target, w, bars, Got(page));
            OnePage(FedWith(l, bars), env, limit, target, w, Got(page), bars) == Stop(l', r)
  {
    FedFurther(l, bars, []);
    RisingIsInWindow(LastTime(l.dispatched.value, bars), target, page.bars);
    hide InWindow, Rising, FedWith, PageApplied;
  }

  lemma FruitfulPage(l: Lane, env: Env, limit: nat, target: int, w: nat, bars: seq<Bar>, page: Page)
    requires l.dispatched.Some? && l.target.Some? && page.bars != [] && Rising(l.dispatched.value, target, bars + page.bars)
    requires page.exhausted || !env.journal(w) || LastTime(target, page.bars) >= target
    ensures var (l', r) := Ending(l, env, limit, target, w, bars, Got(page));
            OnePage(FedWith(l, bars), env, limit, target, w, Got(page), bars) == Stop(l', r)
  {
    var more := page.bars;
    RisingSplits(l.dispatched.value, target, bars, more);
    RisingIsInWindow(LastTime(l.dispatched.value, bars), target, more);
    PageExtendsStream(l, target, bars, more);
    FedFurther(l, bars, []);
    FedFurther(l, bars, more);
    assert more[|more| - 1].time <= target;
    hide InWindow, Rising, FedWith, PageApplied;
  }

  /**
   * Paging decided by its inputs: with `n` the number of pages that pass, it ends when the budget is
   * spent, or as the answer to fetch number `n` says.
   */
  lemma PagesOnInputs(l: Lane, env: Env, limit: nat, target: int, budget: nat, w: nat, n: nat)
    requires l.dispatched.Some? && l.target.Some? && n <= budget
    requires Passed(env, l.dispatched.value, target, w, n)
    requires n == budget || !Passed(env, l.dispatched.value, target, w, n + 1)
    ensures var bars := Stream(env.pages, n);
            RunPages(l, env, limit, target, budget, 0, w, None, []) ==
            if n == budget then (FedWith(l, bars), Done(bars, []))
            else Ending(l, env, limit, target, w + n, bars, env.pages(n))
  {
    var after, bars, reply := l.dispatched.value, Stream(env.pages, n), env.pages(n);
    hide RunPages, OnePage, Ending, Rising, FedWith;
    PagesPass(l, env, limit, target, budget, w, n);
    if n < budget {
      StreamGrows(env.pages, n);
      NotPassed(env, after, target, w, n);
      hide Stream, Passed, Passes, LastTime;
      LastPage(l, env, limit, target, w + n, bars, reply);
      PagingStops(FedWith(l, bars), env, limit, target, budget - n, n, w + n, bars);
    } else {
      PagingIsSpent(FedWith(l, bars), env, limit, target, n, w + n, bars);
    }
  }

  lemma NotPassed(env: Env, after: int, target: int, w: nat, n: nat)
    requires Passed(env, after, target, w, n) && !Passed(env, after, target, w, n + 1)
    ensures var bars, reply := Stream(env.pages, n), env.pages(n);
            || reply.Unavailable? || reply.value.bars == [] || reply.value.exhausted || !env.journal(w + n)
            || LastTime(target, reply.value.bars) >= target || !Rising(after, target, bars + reply.value.bars)
  {
    StreamGrows(env.pages, n);
    hide Rising, Stream;
  }

  lemma PagingStops(l: Lane, env: Env, limit: nat, target: int, budget: nat, k: nat, w: nat, recorded: seq<Bar>)
    requires budget > 0 && OnePage(l, env, limit, target, w, env.pages(k), recorded).Stop?
    ensures var o := OnePage(l, env, limit, target, w, env.pages(k), recorded);
            RunPages(l, env, limit, target, budget, k, w, None, recorded) == (o.lane, o.result)
  {
    hide OnePage;
  }

  lemma PagingIsSpent(l: Lane, env: Env, limit: nat, target: int, k: nat, w: nat, recorded: seq<Bar>)
    ensures RunPages(l, env, limit, target, 0, k, w, None, recorded) == (l, Done(recorded, []))
  {
  }

  /** Such a number exists for every run of pages. */
  lemma {:induction false} SomePagesPass(env: Env, after: int, target: int, w: nat, budget: nat) returns (n: nat)
    ensures n <= budget && Passed(env, after, target, w, n) && (n == budget || !Passed(env, after, target, w, n + 1))
  {
    n := 0;
    while n < budget && Passed(env, after, target, w, n + 1)
      invariant n <= budget && Passed(env, after, target, w, n)
    {
      n := n + 1;
    }
  }

  // ----- Polls that recover -----

  /** Page `n` is the one that brings a lane at `after` to its target, and its record is written. */
  predicate Reaches(env: Env, after: int, target: int, w: nat, n: nat) {
    && Passed(env, after, target, w, n)
    && env.pages(n).Got? && env.pages(n).value.bars != []
    && Rising(after, target, Stream(env.pages, n + 1))
    && LastTime(after, env.pages(n).value.bars) == target
    && env.journal(w + n)
  }

  /** Paging makes a lane healthy exactly when some page within the budget reaches the target. */
  lemma PagesRecoverIff(l: Lane, env: Env, limit: nat, target: int, budget: nat, w: nat)
    requires l.state.CatchingUp? && l.dispatched.Some? && l.target.Some?
    ensures RunPages(l, env, limit, target, budget, 0, w, None, []).0.state.Healthy? <==>
            exists n :: 0 <= n < budget && Reaches(env, l.dispatched.value, target, w, n)
  {
    var after := l.dispatched.value;
    var n := SomePagesPass(env, after, target, w, budget);
    PagesOnInputs(l, env, limit, target, budget, w, n);
    hide RunPages, Stream;
    if m :| 0 <= m < budget && Reaches(env, after, target, w, m) {
      ReachingIsLast(env, after, target, w, m, n);
    }
    if n < budget {
      EndsHealthyIff(l, env, limit, target, w, n);
    }
  }

  lemma EndsHealthyIff(l: Lane, env: Env, limit: nat, target: int, w: nat, n: nat)
    requires l.state.CatchingUp? && l.dispatched.Some? && Passed(env, l.dispatched.value, target, w, n)
    ensures Ending(l, env, limit, target, w + n, Stream(env.pages, n), env.pages(n)).0.state.Healthy? <==>
            Reaches(env, l.dispatched.value, target, w, n)
  {
    var after, bars, reply := l.dispatched.value, Stream(env.pages, n), env.pages(n);
    StreamGrows(env.pages, n);
    hide Rising, Stream, Passes;
    FedFurther(l, bars, Bars(reply));
    if reply.Got? && reply.value.bars != [] {
      RisingSplits(after, target, bars, reply.value.bars);
    }
    hide FedWith;
  }

  lemma FedFurther(l: Lane, bars: seq<Bar>, more: seq<Bar>)
    requires l.dispatched.Some?
    ensures FedWith(l, bars).dispatched == Some(LastTime(l.dispatched.value, bars))
    ensures FedWith(l, bars).state == l.state && FedWith(l, bars).target == l.target
    ensures FedWith(l, bars + more).state == l.state && FedWith(l, bars + more).target == l.target
    ensures more != [] ==>
              FedWith(l, bars + more).dispatched == Some(LastTime(l.dispatched.value, more)) && FedWith(l, bars + more).stalled == 0
  {
  }

  /** The page that reaches the target is the first that does not pass. */
  lemma ReachingIsLast(env: Env, after: int, target: int, w: nat, m: nat, n: nat)
    requires Reaches(env, after, target, w, m) && Passed(env, after, target, w, n)
    requires n <= m ==> n == m || !Passed(env, after, target, w, n + 1)
    ensures n == m
  {
    if n > m {
      PassedAt(env, after, target, w, n, m);
    } else if n < m {
      PassedPrefix(env, after, target, w, m, n + 1);
    }
  }

  lemma PassedAt(env: Env, after: int, target: int, w: nat, n: nat, i: nat)
    requires Passed(env, after, target, w, n) && i < n
    ensures Passes(env, i, w, target)
  {
  }

  lemma {:induction false} PassedPrefix(env: Env, after: int, target: int, w: nat, m: nat, n: nat)
    requires Passed(env, after, target, w, m) && n <= m
    ensures Passed(env, after, target, w, n)
    decreases m - n
  {
    if n < m {
      PassedPrefix(env, after, target, w, m, n + 1);
      StreamGrows(env.pages, n);
      RisingSplits(after, target, Stream(env.pages, n), Bars(env.pages(n)));
    }
  }

  /** A page in hand is the first page fetched. */
  lemma PageInHand(l: Lane, env: Env, limit: nat, target: int, budget: nat, w: nat, page: Page)
    requires env.pages(0) == Got(page)
    ensures RunPages(l, env, limit, target, budget, 1, w, Some(page), []) == RunPages(l, env, limit, target, budget, 0, w, None, [])
  {
    hide OnePage;
  }

  /** The poll of a lane that is catching up, on its inputs. */
  lemma RecoveringPollOnInputs(l: Lane, env: Env, limit: nat, maxPages: nat, n: nat)
    requires Safe(l) && l.state.CatchingUp? && !env.killSwitch && n <= Budget(maxPages)
    requires Passed(env, l.dispatched.value, l.target.value, 0, n)
    requires n == Budget(maxPages) || !Passed(env, l.dispatched.value, l.target.value, 0, n + 1)
    ensures var bars := Stream(env.pages, n);
            Poll(l, env, limit, maxPages) ==
            if n == Budget(maxPages) then (FedWith(l, bars), Done(bars, []))
            else Ending(l, env, limit, l.target.value, n, bars, env.pages(n))
  {
    PagesOnInputs(l, env, limit, l.target.value, Budget(maxPages), 0, n);
    hide RunPages, Ending, Stream, FedWith, Passed, InWindow, LiveReplay, LastSent;
  }

  /** A poll of a lane that is catching up makes it healthy exactly when the pages it can fetch reach the target. */
  lemma RecoversIff(l: Lane, env: Env, limit: nat, maxPages: nat)
    requires Safe(l) && l.state.CatchingUp? && !env.killSwitch
    ensures Poll(l, env, limit, maxPages).0.state.Healthy? <==>
            exists n :: 0 <= n < (if maxPages == 0 then 1 else maxPages) && Reaches(env, l.dispatched.value, l.target.value, 0, n)
  {
    PagesRecoverIff(l, env, limit, l.target.value, Budget(maxPages), 0);
    hide RunPages, Reaches;
  }

  /**
   * A lane that has fallen behind, healthy or out of sync, is taken out of sync by a first page it
   * cannot use; otherwise it starts to recover towards the newest confirmed bar.
   */
  lemma BehindPollOnInputs(l: Lane, env: Env, limit: nat, maxPages: nat, target: int)
    requires Safe(l) && !env.killSwitch && !l.state.CatchingUp? && l.dispatched.Some?
    requires env.latestConfirmed == Got(Some(target)) && l.dispatched.value < target
    requires !exists bar :: OffersLive(l, env, bar)
    ensures var started := l.(state := CatchingUp, target := Some(target), stalled := 0);
            var lost := l.(state := OutOfSync, target := if l.target.Some? then l.target else l.dispatched);
            Poll(l, env, limit, maxPages) ==
            match env.pages(0)
            case Unavailable => (lost, Or(env.journal(0), Error(ConnectorFailed)))
            case Got(page) =>
              if !Rising(l.dispatched.value, target, page.bars) then (lost, Or(env.journal(0), Done([], [])))
              else if !env.journal(0) then (started, Error(JournalFailed))
              else RunPages(started, env, limit, target, Budget(maxPages), 0, 1, None, [])
  {
    if env.pages(0).Got? {
      var page := env.pages(0).value;
      RisingIsInWindow(l.dispatched.value, target, page.bars);
      PageInHand(Started(l, target), env, limit, target, Budget(maxPages), 1, page);
      if l.state.Healthy? && OneBehind(page, target) {
        OneBehindIsOffered(l, env, page, target);
      }
    }
    hide InWindow, RunPages, Rising;
  }

  lemma OneBehindIsOffered(l: Lane, env: Env, page: Page, target: int)
    requires !env.killSwitch && l.state.Healthy? && l.dispatched.Some? && l.dispatched.value < target
    requires env.latestConfirmed == Got(Some(target)) && env.pages(0) == Got(page) && OneBehind(page, target)
    ensures OffersLive(l, env, page.bars[0])
  {
    assert page == Page([page.bars[0]], true);
  }

  /** An out-of-sync lane is healthy again after a poll exactly when it is not behind, or the pages reach the newest confirmed bar. */
  lemma OutOfSyncRecoversIff(l: Lane, env: Env, limit: nat, maxPages: nat, target: int)
    requires Safe(l) && l.state.OutOfSync? && !env.killSwitch && env.latestConfirmed == Got(Some(target))
    ensures Poll(l, env, limit, maxPages).0.state.Healthy? <==>
            if target <= l.dispatched.value then env.latestBar.Got?
            else
              env.journal(0) &&
              exists n :: 0 <= n < (if maxPages == 0 then 1 else maxPages) && Reaches(env, l.dispatched.value, target, 1, n)
  {
    if target <= l.dispatched.value {
      CaughtUpPollOnInputs(l, env, limit, maxPages, target);
    } else {
      BehindPollOnInputs(l, env, limit, maxPages, target);
      PagesRecoverIff(Started(l, target), env, limit, target, Budget(maxPages), 1);
      FirstPageMatters(env, l.dispatched.value, target);
    }
    hide Poll, RunPages, Reaches;
  }

  lemma {:induction false} FirstPageMatters(env: Env, after: int, target: int)
    ensures forall n :: Reaches(env, after, target, 1, n) ==>
              env.pages(0).Got? && Rising(after, target, env.pages(0).value.bars)
  {
    forall n | Reaches(env, after, target, 1, n) ensures env.pages(0).Got? && Rising(after, target, env.pages(0).value.bars) {
      if n == 0 {
        assert Stream(env.pages, 1) == Stream(env.pages, 0) + env.pages(0).value.bars == env.pages(0).value.bars;
      } else {
        PassedPrefix(env, after, target, 1, n, 1);
        assert Passes(env, 0, 1, target);
        assert Stream(env.pages, 1) == Stream(env.pages, 0) + env.pages(0).value.bars == env.pages(0).value.bars;
      }
    }
  }
}

/**
 * The same for the service's poll where it parts from the lane's own: a fetch that
 * fails, or whose provider events cannot be recorded, stops the poll and leaves the
 * lane with what was applied before.
 */
module RuntimeOutcomes {
  import opened Options
  import opened Market
  import opened LaneRecovery
  import opened RuntimePolling
  import opened RuntimePolls
  import opened PollOutcomes

  function Stopped(recorded: bool): Result { if recorded then Error(ConnectorFailed) else Error(JournalFailed) }

  /** The answer to the first fetch of a poll is there. */
  predicate FirstAnswer(l: Lane, env: Env) {
    if l.state.CatchingUp? then env.pages(0).Got?
    else if l.dispatched.None? then env.latestBar.Got?
    else env.latestConfirmed.Got?
  }

  /** A poll whose first fetch fails, or cannot be recorded, leaves the lane alone. */
  lemma FirstFetchOnInputs(l: Lane, env: RuntimeEnv, limit: nat, maxPages: nat)
    requires Safe(l) && !env.base.killSwitch
    ensures !FirstAnswer(l, env.base) ==> RuntimePoll(l, env, limit, maxPages) == (l, Stopped(env.events(0)))
    ensures FirstAnswer(l, env.base) && !env.events(0) ==> RuntimePoll(l, env, limit, maxPages) == (l, Error(JournalFailed))
  {
    hide ApplyPlan;
  }

  /** The second fetch of a poll: the page for a lane that is behind, the newest bar for one that is not. */
  lemma SecondFetchOnInputs(l: Lane, env: RuntimeEnv, limit: nat, maxPages: nat, target: int)
    requires Safe(l) && !env.base.killSwitch && !l.state.CatchingUp? && l.dispatched.Some?
    requires env.base.latestConfirmed == Got(Some(target)) && env.events(0)
    ensures target > l.dispatched.value && env.base.pages(0).Unavailable? ==>
              RuntimePoll(l, env, limit, maxPages) == (l, Stopped(env.events(1)))
    ensures target <= l.dispatched.value && env.base.latestBar.Unavailable? && (l.state.Healthy? || env.base.journal(0)) ==>
              RuntimePoll(l, env, limit, maxPages) ==
              (if l.state.Healthy? then l else l.(state := Healthy, target := None, stalled := 0), Stopped(env.events(1)))
  {
    var a := ApplyTarget(l, LatestTarget(l.dispatched.value, l.state), Some(target), env.base, 0);
    TargetStep(l, env, limit, maxPages);
    hide RuntimePoll, ApplyPlan;
  }

  lemma TargetStep(l: Lane, env: RuntimeEnv, limit: nat, maxPages: nat)
    requires !env.base.killSwitch && !l.state.CatchingUp? && l.dispatched.Some? && env.base.latestConfirmed.Got? && env.events(0)
    ensures var a := ApplyTarget(l, LatestTarget(l.dispatched.value, l.state), env.base.latestConfirmed.value, env.base, 0);
            RuntimePoll(l, env, limit, maxPages) ==
            if a.result.Error? then (a.lane, a.result)
            else RunPlans(a.lane, a.next, env, limit, Budget(maxPages), 0, a.w, 1, [], [])
  {
    var plan, target := LatestTarget(l.dispatched.value, l.state), env.base.latestConfirmed.value;
    var a := ApplyTarget(l, plan, target, env.base, 0);
    assert Planned(l) == Some(plan) && Fetch(plan, env.base, 0) == Got(FetchedTarget(target));
    assert ApplyPlan(l, plan, FetchedTarget(target), env.base, limit, 0) == a;
    assert a.result.Done? ==> [] + a.result.recorded == [] && [] + a.result.outcomes == [];
    hide ApplyPlan;
  }

  lemma {:induction false} PlansGoOn(l: Lane, env: RuntimeEnv, limit: nat, target: int, budget: nat, k: nat, w: nat, n: nat, recorded: seq<Bar>)
    requires budget > 0 && env.base.pages(k).Got? && env.events(n)
    requires OnePage(l, env.base, limit, target, w, env.base.pages(k), recorded).Continue?
    ensures var o := OnePage(l, env.base, limit, target, w, env.base.pages(k), recorded);
            RunPlans(l, Some(Range(l.dispatched, target, false, false)), env, limit, budget, k, w, n, recorded, []) ==
            RunPlans(o.lane, Some(Range(o.lane.dispatched, target, false, false)), env, limit, budget - 1, k + 1, w + 1, n + 1, o.bars, [])
  {
    var page := env.base.pages(k).value;
    RangeIsOnePage(l, target, page, env.base, limit, w);
    OnePageRecords(l, env.base, limit, target, w, env.base.pages(k), recorded);
    var a := ApplyRange(l, Range(l.dispatched, target, false, false), page, env.base, limit, w);
    assert a.result.Done? ==> [] + a.result.outcomes == [];
    hide OnePage, ApplyRange;
  }

  predicate Recorded(env: RuntimeEnv, n: nat) { forall i :: 0 <= i < n ==> env.events(i) }

  /** After `n` pages that pass and are recorded, the service pages on from the lane that was fed their bars. */
  lemma {:induction false} PlansPass(l: Lane, env: RuntimeEnv, limit: nat, target: int, budget: nat, n: nat)
    requires l.dispatched.Some? && n <= budget && Passed(env.base, l.dispatched.value, target, 0, n) && Recorded(env, n)
    ensures var fed := FedWith(l, Stream(env.base.pages, n));
            RunPlans(l, Some(Range(l.dispatched, target, false, false)), env, limit, budget, 0, 0, 0, [], []) ==
            RunPlans(fed, Some(Range(fed.dispatched, target, false, false)), env, limit, budget - n, n, n, n,
                     Stream(env.base.pages, n), [])
    decreases n
  {
    hide RunPlans, Rising, OnePage;
    if n > 0 {
      var m, bars := n - 1, Stream(env.base.pages, n - 1);
      PassedStep(env.base, l.dispatched.value, target, 0, m);
      PlansPass(l, env, limit, target, budget, m);
      OnePassingPage(l, env.base, limit, target, m, bars, env.base.pages(m));
      hide FedWith, Stream;
      PlansGoOn(FedWith(l, bars), env, limit, target, budget - m, m, m, m, bars);
    }
  }

  /**
   * A page that cannot be fetched leaves a lane that is catching up with the bars of the pages before it,
   * still catching up; the lane's own protocol would take it out of sync.
   */
  lemma LostPageOnInputs(l: Lane, env: RuntimeEnv, limit: nat, maxPages: nat, n: nat)
    requires Safe(l) && l.state.CatchingUp? && !env.base.killSwitch && n < Budget(maxPages)
    requires Passed(env.base, l.dispatched.value, l.target.value, 0, n) && Recorded(env, n)
    requires env.base.pages(n).Unavailable?
    ensures RuntimePoll(l, env, limit, maxPages) == (FedWith(l, Stream(env.base.pages, n)), Stopped(env.events(n)))
    ensures FedWith(l, Stream(env.base.pages, n)).state.CatchingUp?
  {
    PlansPass(l, env, limit, l.target.value, Budget(maxPages), n);
    hide ApplyPlan, Stream;
  }
}
