/**
 * What the service's polling guarantees: stale plans do no harm in any interleaving,
 * a poll whose fetches succeed is the lane's polling protocol, and exactly when a poll
 * makes progress.
 */
module RuntimePolls {
  import opened Options
  import opened Market
  import opened LaneRecovery
  import opened RuntimePolling

  // ----- Any plan, applied to any safe lane -----

  /** Where a plan is heading. */
  function PlanGoal(plan: Plan, f: Fetched): Option<int>
    requires Matches(plan, f)
  {
    match plan
    case LatestBar(_, _) => None
    case LatestTarget(_, _) => f.target
    case Range(_, target, _, _) => Some(target)
  }

  /** The lane stands where it stood when the plan was made. */
  predicate Current(l: Lane, plan: Plan) {
    match plan
    case LatestBar(_, expected) => l.dispatched == expected
    case LatestTarget(last, state) => l.dispatched == Some(last) && l.state == state
    case Range(startAfter, _, _, _) => l.dispatched == startAfter
  }

  /** The fetch shows the lane on its first bar or exactly one bar behind. */
  predicate InStepWith(l: Lane, plan: Plan, f: Fetched)
    requires Matches(plan, f)
  {
    match plan
    case LatestBar(mode, _) => mode.Bootstrap?
    case LatestTarget(_, _) => false
    case Range(_, target, _, shortcut) => shortcut && OneBehind(f.page, target)
  }

  /** Plans the service makes: a range always starts from a dispatched bar. */
  predicate Sensible(plan: Plan) { plan.Range? ==> plan.startAfter.Some? }

  lemma PlansAreSensible(l: Lane)
    requires Safe(l)
    ensures Planned(l).Some? && Sensible(Planned(l).value)
  {
  }

  /** What applying a plan owes the lane, however old the plan is. */
  predicate PlanGuarantees(l: Lane, plan: Plan, f: Fetched, a: Applied)
    requires Matches(plan, f)
  {
    && Safe(a.lane)
    && a.result != Error(InvariantViolation)
    && (!Current(l, plan) ==> a.lane == l && a.next.None?)
    && (a.next.Some? ==> Sensible(a.next.value))
    && (Trades(a.result) ==> l.state.Healthy? && InStepWith(l, plan, f))
    && (!l.state.Healthy? && a.lane.state.Healthy? ==>
          a.lane.dispatched.Some? && PlanGoal(plan, f).Some? && a.lane.dispatched.value >= PlanGoal(plan, f).value)
    && l.log <= a.lane.log
    && (forall i :: |l.log| <= i < |a.lane.log| ==>
          && (PlanGoal(plan, f).Some? ==> a.lane.log[i].bar.time <= PlanGoal(plan, f).value)
          && (!a.lane.log[i].mode.StateOnly? ==> l.state.Healthy? && InStepWith(l, plan, f)))
  }

  lemma LiveStepIsSafe(l: Lane, bar: Bar, cycle: Cycle)
    requires Safe(l)
    ensures var (l', r) := LiveReplay(l, bar, cycle);
            && Safe(l') && l'.state == l.state && r != Error(InvariantViolation)
            && (Trades(r) ==> l.state.Healthy?)
            && l.log <= l'.log && |l'.log| <= |l.log| + 1
            && (forall i :: |l.log| <= i < |l'.log| ==>
                  l'.log[i].bar == bar && (!l'.log[i].mode.StateOnly? ==> l.state.Healthy?))
  {
    LiveIsSafe(l, bar, cycle);
  }

  /** A page on a safe lane, whatever state the lane is in. */
  lemma PageStepIsSafe(l: Lane, env: Env, limit: nat, target: int, w: nat, page: Page)
    requires Safe(l) && l.dispatched.Some? && InWindow(l.dispatched, target, page.bars)
    ensures var o := OnePage(l, env, limit, target, w, Got(page), []);
            && Safe(o.lane) && FedUpTo(l.log, o.lane.log, target)
            && (!l.state.Healthy? && o.lane.state.Healthy? ==> o.lane.dispatched.value >= target)
            && (o.Stop? ==> Harmless(o.result))
            && (o.Continue? ==> o.lane.state == l.state && o.lane.target == l.target && page.bars != [])
            && (o.Continue? ==> o.lane.dispatched.Some? && o.lane.dispatched.value > l.dispatched.value)
  {
    if page.bars != [] {
      AppliedPageIsSafe(l, target, page.bars);
    }
    hide InWindow, ReplayedAll, PageApplied;
  }

  lemma ShortcutIsHarmless(l: Lane, plan: Plan, page: Page, env: Env, limit: nat, w: nat)
    requires Safe(l) && plan.Range? && l.dispatched == plan.startAfter && l.dispatched.Some?
    requires InWindow(l.dispatched, plan.target, page.bars) && plan.liveShortcut && OneBehind(page, plan.target)
    ensures PlanGuarantees(l, plan, FetchedPage(page), ApplyRange(l, plan, page, env, limit, w))
  {
    LiveStepIsSafe(l, page.bars[0], env.cycle);
    hide LiveReplay, InWindow, Safe, OnePage;
  }

  lemma PagingIsHarmless(l: Lane, plan: Plan, page: Page, env: Env, limit: nat, w: nat)
    requires Safe(l) && plan.Range? && l.dispatched == plan.startAfter && l.dispatched.Some?
    requires InWindow(l.dispatched, plan.target, page.bars) && !(plan.liveShortcut && OneBehind(page, plan.target))
    ensures PlanGuarantees(l, plan, FetchedPage(page), ApplyRange(l, plan, page, env, limit, w))
  {
    var started := if plan.startRecovery then Started(l, plan.target) else l;
    assert Safe(started) && Safe(Started(l, plan.target));
    PageStepIsSafe(started, env, limit, plan.target, if plan.startRecovery then w + 1 else w, page);
    hide OnePage, InWindow, LiveReplay, Safe, OneBehind;
  }

  lemma RangeIsHarmless(l: Lane, plan: Plan, page: Page, env: Env, limit: nat, w: nat)
    requires Safe(l) && plan.Range? && Sensible(plan)
    ensures PlanGuarantees(l, plan, FetchedPage(page), ApplyRange(l, plan, page, env, limit, w))
  {
    if l.dispatched == plan.startAfter && InWindow(l.dispatched, plan.target, page.bars) {
      hide InWindow, ApplyRange, PlanGuarantees, OneBehind;
      if plan.liveShortcut && OneBehind(page, plan.target) {
        ShortcutIsHarmless(l, plan, page, env, limit, w);
      } else {
        PagingIsHarmless(l, plan, page, env, limit, w);
      }
    } else {
      hide OnePage, InWindow, LiveReplay;
    }
  }

  /** No plan, however stale and whatever was fetched for it, harms a safe lane. */
  lemma PlansAreHarmless(l: Lane, plan: Plan, f: Fetched, env: Env, limit: nat, w: nat)
    requires Safe(l) && Matches(plan, f) && Sensible(plan)
    ensures PlanGuarantees(l, plan, f, ApplyPlan(l, plan, f, env, limit, w))
  {
    match plan {
      case LatestBar(mode, _) =>
        LiveStepIsSafe(l, f.bar, env.cycle);
        hide LiveReplay;
      case LatestTarget(_, _) =>
      case Range(_, _, _, _) =>
        RangeIsHarmless(l, plan, f.page, env, limit, w);
        hide ApplyRange, PlanGuarantees;
    }
  }

  /** A lane and the plans pollers have under way for it. */
  datatype Service = Service(lane: Lane, pending: seq<Plan>)

  /** A poll begins; a fetch comes back and its plan is applied, whenever it was made; a fetch fails; a bar is seeded. */
  datatype Step =
    | Begin
    | Complete(i: nat, f: Fetched, env: Env, w: nat)
    | Drop(i: nat)
    | Seed(bar: Bar)

  function Without(plans: seq<Plan>, i: nat): seq<Plan>
    requires i < |plans|
  {
    plans[..i] + plans[i + 1..]
  }

  function Stepped(s: Service, step: Step, limit: nat): Service {
    match step
    case Begin => if Planned(s.lane).None? then s else s.(pending := s.pending + [Planned(s.lane).value])
    case Complete(i, f, env, w) =>
      if i >= |s.pending| || !Matches(s.pending[i], f) then s
      else
        var a := ApplyPlan(s.lane, s.pending[i], f, env, limit, w);
        var rest := Without(s.pending, i);
        Service(a.lane, if a.result.Done? && a.next.Some? then rest + [a.next.value] else rest)
    case Drop(i) => if i >= |s.pending| then s else s.(pending := Without(s.pending, i))
    case Seed(bar) => s.(lane := Replayed(s.lane, bar))
  }

  function Interleaved(s: Service, steps: seq<Step>, limit: nat): Service
    decreases |steps|
  {
    if steps == [] then s else Interleaved(Stepped(s, steps[0], limit), steps[1..], limit)
  }

  predicate SafeService(s: Service) {
    Safe(s.lane) && forall i :: 0 <= i < |s.pending| ==> Sensible(s.pending[i])
  }

  lemma StepIsSafe(s: Service, step: Step, limit: nat)
    requires SafeService(s)
    ensures SafeService(Stepped(s, step, limit)) && s.lane.log <= Stepped(s, step, limit).lane.log
  {
    match step {
      case Begin => PlansAreSensible(s.lane);
      case Complete(i, f, env, w) =>
        if i < |s.pending| && Matches(s.pending[i], f) {
          PlansAreHarmless(s.lane, s.pending[i], f, env, limit, w);
          hide ApplyPlan, Safe, Sensible;
        }
      case Drop(i) =>
      case Seed(bar) => ReplayIsSafe(s.lane, bar);
    }
  }

  /** However many polls are under way, and in whatever order their fetches come back, the lane stays safe. */
  lemma {:induction false} EveryInterleavingIsSafe(s: Service, steps: seq<Step>, limit: nat)
    requires SafeService(s)
    ensures SafeService(Interleaved(s, steps, limit)) && s.lane.log <= Interleaved(s, steps, limit).lane.log
    decreases |steps|
  {
    if steps != [] {
      StepIsSafe(s, steps[0], limit);
      hide Stepped, SafeService;
      EveryInterleavingIsSafe(Stepped(s, steps[0], limit), steps[1..], limit);
    }
  }

  // ----- A poll that gets its answers is the lane's protocol -----

  ghost predicate Answers(env: RuntimeEnv) {
    && env.base.latestBar.Got? && env.base.latestConfirmed.Got?
    && (forall k :: env.base.pages(k).Got?)
    && (forall n :: env.events(n))
  }

  function Prefixed(o: PageOutcome, recorded: seq<Bar>): PageOutcome {
    match o
    case Stop(l, r) => Stop(l, if r.Done? then Done(recorded + r.recorded, r.outcomes) else r)
    case Continue(l, bars) => Continue(l, recorded + bars)
  }

  lemma {:induction false} OnePageRecords(l: Lane, env: Env, limit: nat, target: int, w: nat, reply: Reply<Page>, recorded: seq<Bar>)
    ensures OnePage(l, env, limit, target, w, reply, recorded) ==
            Prefixed(OnePage(l, env, limit, target, w, reply, []), recorded)
  {
    hide InWindow, PageApplied;
    assert recorded + [] == recorded;
    if reply.Got? {
      assert [] + reply.value.bars == reply.value.bars;
    }
  }

  /** A range plan made for the lane as it stands does what one page of the protocol does. */
  lemma {:induction false} RangeIsOnePage(l: Lane, target: int, page: Page, env: Env, limit: nat, w: nat)
    ensures var a := ApplyRange(l, Range(l.dispatched, target, false, false), page, env, limit, w);
            && a.w == w + 1
            && (OnePage(l, env, limit, target, w, Got(page), []) ==
                if a.next.Some? && a.result.Done? then Continue(a.lane, a.result.recorded) else Stop(a.lane, a.result))
            && (a.next.Some? ==> a.result.Done? && a.next == Some(Range(a.lane.dispatched, target, false, false)))
            && (a.result.Done? ==> a.result.outcomes == [])
  {
    hide InWindow, PageApplied, LiveReplay;
    assert [] + page.bars == page.bars;
  }

  lemma {:induction false} PagesArePlans(
    l: Lane, env: RuntimeEnv, limit: nat, target: int, budget: nat, k: nat, w: nat, n: nat, recorded: seq<Bar>)
    requires Answers(env)
    ensures RunPlans(l, Some(Range(l.dispatched, target, false, false)), env, limit, budget, k, w, n, recorded, []) ==
            RunPages(l, env.base, limit, target, budget, k, w, None, recorded)
    decreases budget
  {
    if budget > 0 {
      var page := env.base.pages(k).value;
      assert env.base.pages(k).Got? && env.events(n);
      RangeIsOnePage(l, target, page, env.base, limit, w);
      OnePageRecords(l, env.base, limit, target, w, env.base.pages(k), recorded);
      var a := ApplyRange(l, Range(l.dispatched, target, false, false), page, env.base, limit, w);
      assert a.result.Done? ==> [] + a.result.outcomes == [];
      hide OnePage, ApplyRange, Answers;
      if a.result.Done? && a.next.Some? {
        PagesArePlans(a.lane, env, limit, target, budget - 1, k + 1, w + 1, n + 1, recorded + a.result.recorded);
      }
    }
  }

  lemma {:induction false} StartingApplies(l: Lane, target: int, env: Env, limit: nat, page: Page, shortcut: bool)
    requires l.dispatched.Some? && InWindow(l.dispatched, target, page.bars) && !(shortcut && OneBehind(page, target))
    ensures ApplyRange(l, Range(l.dispatched, target, true, shortcut), page, env, limit, 0) ==
            if !env.journal(0) then Applied(Started(l, target), Error(JournalFailed), None, 1)
            else ApplyRange(Started(l, target), Range(l.dispatched, target, false, false), page, env, limit, 1)
  {
    hide OnePage, LiveReplay;
  }

  /** The plan that starts recovery does what the protocol does with the page it has in hand. */
  lemma {:induction false} StartedRange(l: Lane, target: int, env: RuntimeEnv, limit: nat, budget: nat, n: nat, page: Page, shortcut: bool)
    requires Answers(env) && budget > 0 && l.dispatched.Some? && page == env.base.pages(0).value
    requires InWindow(l.dispatched, target, page.bars) && !(shortcut && OneBehind(page, target))
    ensures RunPlans(l, Some(Range(l.dispatched, target, true, shortcut)), env, limit, budget, 0, 0, n, [], []) ==
            if !env.base.journal(0) then (Started(l, target), Error(JournalFailed))
            else RunPages(Started(l, target), env.base, limit, target, budget, 1, 1, Some(page), [])
  {
    hide OnePage, InWindow, LiveReplay, ApplyRange;
    StartingApplies(l, target, env.base, limit, page, shortcut);
    if env.base.journal(0) {
      RangeIsOnePage(Started(l, target), target, page, env.base, limit, 1);
      var a := ApplyRange(Started(l, target), Range(l.dispatched, target, false, false), page, env.base, limit, 1);
      if a.result.Done? {
        assert [] + a.result.recorded == a.result.recorded && [] + a.result.outcomes == [];
        if a.next.Some? {
          PagesArePlans(a.lane, env, limit, target, budget - 1, 1, 2, n + 1, a.result.recorded);
        }
      }
    }
  }

  /** When every fetch is answered and recorded, the service's poll is the lane's poll. */
  lemma {:induction false} AnsweredPollIsPoll(l: Lane, env: RuntimeEnv, limit: nat, maxPages: nat)
    requires Answers(env)
    ensures RuntimePoll(l, env, limit, maxPages) == Poll(l, env.base, limit, maxPages)
  {
    assert env.events(0) && env.events(1) && env.base.pages(0).Got?;
    var budget := Budget(maxPages);
    if env.base.killSwitch {
    } else if l.state.CatchingUp? {
      if l.target.Some? {
        PagesArePlans(l, env, limit, l.target.value, budget, 0, 0, 0, []);
      }
    } else if l.dispatched.None? {
      FirstBar(l, env, limit, maxPages);
    } else {
      TowardsTarget(l, env, limit, maxPages);
    }
  }

  lemma {:induction false} FirstBar(l: Lane, env: RuntimeEnv, limit: nat, maxPages: nat)
    requires Answers(env) && !env.base.killSwitch && !l.state.CatchingUp? && l.dispatched.None?
    ensures RuntimePoll(l, env, limit, maxPages) == Poll(l, env.base, limit, maxPages)
  {
    var (l', r) := LiveReplay(l, env.base.latestBar.value, env.base.cycle);
    assert r.Done? ==> [] + r.recorded == r.recorded && [] + r.outcomes == r.outcomes;
    hide LiveReplay;
  }

  lemma {:induction false} TowardsTarget(l: Lane, env: RuntimeEnv, limit: nat, maxPages: nat)
    requires Answers(env) && !env.base.killSwitch && !l.state.CatchingUp? && l.dispatched.Some?
    ensures RuntimePoll(l, env, limit, maxPages) == Poll(l, env.base, limit, maxPages)
  {
    assert env.events(0) && env.events(1) && env.base.pages(0).Got?;
    var found, last := env.base.latestConfirmed.value, l.dispatched.value;
    var a := ApplyTarget(l, LatestTarget(last, l.state), found, env.base, 0);
    assert RuntimePoll(l, env, limit, maxPages) ==
           if a.result.Error? then (a.lane, a.result)
           else RunPlans(a.lane, a.next, env, limit, Budget(maxPages), 0, a.w, 1, [], []) by {
      assert a.result.Done? ==> [] + a.result.recorded == [] && [] + a.result.outcomes == [];
      hide ApplyRange;
    }
    if found.Some? && found.value > last {
      NewTarget(l, env, limit, maxPages, found.value);
    } else if found.Some? {
      var bar := env.base.latestBar.value;
      assert [] + (if l.dispatched == Some(bar.time) then [bar] else []) == if l.dispatched == Some(bar.time) then [bar] else [];
    }
  }

  lemma {:induction false} NewTarget(l: Lane, env: RuntimeEnv, limit: nat, maxPages: nat, target: int)
    requires Answers(env) && !env.base.killSwitch && !l.state.CatchingUp? && l.dispatched.Some?
    requires env.base.latestConfirmed == Got(Some(target)) && target > l.dispatched.value
    ensures RunPlans(l, Some(Range(l.dispatched, target, true, l.state.Healthy?)), env, limit, Budget(maxPages), 0, 0, 1, [], [])
            == Poll(l, env.base, limit, maxPages)
  {
    assert env.events(1) && env.base.pages(0).Got?;
    var page := env.base.pages(0).value;
    if InWindow(l.dispatched, target, page.bars) {
      if l.state.Healthy? && OneBehind(page, target) {
        var (l', r) := LiveReplay(l, page.bars[0], env.base.cycle);
        assert r.Done? ==> [] + r.recorded == r.recorded && [] + r.outcomes == r.outcomes;
        hide LiveReplay, InWindow, RunPages;
      } else {
        StartedRange(l, target, env, limit, Budget(maxPages), 1, page, l.state.Healthy?);
        hide RunPlans, RunPages, InWindow, LiveReplay;
      }
    } else {
      assert [] + NOTHING.recorded == [] && [] + NOTHING.outcomes == [];
      hide InWindow, RunPages, LiveReplay;
    }
  }

  // ----- Progress -----

  lemma {:induction false} PlansMoveOn(
    l: Lane, env: RuntimeEnv, limit: nat, target: int, budget: nat, k: nat, w: nat, n: nat, recorded: seq<Bar>)
    requires Safe(l) && l.state.CatchingUp?
    ensures var l' := RunPlans(l, Some(Range(l.dispatched, target, false, false)), env, limit, budget, k, w, n, recorded, []).0;
            Safe(l') && (l'.state.CatchingUp? ==>
              l'.target == l.target && l'.dispatched.Some? && l.dispatched.value <= l'.dispatched.value)
    decreases budget
  {
    if budget > 0 && env.base.pages(k).Got? && env.events(n) {
      var page := env.base.pages(k).value;
      RangeIsOnePage(l, target, page, env.base, limit, w);
      OnePageIsSafe(l, env.base, limit, target, w, Got(page), []);
      var a := ApplyRange(l, Range(l.dispatched, target, false, false), page, env.base, limit, w);
      assert a.result.Done? ==> [] + a.result.outcomes == [];
      hide OnePage, ApplyRange;
      if a.result.Done? && a.next.Some? {
        PlansMoveOn(a.lane, env, limit, target, budget - 1, k + 1, w + 1, n + 1, recorded + a.result.recorded);
      }
    }
  }

  /** The first page cannot be fetched, or its provider events cannot be recorded. */
  predicate FetchBlocks(env: RuntimeEnv) { env.base.pages(0).Unavailable? || !env.events(0) }

  predicate Blocked(l: Lane, env: RuntimeEnv, limit: nat) {
    env.base.killSwitch || FetchBlocks(env) || JournalBlocks(l, env.base, limit)
  }

  lemma {:induction false} OneRange(l: Lane, env: RuntimeEnv, limit: nat, budget: nat, target: int)
    requires budget > 0 && !FetchBlocks(env)
    ensures var a := ApplyRange(l, Range(l.dispatched, target, false, false), env.base.pages(0).value, env.base, limit, 0);
            var l' := RunPlans(l, Some(Range(l.dispatched, target, false, false)), env, limit, budget, 0, 0, 0, [], []).0;
            if a.result.Error? || a.next.None? then l' == a.lane
            else l' == RunPlans(a.lane, a.next, env, limit, budget - 1, 1, a.w, 1, [] + a.result.recorded, [] + a.result.outcomes).0
  {
    hide ApplyRange;
  }

  /** What a poll of a catching-up lane does with its first page. */
  lemma {:induction false} FirstPage(l: Lane, env: RuntimeEnv, limit: nat, maxPages: nat)
    requires Safe(l) && l.state.CatchingUp? && !env.base.killSwitch && !FetchBlocks(env)
    ensures var o := OnePage(l, env.base, limit, l.target.value, 0, env.base.pages(0), []);
            var l' := RuntimePoll(l, env, limit, maxPages).0;
            if o.Stop? then l' == o.lane
            else
              && Safe(o.lane) && o.lane.dispatched.Some?
              && (l'.state.CatchingUp? ==>
                    l'.target == l.target && l'.dispatched.Some? && o.lane.dispatched.value <= l'.dispatched.value)
  {
    var target, page := l.target.value, env.base.pages(0).value;
    RangeIsOnePage(l, target, page, env.base, limit, 0);
    OnePageIsSafe(l, env.base, limit, target, 0, Got(page), []);
    var a := ApplyRange(l, Range(l.dispatched, target, false, false), page, env.base, limit, 0);
    OneRange(l, env, limit, Budget(maxPages), target);
    hide OnePage, ApplyRange, RunPlans;
    assert env.base.pages(0) == Got(page);
    if a.result.Done? && a.next.Some? {
      assert [] + a.result.recorded == a.result.recorded && [] + a.result.outcomes == [];
      PlansMoveOn(a.lane, env, limit, target, Budget(maxPages) - 1, 1, 1, 1, a.result.recorded);
    }
  }

  /**
   * A poll of a catching-up lane leaves that state or makes lexicographic progress if and only if
   * it is not blocked: by the kill switch, by its first fetch, or by the journal. Unlike the lane's
   * own protocol, a failed fetch does not take the lane out of sync.
   */
  lemma {:induction false} PollAdvancesUnlessBlocked(l: Lane, env: RuntimeEnv, limit: nat, maxPages: nat)
    requires Safe(l) && l.state.CatchingUp? && limit <= U32_MAX
    ensures Advances(l, RuntimePoll(l, env, limit, maxPages).0, limit) <==> !Blocked(l, env, limit)
  {
    if !env.base.killSwitch && !FetchBlocks(env) {
      var target, page := l.target.value, env.base.pages(0).value;
      FirstPage(l, env, limit, maxPages);
      if InWindow(l.dispatched, target, page.bars) && page.bars != [] {
        AppliedPageIsSafe(l, target, page.bars);
      }
      hide RuntimePoll, InWindow, PageApplied;
    }
  }

  function Polled(l: Lane, envs: seq<RuntimeEnv>, limit: nat, maxPages: nat): Lane
    decreases |envs|
  {
    if envs == [] then l else Polled(RuntimePoll(l, envs[0], limit, maxPages).0, envs[1..], limit, maxPages)
  }

  predicate CatchingUpThroughout(l: Lane, envs: seq<RuntimeEnv>, limit: nat, maxPages: nat)
    decreases |envs|
  {
    l.state.CatchingUp? &&
    (envs != [] ==> CatchingUpThroughout(RuntimePoll(l, envs[0], limit, maxPages).0, envs[1..], limit, maxPages))
  }

  function Unblocked(l: Lane, envs: seq<RuntimeEnv>, limit: nat, maxPages: nat): nat
    decreases |envs|
  {
    if envs == [] then 0
    else
      (if Blocked(l, envs[0], limit) then 0 else 1)
      + Unblocked(RuntimePoll(l, envs[0], limit, maxPages).0, envs[1..], limit, maxPages)
  }

  lemma {:induction false} BlockedPollKeepsRank(l: Lane, env: RuntimeEnv, limit: nat, maxPages: nat)
    requires Safe(l) && l.state.CatchingUp? && Blocked(l, env, limit)
    ensures var l' := RuntimePoll(l, env, limit, maxPages).0; Rank(l', limit) == Rank(l, limit) && Safe(l')
  {
    if !env.base.killSwitch && !FetchBlocks(env) {
      FirstPage(l, env, limit, maxPages);
      assert Gap(Stalled(l)) == Gap(l) && Patience(Stalled(l), limit) == Patience(l, limit) == 0;
      hide RuntimePoll;
    } else {
      hide ApplyRange;
    }
  }

  lemma {:induction false} PollStaysSafe(l: Lane, env: RuntimeEnv, limit: nat, maxPages: nat)
    requires Safe(l) && l.state.CatchingUp?
    ensures Safe(RuntimePoll(l, env, limit, maxPages).0)
  {
    if !env.base.killSwitch {
      PlansMoveOn(l, env, limit, l.target.value, Budget(maxPages), 0, 0, 0, []);
      hide RunPlans, Safe;
    }
  }

  /** Of the polls of a lane that is catching up all along, at most `Rank` are not blocked. */
  lemma {:induction false} CatchUpIsBounded(l: Lane, envs: seq<RuntimeEnv>, limit: nat, maxPages: nat)
    requires Safe(l) && limit <= U32_MAX && CatchingUpThroughout(l, envs, limit, maxPages)
    ensures Unblocked(l, envs, limit, maxPages) <= Rank(l, limit)
    decreases |envs|
  {
    if envs != [] {
      var l' := RuntimePoll(l, envs[0], limit, maxPages).0;
      PollStaysSafe(l, envs[0], limit, maxPages);
      if Blocked(l, envs[0], limit) {
        BlockedPollKeepsRank(l, envs[0], limit, maxPages);
      } else {
        PollAdvancesUnlessBlocked(l, envs[0], limit, maxPages);
        RankDrops(l, l', limit);
      }
      hide RuntimePoll, Rank, Blocked, Safe;
      CatchUpIsBounded(l', envs[1..], limit, maxPages);
    }
  }

  /** Under a connector that is down, a lane keeps catching up for any number of polls. */
  lemma {:induction false} FetchOutageNeverEnds(l: Lane, env: RuntimeEnv, limit: nat, maxPages: nat, n: nat)
    requires l.state.CatchingUp? && l.target.Some? && !env.base.killSwitch && env.base.pages(0).Unavailable?
    ensures Polled(l, seq(n, i => env), limit, maxPages) == l
    decreases n
  {
    if n > 0 {
      assert RuntimePoll(l, env, limit, maxPages).0 == l;
      assert seq(n, i => env)[1..] == seq(n - 1, i => env);
      FetchOutageNeverEnds(l, env, limit, maxPages, n - 1);
    }
  }
}
