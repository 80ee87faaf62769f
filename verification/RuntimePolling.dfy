/**
 * Polling as the running service does it: a poll is planned, fetched and applied in
 * separate steps, with the lane free to change while a fetch is under way. A plan is
 * applied only if the lane still stands where it stood when the plan was made.
 */
module RuntimePolling {
  import opened Options
  import opened Market
  import opened LaneRecovery

  datatype BarMode = Bootstrap | DuplicateOnly

  datatype Plan =
    | LatestBar(mode: BarMode, expected: Option<int>)
    | LatestTarget(last: int, state: RecoveryState)
    | Range(startAfter: Option<int>, target: int, startRecovery: bool, liveShortcut: bool)

  datatype Fetched = FetchedBar(bar: Bar) | FetchedTarget(target: Option<int>) | FetchedPage(page: Page)

  predicate Matches(plan: Plan, f: Fetched) {
    || (plan.LatestBar? && f.FetchedBar?)
    || (plan.LatestTarget? && f.FetchedTarget?)
    || (plan.Range? && f.FetchedPage?)
  }

  /** The poll environment; `events` says whether the provider events of each fetch are recorded. */
  datatype RuntimeEnv = RuntimeEnv(base: Env, events: nat -> bool)

  // ----- Plan and apply -----

  /** What to fetch next for a lane; a lane that recovers without a target has no plan. */
  function Planned(l: Lane): Option<Plan> {
    if l.state.CatchingUp? then
      if l.target.None? then None else Some(Range(l.dispatched, l.target.value, false, false))
    else if l.dispatched.None? then Some(LatestBar(Bootstrap, None))
    else Some(LatestTarget(l.dispatched.value, l.state))
  }

  /** The lane after a plan was applied, what the step returned, the follow-up plan, and the next journal write. */
  datatype Applied = Applied(lane: Lane, result: Result, next: Option<Plan>, w: nat)

  const NOTHING := Done([], [])

  function ApplyLatestBar(l: Lane, plan: Plan, bar: Bar, cycle: Cycle, w: nat): Applied
    requires plan.LatestBar?
  {
    if l.dispatched != plan.expected then Applied(l, NOTHING, None, w)
    else if plan.mode.Bootstrap? then
      var (l', r) := LiveReplay(l, bar, cycle);
      Applied(l', r, None, w)
    else Applied(l, Done(if l.dispatched == Some(bar.time) then [bar] else [], []), None, w)
  }

  function ApplyTarget(l: Lane, plan: Plan, target: Option<int>, env: Env, w: nat): Applied
    requires plan.LatestTarget?
  {
    if l.dispatched != Some(plan.last) || l.state != plan.state || target.None? then Applied(l, NOTHING, None, w)
    else if target.value <= plan.last then
      var again := Some(LatestBar(DuplicateOnly, Some(plan.last)));
      if plan.state.Healthy? then Applied(l, NOTHING, again, w)
      else if !env.journal(w) then Applied(Completed(l), Error(JournalFailed), None, w + 1)
      else Applied(Completed(l), NOTHING, again, w + 1)
    else Applied(l, NOTHING, Some(Range(Some(plan.last), target.value, true, plan.state.Healthy?)), w)
  }

  function ApplyRange(l: Lane, plan: Plan, page: Page, env: Env, limit: nat, w: nat): Applied
    requires plan.Range?
  {
    if l.dispatched != plan.startAfter then Applied(l, NOTHING, None, w)
    else if l.dispatched.None? || !InWindow(l.dispatched, plan.target, page.bars) then
      Applied(Desynced(l), Journaled(env.journal(w), NOTHING), None, w + 1)
    else if plan.liveShortcut && OneBehind(page, plan.target) then
      var (l', r) := LiveReplay(l, page.bars[0], env.cycle);
      Applied(l', r, None, w)
    else if plan.startRecovery && !env.journal(w) then Applied(Started(l, plan.target), Error(JournalFailed), None, w + 1)
    else
      var (started, at) := if plan.startRecovery then (Started(l, plan.target), w + 1) else (l, w);
      match OnePage(started, env, limit, plan.target, at, Got(page), [])
      case Stop(l', r) => Applied(l', r, None, at + 1)
      case Continue(l', bars) => Applied(l', Done(bars, []), Some(Range(l'.dispatched, plan.target, false, false)), at + 1)
  }

  function ApplyPlan(l: Lane, plan: Plan, f: Fetched, env: Env, limit: nat, w: nat): Applied
    requires Matches(plan, f)
  {
    match plan
    case LatestBar(_, _) => ApplyLatestBar(l, plan, f.bar, env.cycle, w)
    case LatestTarget(_, _) => ApplyTarget(l, plan, f.target, env, w)
    case Range(_, _, _, _) => ApplyRange(l, plan, f.page, env, limit, w)
  }

  // ----- One poll: plan, then fetch and apply until no plan is left -----

  function Fetch(plan: Plan, env: Env, k: nat): Reply<Fetched> {
    match plan
    case LatestBar(_, _) => if env.latestBar.Got? then Got(FetchedBar(env.latestBar.value)) else Unavailable
    case LatestTarget(_, _) =>
      if env.latestConfirmed.Got? then Got(FetchedTarget(env.latestConfirmed.value)) else Unavailable
    case Range(_, _, _, _) => if env.pages(k).Got? then Got(FetchedPage(env.pages(k).value)) else Unavailable
  }

  function Kind(plan: Option<Plan>): nat {
    if plan.Some? && plan.value.LatestTarget? then 2 else if plan.Some? && plan.value.Range? then 1 else 0
  }

  /** `budget` pages may still be fetched; `k` pages, `w` journal writes and `n` fetches lie behind. */
  function RunPlans(l: Lane, plan: Option<Plan>, env: RuntimeEnv, limit: nat, budget: nat, k: nat, w: nat, n: nat,
                    recorded: seq<Bar>, outcomes: seq<Outcome>): (Lane, Result)
    decreases budget, Kind(plan)
  {
    if plan.None? || (plan.value.Range? && budget == 0) then (l, Done(recorded, outcomes))
    else
      var reply := Fetch(plan.value, env.base, k);
      if reply.Unavailable? then (l, Journaled(env.events(n), Error(ConnectorFailed)))
      else if !env.events(n) then (l, Error(JournalFailed))
      else
        var a := ApplyPlan(l, plan.value, reply.value, env.base, limit, w);
        if a.result.Error? then (a.lane, a.result)
        else if plan.value.Range? then
          RunPlans(a.lane, a.next, env, limit, budget - 1, k + 1, a.w, n + 1,
                   recorded + a.result.recorded, outcomes + a.result.outcomes)
        else if plan.value.LatestTarget? then
          RunPlans(a.lane, a.next, env, limit, budget, k, a.w, n + 1,
                   recorded + a.result.recorded, outcomes + a.result.outcomes)
        else (a.lane, Done(recorded + a.result.recorded, outcomes + a.result.outcomes))
  }

  function RuntimePoll(l: Lane, env: RuntimeEnv, limit: nat, maxPages: nat): (Lane, Result) {
    if env.base.killSwitch then (l, Error(KillSwitch))
    else if Planned(l).None? then (l, Error(InvariantViolation))
    else RunPlans(l, Planned(l), env, limit, Budget(maxPages), 0, 0, 0, [], [])
  }

  // ----- On the live lane -----

  method ApplyLanePollPlan(lane: LaneRuntime, plan: Plan, f: Fetched, env: Env, limit: nat, w: nat)
    returns (r: Result, next: Option<Plan>, w': nat)
    requires Matches(plan, f)
    modifies lane
    ensures Applied(lane.View(), r, next, w') == ApplyPlan(old(lane.View()), plan, f, env, limit, w)
  {
    match plan {
      case LatestBar(mode, expected) =>
        if lane.dispatched != expected {
          return NOTHING, None, w;
        }
        if mode.Bootstrap? {
          r := lane.ReplayLive(f.bar, env.cycle);
          return r, None, w;
        }
        return Done(if lane.dispatched == Some(f.bar.time) then [f.bar] else [], []), None, w;
      case LatestTarget(last, state) =>
        if lane.dispatched != Some(last) || lane.state != state || f.target.None? {
          return NOTHING, None, w;
        }
        if f.target.value <= last {
          if state.Healthy? {
            return NOTHING, Some(LatestBar(DuplicateOnly, Some(last))), w;
          }
          lane.CompleteRecovery();
          if !env.journal(w) {
            return Error(JournalFailed), None, w + 1;
          }
          return NOTHING, Some(LatestBar(DuplicateOnly, Some(last))), w + 1;
        }
        return NOTHING, Some(Range(Some(last), f.target.value, true, state.Healthy?)), w;
      case Range(startAfter, target, startRecovery, liveShortcut) =>
        r, next, w' := ApplyRangePlan(lane, plan, f.page, env, limit, w);
    }
  }

  method ApplyRangePlan(lane: LaneRuntime, plan: Plan, page: Page, env: Env, limit: nat, w: nat)
    returns (r: Result, next: Option<Plan>, w': nat)
    requires plan.Range?
    modifies lane
    ensures Applied(lane.View(), r, next, w') == ApplyRange(old(lane.View()), plan, page, env, limit, w)
  {
    hide OnePage, InWindow, LiveReplay;
    if lane.dispatched != plan.startAfter {
      return NOTHING, None, w;
    }
    if lane.dispatched.None? {
      lane.MarkOutOfSync();
      return Journaled(env.journal(w), NOTHING), None, w + 1;
    }
    var fault := ValidateRecoveryBars(lane.dispatched, plan.target, page.bars);
    if fault.Some? {
      lane.MarkOutOfSync();
      return Journaled(env.journal(w), NOTHING), None, w + 1;
    }
    if plan.liveShortcut && page.exhausted && |page.bars| == 1 && page.bars[0].time == plan.target {
      r := lane.ReplayLive(page.bars[0], env.cycle);
      return r, None, w;
    }
    var at := w;
    if plan.startRecovery {
      lane.StartRecovery(plan.target);
      if !env.journal(w) {
        return Error(JournalFailed), None, w + 1;
      }
      at := w + 1;
    }
    var more;
    r, more := ApplyPage(lane, page, env, limit, plan.target, at);
    return r, if more then Some(Range(lane.dispatched, plan.target, false, false)) else None, at + 1;
  }

  /** One validated page; `more` asks for the next one. */
  method ApplyPage(lane: LaneRuntime, page: Page, env: Env, limit: nat, target: int, w: nat) returns (r: Result, more: bool)
    requires lane.dispatched.Some? && InWindow(lane.dispatched, target, page.bars)
    modifies lane
    ensures OnePage(old(lane.View()), env, limit, target, w, Got(page), []) ==
            if more && r.Done? then Continue(lane.View(), r.recorded) else Stop(lane.View(), r)
    ensures more ==> r.Done? && r.outcomes == []
  {
    hide InWindow, ReplayedAll;
    if page.bars == [] {
      var shouldFail := lane.RecordNoProgress(page.exhausted, limit);
      if !env.journal(w) {
        return Error(JournalFailed), false;
      }
      if shouldFail {
        lane.MarkOutOfSync();
        return Journaled(env.journal(w + 1), NOTHING), false;
      }
      return NOTHING, false;
    }
    lane.ApplyRecoveryPage(page.bars);
    assert [] + page.bars == page.bars;
    if !env.journal(w) {
      return Error(JournalFailed), false;
    }
    if lane.dispatched.Some? && lane.dispatched.value >= target {
      lane.CompleteRecovery();
      return Journaled(env.journal(w + 1), Done(page.bars, [])), false;
    }
    if page.exhausted {
      lane.MarkOutOfSync();
      return Journaled(env.journal(w + 1), Done(page.bars, [])), false;
    }
    return Done(page.bars, []), true;
  }

  lemma TargetLeadsOn(l: Lane, plan: Plan, f: Fetched, env: Env, limit: nat, w: nat)
    requires Matches(plan, f) && plan.LatestTarget?
    ensures Kind(ApplyPlan(l, plan, f, env, limit, w).next) < 2
  {
  }

  method AdvanceLanePollingOnce(lane: LaneRuntime, env: RuntimeEnv, limit: nat, maxPages: nat) returns (r: Result)
    modifies lane
    ensures (lane.View(), r) == RuntimePoll(old(lane.View()), env, limit, maxPages)
  {
    hide ApplyPlan;
    if env.base.killSwitch {
      return Error(KillSwitch);
    }
    var plan := Planned(Lane(lane.state, lane.target, lane.dispatched, lane.stalled, []));
    if plan.None? {
      return Error(InvariantViolation);
    }
    var recorded: seq<Bar>, outcomes: seq<Outcome> := [], [];
    var pages: nat, w: nat, n: nat := 0, 0, 0;
    while plan.Some?
      invariant pages <= Budget(maxPages)
      invariant RunPlans(lane.View(), plan, env, limit, Budget(maxPages) - pages, pages, w, n, recorded, outcomes) ==
                RuntimePoll(old(lane.View()), env, limit, maxPages)
      decreases Budget(maxPages) - pages, Kind(plan)
    {
      if plan.value.Range? && pages >= Budget(maxPages) {
        break;
      }
      var reply := Fetch(plan.value, env.base, pages);
      if reply.Unavailable? {
        return Journaled(env.events(n), Error(ConnectorFailed));
      }
      if !env.events(n) {
        return Error(JournalFailed);
      }
      var isPage, isTarget := plan.value.Range?, plan.value.LatestTarget?;
      if isTarget {
        TargetLeadsOn(lane.View(), plan.value, reply.value, env.base, limit, w);
      }
      var result, next;
      result, next, w := ApplyLanePollPlan(lane, plan.value, reply.value, env.base, limit, w);
      if result.Error? {
        return result;
      }
      recorded, outcomes := recorded + result.recorded, outcomes + result.outcomes;
      n := n + 1;
      if isPage {
        pages := pages + 1;
      } else if !isTarget {
        return Done(recorded, outcomes);
      }
      plan := next;
    }
    r := Done(recorded, outcomes);
  }
}
