/**
 * The execution cycle: reserve, submit, then reconcile the fill or release.
 *
 * Journal writes, owner look-ups (with the ledger lock) and the connector are
 * adversaries; any of them may fail at any call.
 */
module Execution {
  import opened Options
  import opened Floats
  import opened LanePositions
  import opened Sizing
  import opened Ledgers
  import opened Sums

  datatype Accepted = Accepted(quantity: Float, price: Float)

  datatype Env = Env(journal: nat -> bool, lookup: nat -> bool, submit: Option<Accepted>)

  datatype EngineError = JournalFailed | LookupFailed | ConnectorFailed | InvalidReleaseAmount

  datatype Result =
    | Traded(order: Accepted)
    | Idle
    | RefusedByLedger(outcome: LedgerOutcome)
    | RefusedByRisk
    | EngineFailed(error: EngineError)

  /** One evaluated bar that asks for execution. */
  datatype Request = Request(
    owner: Owner,
    pct: real,
    quantity: Float,
    close: Float,
    outcome: Option<LedgerOutcome>,
    decision: RiskDecision)

  function OutcomeOf(e: ReservationError): LedgerOutcome {
    match e
    case BotCapacityExceeded => BotExhausted
    case AccountCapacityExceeded => AccountExhausted
  }

  function ReserveAmount(rq: Request): real { Notional(rq.quantity, rq.close) }

  function FilledAmount(order: Accepted): real { Notional(order.quantity, order.price) }

  function Journaled(ok: bool, r: Result): Result { if ok then r else EngineFailed(JournalFailed) }

  /** The five records written once an order was accepted. */
  predicate OrderJournaled(env: Env) {
    env.journal(1) && env.journal(2) && env.journal(3) && env.journal(4) && env.journal(5)
  }

  function AfterSubmit(l: Ledger, rq: Request, env: Env): (Ledger, Result) {
    var opening := rq.decision.Allow? && Opens(rq.decision.intent);
    if env.submit.None? then
      if !opening then (l, EngineFailed(ConnectorFailed))
      else if !env.lookup(2) then (l, EngineFailed(LookupFailed))
      else
        var amount := Finite(ReserveAmount(rq));
        (Released(l, rq.owner, amount),
         EngineFailed(if ValidRelease(amount) then ConnectorFailed else InvalidReleaseAmount))
    else
      var order := env.submit.value;
      if opening && !env.lookup(2) then (l, EngineFailed(LookupFailed))
      else
        (if opening then
           Reconciled(l, rq.owner, Finite(FilledAmount(order)), Finite(ReserveAmount(rq)))
         else l,
         Journaled(OrderJournaled(env), Traded(order)))
  }

  ghost function Effects(l: Ledger, rq: Request, env: Env): (Ledger, Result) {
    if rq.outcome.Some? && !rq.outcome.value.Dust? then
      (l, Journaled(env.journal(0), RefusedByLedger(rq.outcome.value)))
    else if rq.decision.Reject? then (l, Journaled(env.journal(0), RefusedByRisk))
    else if !env.journal(0) then (l, EngineFailed(JournalFailed))
    else if rq.outcome.Some? then (l, Journaled(env.journal(1), Idle))
    else if rq.decision.intent.NoOp? then (l, Idle)
    else if !Opens(rq.decision.intent) then AfterSubmit(l, rq, env)
    else if !env.lookup(0) || !env.lookup(1) then (l, EngineFailed(LookupFailed))
    else
      var amount := Finite(ReserveAmount(rq));
      var refusal := ReserveRefusal(l, rq.owner, amount, rq.pct);
      if refusal.Some? then
        (l, Journaled(env.journal(1), RefusedByLedger(OutcomeOf(refusal.value))))
      else AfterSubmit(Reserved(l, rq.owner, amount, rq.pct), rq, env)
  }

  method SubmitAndSettle(ledger: AccountLedger, rq: Request, env: Env) returns (r: Result)
    modifies ledger
    ensures (ledger.View(), r) == AfterSubmit(old(ledger.View()), rq, env)
    ensures old(Sound(ledger.View())) ==> Sound(ledger.View())
  {
    var opening := rq.decision.Allow? && Opens(rq.decision.intent);
    if env.submit.None? {
      if opening {
        if !env.lookup(2) {
          return EngineFailed(LookupFailed);
        }
        var ok := ledger.ReleaseReservation(rq.owner, Finite(ReserveAmount(rq)));
        if !ok {
          return EngineFailed(InvalidReleaseAmount);
        }
      }
      return EngineFailed(ConnectorFailed);
    }
    var order := env.submit.value;
    if opening {
      if !env.lookup(2) {
        return EngineFailed(LookupFailed);
      }
      ledger.ReconcileOpenFill(rq.owner, Finite(FilledAmount(order)), Finite(ReserveAmount(rq)));
    }
    r := Journaled(OrderJournaled(env), Traded(order));
  }

  method ApplyRiskDecisionEffects(ledger: AccountLedger, rq: Request, env: Env) returns (r: Result)
    modifies ledger
    ensures (ledger.View(), r) == old(Effects(ledger.View(), rq, env))
    ensures old(Sound(ledger.View())) ==> Sound(ledger.View())
  {
    hide ReserveRefusal, AfterSubmit, Sound;
    if rq.outcome.Some? && !rq.outcome.value.Dust? {
      return Journaled(env.journal(0), RefusedByLedger(rq.outcome.value));
    }
    if rq.decision.Reject? {
      return Journaled(env.journal(0), RefusedByRisk);
    }
    if !env.journal(0) {
      return EngineFailed(JournalFailed);
    }
    if rq.outcome.Some? {
      return Journaled(env.journal(1), Idle);
    }
    if rq.decision.intent.NoOp? {
      return Idle;
    }
    if Opens(rq.decision.intent) {
      if !env.lookup(0) || !env.lookup(1) {
        return EngineFailed(LookupFailed);
      }
      var refusal := ledger.TryReserveOpen(rq.owner, Finite(ReserveAmount(rq)), rq.pct);
      if refusal.Some? {
        return Journaled(env.journal(1), RefusedByLedger(OutcomeOf(refusal.value)));
      }
    }
    r := SubmitAndSettle(ledger, rq, env);
  }

  // ---------------------------------------------------- no reservation leaks

  /** The cycle gets as far as sending an opening order to the connector. */
  ghost predicate SendsOpen(l: Ledger, rq: Request, env: Env) {
    && rq.outcome.None?
    && rq.decision.Allow? && Opens(rq.decision.intent)
    && env.journal(0) && env.lookup(0) && env.lookup(1)
    && ReserveRefusal(l, rq.owner, Finite(ReserveAmount(rq)), rq.pct).None?
  }

  /** A reservation is stranded when the owner can no longer be looked up. */
  ghost predicate Strands(l: Ledger, rq: Request, env: Env) {
    SendsOpen(l, rq, env) && !env.lookup(2) && ReserveAmount(rq) > TOLERANCE
  }

  /** An amount too small to be reserved is still released when the connector fails,
      eating into what the same owner holds for other orders. */
  ghost predicate Nibbles(l: Ledger, rq: Request, env: Env) {
    && SendsOpen(l, rq, env) && env.lookup(2) && env.submit.None?
    && 0.0 < ReserveAmount(rq) <= TOLERANCE
    && rq.owner in l.reserved
  }

  lemma ReserveThenRelease(m: map<Owner, real>, owner: Owner, amount: real)
    requires forall o :: o in m ==> m[o] > TOLERANCE
    ensures Adjusted(m[owner := Get(m, owner) + amount], owner, -amount) == m
  {
    var n := m[owner := Get(m, owner) + amount];
    assert Get(n, owner) - amount == Get(m, owner);
    assert owner !in m ==> n - {owner} == m;
  }

  lemma TinyReleaseShows(m: map<Owner, real>, owner: Owner, amount: real)
    requires amount > 0.0 && amount <= TOLERANCE
    ensures Adjusted(m, owner, -amount) == m <==> owner !in m
  {
    assert owner !in m ==> m - {owner} == m;
    if owner in m {
      var n := Adjusted(m, owner, -amount);
      assert owner in n ==> n[owner] != m[owner];
    }
  }

  /** The reserved map on every exit: what a stranded reservation adds, what a nibble takes. */
  ghost function ReservedAfter(l: Ledger, rq: Request, env: Env): map<Owner, real> {
    if Strands(l, rq, env) then l.reserved[rq.owner := Get(l.reserved, rq.owner) + ReserveAmount(rq)]
    else if Nibbles(l, rq, env) then Adjusted(l.reserved, rq.owner, -ReserveAmount(rq))
    else l.reserved
  }

  /** From the reservation on, the cycle is what happens after submission. */
  lemma SendingIsSubmitting(l: Ledger, rq: Request, env: Env)
    requires SendsOpen(l, rq, env)
    ensures Effects(l, rq, env) == AfterSubmit(Reserved(l, rq.owner, Finite(ReserveAmount(rq)), rq.pct), rq, env)
    ensures Reserved(l, rq.owner, Finite(ReserveAmount(rq)), rq.pct) ==
            if ReserveAmount(rq) > TOLERANCE
            then l.(reserved := l.reserved[rq.owner := Get(l.reserved, rq.owner) + ReserveAmount(rq)]) else l
  {
    hide ReserveRefusal, AfterSubmit, Notional;
  }

  lemma NotSendingKeepsMaps(l: Ledger, rq: Request, env: Env)
    requires !SendsOpen(l, rq, env)
    ensures Effects(l, rq, env).0 == l
  {
    hide ReserveRefusal, Notional;
  }

  lemma ReservedOnExit(l: Ledger, rq: Request, env: Env)
    requires Sound(l)
    ensures Effects(l, rq, env).0.reserved == ReservedAfter(l, rq, env)
  {
    if SendsOpen(l, rq, env) {
      SendingIsSubmitting(l, rq, env);
      var amount := ReserveAmount(rq);
      if amount > TOLERANCE {
        ReserveThenRelease(l.reserved, rq.owner, amount);
      } else if amount > 0.0 {
        TinyReleaseShows(l.reserved, rq.owner, amount);
      }
      hide Effects, SendsOpen, Reserved, ReserveAmount, FilledAmount;
    } else {
      NotSendingKeepsMaps(l, rq, env);
      hide Effects, SendsOpen;
    }
  }

  /** On every exit of the cycle the reserved map is what it was on entry, except in
      exactly two situations. */
  lemma ReservationsAreRestored(l: Ledger, rq: Request, env: Env)
    requires Sound(l)
    ensures Effects(l, rq, env).0.reserved == l.reserved <==> !Strands(l, rq, env) && !Nibbles(l, rq, env)
  {
    ReservedOnExit(l, rq, env);
    if Strands(l, rq, env) {
      assert ReservedAfter(l, rq, env)[rq.owner] != Get(l.reserved, rq.owner);
    } else if Nibbles(l, rq, env) {
      TinyReleaseShows(l.reserved, rq.owner, ReserveAmount(rq));
    }
    hide Effects, SendsOpen, ReserveAmount;
  }

  /** Nothing but the open and reserved maps moves. */
  lemma EffectsFrame(l: Ledger, rq: Request, env: Env)
    ensures var l' := Effects(l, rq, env).0; l' == l.(open := l'.open, reserved := l'.reserved)
  {
    hide ReserveRefusal, Adjusted;
  }

  /** Open notional grows by exactly the filled notional when an opening order was
      accepted and its owner found, and is otherwise untouched. */
  lemma OpenGrowsByFill(l: Ledger, rq: Request, env: Env)
    requires Sound(l)
    ensures var l' := Effects(l, rq, env).0;
            var filled := if env.submit.Some? then FilledAmount(env.submit.value) else 0.0;
            l'.open ==
            if SendsOpen(l, rq, env) && env.lookup(2) && filled > TOLERANCE
            then l.open[rq.owner := Get(l.open, rq.owner) + filled]
            else l.open
  {
    if SendsOpen(l, rq, env) {
      SendingIsSubmitting(l, rq, env);
      hide Effects, SendsOpen, Reserved, ReserveAmount, FilledAmount;
    } else {
      NotSendingKeepsMaps(l, rq, env);
      hide Effects, SendsOpen;
    }
  }

  // ------------------------------------------- how a decision ends, on its inputs

  /** An order goes to the connector. */
  ghost predicate Sends(l: Ledger, rq: Request, env: Env) {
    || SendsOpen(l, rq, env)
    || (rq.outcome.None? && rq.decision.Allow? && Closes(rq.decision.intent) && env.journal(0))
  }

  /** A record, a lookup or the connector lets the cycle down. */
  ghost predicate Fails(l: Ledger, rq: Request, env: Env) {
    var allowed := rq.decision.Allow? && rq.outcome.None?;
    var opens := allowed && Opens(rq.decision.intent);
    || !env.journal(0)
    || (rq.decision.Allow? && rq.outcome == Some(Dust) && !env.journal(1))
    || (opens && !(env.lookup(0) && env.lookup(1)))
    || (opens && !Sends(l, rq, env) && !env.journal(1))
    || (Sends(l, rq, env) && (env.submit.None? || !OrderJournaled(env) || (opens && !env.lookup(2))))
  }

  /** Whether a decision fails, and whether it trades, can be read off its inputs. */
  lemma DecisionEnds(l: Ledger, rq: Request, env: Env)
    ensures Effects(l, rq, env).1.EngineFailed? <==> Fails(l, rq, env)
    ensures Effects(l, rq, env).1.Traded? <==> Sends(l, rq, env) && !Fails(l, rq, env)
    ensures Effects(l, rq, env).1.Traded? ==> env.submit == Some(Effects(l, rq, env).1.order)
  {
    hide ReserveRefusal, ReserveAmount, FilledAmount, Reconciled, Released, Reserved;
  }

  /** Both exceptions happen: a lost look-up keeps the reservation for good, and a
      connector failure on a tiny order shrinks the owner's other reservation. */
  lemma ExceptionsHappen(owner: Owner)
    ensures var l := Ledger(1000.0, None, map[], map[owner := 10.0], 0.0, []);
            var big := Request(owner, 100.0, Finite(1.0), Finite(5.0), None, Allow(OpenLong));
            var tiny := Request(owner, 100.0, Finite(1.0), Finite(0.0000000005), None, Allow(OpenLong));
            && Sound(l)
            && Strands(l, big, Env(_ => true, i => i < 2, None))
            && Nibbles(l, tiny, Env(_ => true, _ => true, None))
  {
    var l := Ledger(1000.0, None, map[], map[owner := 10.0], 0.0, []);
    TotalRemove(l.reserved, owner);
    assert l.reserved - {owner} == map[];
    assert Committed(l) == 10.0;
    assert Where(l.open, OfBot(owner.bot)) == map[];
    assert Where(l.reserved, OfBot(owner.bot)) == l.reserved;
    assert BotTradeableRoom(l, owner.bot, 100.0) == 990.0;
  }

  // ------------------------------------- caps over the risk-decision half

  /** The connector never fills an opening order for more than was reserved. */
  predicate FillsWithinReservation(rq: Request, env: Env) {
    env.submit.Some? ==> FilledAmount(env.submit.value) <= ReserveAmount(rq)
  }

  /** Settling an opening order is at most one ledger step, and a covered one. */
  lemma SettlingIsOneStep(l: Ledger, rq: Request, env: Env, pct: string -> real)
    requires rq.decision.Allow? && Opens(rq.decision.intent) && FillsWithinReservation(rq, env)
    requires ReserveAmount(rq) > TOLERANCE ==> Get(l.reserved, rq.owner) >= ReserveAmount(rq)
    ensures var l' := AfterSubmit(l, rq, env).0;
            l' == l || exists op :: Covered(l, op) && l' == Step(l, op, pct)
  {
    var amount := Finite(ReserveAmount(rq));
    if env.lookup(2) && env.submit.None? {
      var op := Release(rq.owner, amount);
      assert Covered(l, op) && AfterSubmit(l, rq, env).0 == Step(l, op, pct);
    } else if env.lookup(2) && ReserveAmount(rq) > TOLERANCE {
      var op := Fill(rq.owner, Finite(FilledAmount(env.submit.value)), amount);
      assert Covered(l, op) && AfterSubmit(l, rq, env).0 == Step(l, op, pct);
    }
  }

  lemma DecisionKeepsCaps(l: Ledger, rq: Request, env: Env, pct: string -> real)
    requires Sound(l) && WithinCaps(l, pct) && rq.pct == pct(rq.owner.bot)
    requires FillsWithinReservation(rq, env)
    ensures Sound(Effects(l, rq, env).0) && WithinCaps(Effects(l, rq, env).0, pct)
  {
    if SendsOpen(l, rq, env) {
      var reserve := Reserve(rq.owner, Finite(ReserveAmount(rq)));
      var l1 := Step(l, reserve, pct);
      assert Effects(l, rq, env) == AfterSubmit(l1, rq, env);
      assert ReserveAmount(rq) > TOLERANCE ==> Get(l1.reserved, rq.owner) >= ReserveAmount(rq);
      SettlingIsOneStep(l1, rq, env, pct);
      assert Covered(l, reserve);
      hide *;
      StepKeepsCaps(l, reserve, pct);
      StepKeepsSound(l, reserve, pct);
      var l' := AfterSubmit(l1, rq, env).0;
      if l' != l1 {
        var op :| Covered(l1, op) && l' == Step(l1, op, pct);
        StepKeepsCaps(l1, op, pct);
        StepKeepsSound(l1, op, pct);
      }
    } else {
      assert Effects(l, rq, env).0 == l;
    }
  }

  ghost function Decisions(l: Ledger, work: seq<(Request, Env)>): Ledger
    decreases |work|
  {
    if work == [] then l else Decisions(Effects(l, work[0].0, work[0].1).0, work[1..])
  }

  /** What risk decisions alone do to the ledger, in any number and whatever fails along the
      way, keeps account and bots within their caps plus one tolerance.  Revaluation of the
      lanes between decisions is not part of this. */
  lemma {:induction false} DecisionsStayWithinCaps(l: Ledger, work: seq<(Request, Env)>, pct: string -> real)
    requires Sound(l) && WithinCaps(l, pct)
    requires forall i :: 0 <= i < |work| ==>
               work[i].0.pct == pct(work[i].0.owner.bot) && FillsWithinReservation(work[i].0, work[i].1)
    ensures Sound(Decisions(l, work)) && WithinCaps(Decisions(l, work), pct)
    decreases |work|
  {
    if work != [] {
      DecisionKeepsCaps(l, work[0].0, work[0].1, pct);
      DecisionsStayWithinCaps(Effects(l, work[0].0, work[0].1).0, work[1..], pct);
    }
  }
}
