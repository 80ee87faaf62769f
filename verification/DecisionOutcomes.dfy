/**
 * What acting on a risk decision comes to, read off the request and what it meets: the result it
 * reports, for every cause, and the ledger it leaves.
 */
module DecisionOutcomes {
  import opened Options
  import opened Floats
  import opened Sums
  import opened LanePositions
  import opened Sizing
  import opened Ledgers
  import opened LedgerLimits
  import opened Execution

  /** What a quantity costs at a price; next to nothing, or no price, costs nothing. */
  function Cost(quantity: Float, price: Float): real {
    if quantity.Finite? && price.Finite? && quantity.value > TOLERANCE then quantity.value * price.value else 0.0
  }

  predicate Opening(rq: Request) {
    rq.outcome.None? && (rq.decision == Allow(OpenLong) || rq.decision == Allow(AddLong))
  }

  predicate Closing(rq: Request) {
    rq.outcome.None? && (rq.decision == Allow(CloseLong) || rq.decision == Allow(ReduceLong))
  }

  /** An opening order that costs next to nothing, or that the ledger can afford. */
  ghost predicate Granted(l: Ledger, rq: Request) {
    var cost := Cost(rq.quantity, rq.close);
    cost <= TOLERANCE || Affordable(l, rq.owner, cost, rq.pct)
  }

  /** An opening order gets as far as the ledger, with its bot found. */
  predicate AsksLedger(rq: Request, env: Env) { Opening(rq) && env.journal(0) && env.lookup(0) && env.lookup(1) }

  /** An order reaches the connector. */
  ghost predicate Submits(l: Ledger, rq: Request, env: Env) {
    || (AsksLedger(rq, env) && Granted(l, rq))
    || (Closing(rq) && env.journal(0))
  }

  /** All five records of an accepted order are written. */
  predicate AllRecorded(env: Env) { forall i :: 1 <= i <= 5 ==> env.journal(i) }

  lemma RecordsAreFive(env: Env)
    ensures AllRecorded(env) <==> OrderJournaled(env)
  {
  }

  lemma SendsOnInputs(l: Ledger, rq: Request, env: Env)
    requires Sound(l)
    ensures SendsOpen(l, rq, env) <==> AsksLedger(rq, env) && Granted(l, rq)
    ensures ReserveAmount(rq) == Cost(rq.quantity, rq.close)
    ensures AsksLedger(rq, env) && !Granted(l, rq) ==>
              ReserveRefusal(l, rq.owner, Finite(ReserveAmount(rq)), rq.pct) ==
              Some(if ShareUsedUp(l, rq.owner.bot, rq.pct) then BotCapacityExceeded else AccountCapacityExceeded)
  {
    var cost := Cost(rq.quantity, rq.close);
    if cost > TOLERANCE {
      ReservationOnInputs(l, rq.owner, cost, rq.pct);
    } else {
      NegligibleReservation(l, rq.owner, Finite(cost), rq.pct);
    }
    hide ReserveRefusal, Affordable, ShareUsedUp, Sound;
  }

  /** Every result a decision can have, and exactly when it has it. */
  lemma ResultOnInputs(l: Ledger, rq: Request, env: Env)
    requires Sound(l)
    ensures var r := Effects(l, rq, env).1;
            var refused := AsksLedger(rq, env) && !Granted(l, rq);
            var sent := Submits(l, rq, env);
            var found := Opening(rq) ==> env.lookup(2);
            var cost := Cost(rq.quantity, rq.close);
            && (forall order :: r == Traded(order) <==> sent && found && env.submit == Some(order) && AllRecorded(env))
            && (r == RefusedByRisk <==> env.journal(0) && rq.decision.Reject? && (rq.outcome.None? || rq.outcome == Some(Dust)))
            && (forall o :: r == RefusedByLedger(o) <==>
                  || (env.journal(0) && rq.outcome == Some(o) && o != Dust)
                  || (refused && env.journal(1) &&
                      o == if ShareUsedUp(l, rq.owner.bot, rq.pct) then BotExhausted else AccountExhausted))
            && (r == Idle <==>
                  || (env.journal(0) && rq.decision.Allow? && rq.outcome == Some(Dust) && env.journal(1))
                  || (env.journal(0) && rq.decision == Allow(NoOp) && rq.outcome.None?))
            && (r == EngineFailed(JournalFailed) <==>
                  || !env.journal(0)
                  || (rq.decision.Allow? && rq.outcome == Some(Dust) && !env.journal(1))
                  || (refused && !env.journal(1))
                  || (sent && found && env.submit.Some? && !AllRecorded(env)))
            && (r == EngineFailed(LookupFailed) <==>
                  || (Opening(rq) && env.journal(0) && !(env.lookup(0) && env.lookup(1)))
                  || (sent && !found))
            && (r == EngineFailed(ConnectorFailed) <==> sent && found && env.submit.None? && (Opening(rq) ==> cost > 0.0))
            && (r == EngineFailed(InvalidReleaseAmount) <==> sent && found && env.submit.None? && Opening(rq) && cost <= 0.0)
  {
    SendsOnInputs(l, rq, env);
    RecordsAreFive(env);
    hide Granted, ShareUsedUp, ReserveRefusal, AllRecorded, OrderJournaled, Cost, ReserveAmount, FilledAmount, Reconciled,
         Released, Reserved, Sound;
  }

  /**
   * The ledger a decision leaves. An accepted opening order whose owner is found adds its own cost to the open
   * notional and gives back its reservation; a lost owner keeps the reservation; a failing connector gives it
   * back, and takes an amount too small to have been reserved from what was there. Nothing else moves.
   */
  lemma LedgerOnInputs(l: Ledger, rq: Request, env: Env)
    requires Sound(l)
    ensures var l' := Effects(l, rq, env).0;
            var sent, cost := AsksLedger(rq, env) && Granted(l, rq), Cost(rq.quantity, rq.close);
            var filled := if env.submit.Some? then Cost(env.submit.value.quantity, env.submit.value.price) else 0.0;
            && l' == l.(open := l'.open, reserved := l'.reserved)
            && (if sent && env.lookup(2) && filled > TOLERANCE
                then Holds(l.open, l'.open, rq.owner, Get(l.open, rq.owner) + filled) else l'.open == l.open)
            && (if sent && !env.lookup(2) && cost > TOLERANCE
                then Holds(l.reserved, l'.reserved, rq.owner, Get(l.reserved, rq.owner) + cost)
                else if sent && env.lookup(2) && env.submit.None? && 0.0 < cost <= TOLERANCE && rq.owner in l.reserved
                then Holds(l.reserved, l'.reserved, rq.owner, Get(l.reserved, rq.owner) - cost)
                else l'.reserved == l.reserved)
  {
    SendsOnInputs(l, rq, env);
    EffectsFrame(l, rq, env);
    ReservedOnExit(l, rq, env);
    OpenGrowsByFill(l, rq, env);
    assert env.submit.Some? ==> FilledAmount(env.submit.value) == Cost(env.submit.value.quantity, env.submit.value.price);
    hide Effects, SendsOpen, Granted, AsksLedger, Cost, ReserveAmount, FilledAmount;
  }
}
