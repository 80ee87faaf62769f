/**
 * What settling an order and running a whole lane cycle come to, in plain figures of the lane
 * and the ledger before.
 */
module CycleOutcomes {
  import opened Options
  import opened Floats
  import opened Sums
  import opened LanePositions
  import opened Settlement
  import opened AccountBooks
  import opened FillEffects
  import opened DecisionOutcomes
  import BookRuns
  import E = Execution
  import L = Ledgers
  import LedgerLimits

  predicate Buys(decision: RiskDecision) { decision == Allow(OpenLong) || decision == Allow(AddLong) }

  predicate Sells(decision: RiskDecision) { decision == Allow(CloseLong) || decision == Allow(ReduceLong) }

  // ----- Settling -----

  /** The lane cannot take the order: too small to be a fill and too large to be ignored, or without a price. */
  predicate LaneRefuses(order: Order, decision: RiskDecision, sold: real) {
    || (Buys(decision) && !Trifle(order.quantity) && !(Ample(order.quantity) && Ample(order.price)))
    || (Sells(decision) && sold > EPSILON && !(sold > TOLERANCE && Ample(order.price)))
  }

  /** What the fill step reports: a failure, a record for every order it handled, a release for every sale. */
  lemma OutcomeOnInputs(lane: Lane, close: Float, order: Option<Order>, decision: RiskDecision, sold: real)
    requires Coherent(lane) && (order.Some? ==> Asks(order.value.quantity, lane.quantity, sold))
    ensures var outcome := FillState(lane, close, NextHasPosition(lane.hasPosition, decision), order, decision).1;
            var trades := order.Some? && (Buys(decision) || Sells(decision));
            && (outcome.Failed? <==> trades && LaneRefuses(order.value, decision, sold))
            && (outcome.Applied? ==>
                  && (outcome.record.Some? <==> trades)
                  && outcome.released == if order.Some? && Sells(decision) then Some(At(sold, close)) else None)
  {
    var next := NextHasPosition(lane.hasPosition, decision);
    if order.Some? && Buys(decision) {
      LanePurchaseOnInputs(lane, close, next, order.value, decision);
      hide FillState, Bought, Kept, RecordOf, Coherent;
    } else if order.Some? && Sells(decision) {
      LaneSaleOnInputs(lane, close, next, order.value, decision, sold);
      hide FillState, Sold, Kept, RecordOf, Coherent;
    } else {
      LaneQuietOnInputs(lane, close, next, order, decision);
      hide FillState, Coherent;
    }
  }

  /** Why a settlement stops, or that it completes; `sold` is what an order to sell asks of the holding. */
  lemma SettlementOnInputs(
    l: L.Ledger, lanes: Lanes, i: nat, close: Float, order: Option<Order>, decision: RiskDecision, env: Settlement.Env, sold: real)
    requires i < |lanes| && Coherent(lanes[i].1)
    requires order.Some? ==> Asks(order.value.quantity, lanes[i].1.quantity, sold)
    ensures var r := Settle(l, lanes, i, close, order, decision, env).2;
            var trades := order.Some? && (Buys(decision) || Sells(decision));
            var sells := order.Some? && Sells(decision);
            r == if trades && LaneRefuses(order.value, decision, sold) then LaneFailed
                 else if trades && !env.journal then JournalFailed
                 else if sells && !env.lookup then LookupFailed
                 else if sells && At(sold, close) <= 0.0 then InvalidReleaseAmount
                 else if !env.sync then SyncFailed
                 else Settled
  {
    OutcomeOnInputs(lanes[i].1, close, order, decision, sold);
    hide FillState, L.OpenEntries, Valuations, Coherent, LaneRefuses, At, Asks, NextHasPosition;
  }

  /** What a settlement leaves of the ledger: rebuilt when it completes, a release alone when only the sync fails. */
  lemma SettledLedgerOnInputs(
    l: L.Ledger, lanes: Lanes, i: nat, close: Float, order: Option<Order>, decision: RiskDecision, env: Settlement.Env, sold: real)
    requires i < |lanes| && Coherent(lanes[i].1)
    requires order.Some? ==> Asks(order.value.quantity, lanes[i].1.quantity, sold)
    ensures var (l', lane, r) := Settle(l, lanes, i, close, order, decision, env);
            var released := r.SyncFailed? && order.Some? && Sells(decision);
            && l' == l.(open := l'.open)
            && (r.Settled? ==> l'.open == L.OpenEntries(Valuations(lanes[i := (lanes[i].0, lane)])))
            && (released ==> LedgerLimits.Holds(l.open, l'.open, lanes[i].0, Get(l.open, lanes[i].0) - At(sold, close)))
            && (!r.Settled? && !released ==> l' == l)
  {
    OutcomeOnInputs(lanes[i].1, close, order, decision, sold);
    LedgerLimits.ReleaseOnInputs(l, lanes[i].0, Finite(At(sold, close)));
    hide FillState, L.OpenEntries, Valuations, Coherent, LaneRefuses, At, Asks, NextHasPosition, L.PositionReleased,
         LedgerLimits.Holds;
  }

  // ----- The whole cycle -----

  /** A cycle that stops before execution has synced the ledger, marked its lane, or both, and nothing else. */
  lemma EarlyStopOnInputs(b: Books, w: Work)
    requires ValidBooks(b) && w.lane < |b.lanes| && !w.reach.Execution?
    ensures var lane := b.lanes[w.lane].1.(notional := At(b.lanes[w.lane].1.quantity, w.request.close));
            var marked := b.lanes[w.lane := (b.lanes[w.lane].0, lane)];
            Cycle(b, w) ==
            (match w.reach
             case Nowhere => b
             case Sync => b.(ledger := b.ledger.(open := L.OpenEntries(Valuations(b.lanes))))
             case Mark => Books(b.ledger.(open := L.OpenEntries(Valuations(b.lanes))), marked)
             case _ => Books(b.ledger.(open := L.OpenEntries(Valuations(marked))), marked), false)
  {
    MarkOnInputs(b.lanes[w.lane].1, w.request.close);
    hide L.OpenEntries, Valuations, Marked, At, Coherent;
  }

  lemma SettledLedger(b: Books, w: Work)
    requires ValidBooks(b) && Cycle(b, w).1
    ensures w.lane < |b.lanes| && w.reach.Execution?
    ensures var b' := Cycle(b, w).0;
            && b'.ledger == b.ledger.(open := L.OpenEntries(Valuations(b'.lanes)))
            && b'.lanes == b.lanes[w.lane := (b.lanes[w.lane].0, b'.lanes[w.lane].1)]
  {
    BookRuns.SettledCycleMovesOneEntry(b, w);
    BookRuns.SettledAgrees(b, w);
    hide Execute, Evaluated, L.OpenEntries, Valuations, WithEntry;
  }

  /** An executing cycle that settles went through its decision and its settlement. */
  lemma SettledSteps(b: Books, w: Work, lane: Lane)
    requires ValidBooks(b) && w.lane < |b.lanes| && w.reach.Execution? && Cycle(b, w).1
    requires lane == b.lanes[w.lane].1.(notional := At(b.lanes[w.lane].1.quantity, w.request.close))
    ensures var e, rq, decision := Evaluated(b, w), RequestOf(b, w), w.request.decision;
            var (after, r) := E.Effects(e.ledger, rq, w.effects);
            var order := OrderOf(r, w.fees);
            && Coherent(lane) && e.lanes[w.lane] == (b.lanes[w.lane].0, lane) && w.lane < |e.lanes|
            && !r.EngineFailed?
            && Settle(after, e.lanes, w.lane, w.request.close, order, decision, w.settle).2.Settled?
            && Cycle(b, w).0.lanes[w.lane].1 ==
               FillState(lane, w.request.close, NextHasPosition(lane.hasPosition, decision), order, decision).0
  {
    BookRuns.ReadyIsCoherent(b, w);
    MarkOnInputs(b.lanes[w.lane].1, w.request.close);
    hide E.Effects, FillState, Coherent, L.OpenEntries, Valuations, SettleLedger, Marked, At;
  }

  /** An order that is sent by a decision that does not fail is traded; nothing else is. */
  lemma TradedIffSent(l: L.Ledger, rq: E.Request, env: E.Env)
    requires L.Sound(l) && !E.Effects(l, rq, env).1.EngineFailed?
    ensures E.Effects(l, rq, env).1.Traded? <==> Submits(l, rq, env)
    ensures Submits(l, rq, env) ==> env.submit.Some? && E.Effects(l, rq, env).1 == E.Traded(env.submit.value)
    ensures Submits(l, rq, env) ==> Buys(rq.decision) || Sells(rq.decision)
  {
    E.DecisionEnds(l, rq, env);
    SendsOnInputs(l, rq, env);
    hide E.Effects, Granted, L.Sound, E.SendsOpen;
  }

  lemma SettledLane(b: Books, w: Work, sold: real)
    requires ValidBooks(b) && Cycle(b, w).1 && w.lane < |b.lanes| && w.reach.Execution?
    requires w.effects.submit.Some? ==> Asks(w.effects.submit.value.quantity, b.lanes[w.lane].1.quantity, sold)
    ensures LaneSettled(b, w, sold, Cycle(b, w).0.lanes[w.lane].1)
  {
    var lane, close := b.lanes[w.lane].1.(notional := At(b.lanes[w.lane].1.quantity, w.request.close)), w.request.close;
    SettledSteps(b, w, lane);
    EvaluatedIsValid(b, w);
    var e, rq, decision := Evaluated(b, w), RequestOf(b, w), w.request.decision;
    var (after, r) := E.Effects(e.ledger, rq, w.effects);
    TradedIffSent(e.ledger, rq, w.effects);
    var order := OrderOf(r, w.fees);
    hide Cycle, Evaluated, E.Effects, Settle, Submits, FillState, Coherent, ValidLanes, At, Asks;
    SettlementOnInputs(after, e.lanes, w.lane, close, order, decision, w.settle, sold);
    SettledFill(lane, close, order, decision, sold);
    hide Kept, Bought, Sold, LaneRefuses, Trifle;
  }

  lemma SettledFill(lane: Lane, close: Float, order: Option<Order>, decision: RiskDecision, sold: real)
    requires Coherent(lane) && (order.Some? ==> Asks(order.value.quantity, lane.quantity, sold))
    requires order.Some? && (Buys(decision) || Sells(decision)) ==> !LaneRefuses(order.value, decision, sold)
    requires order.Some? && Sells(decision) ==> At(sold, close) > 0.0
    ensures var after := FillState(lane, close, NextHasPosition(lane.hasPosition, decision), order, decision).0;
            if order.Some? && Sells(decision) then
              order.value.price.Finite? && Sold(lane, after, sold, order.value.price.value, OrderFeeCost(order.value), close)
            else if order.Some? && Buys(decision) && !Trifle(order.value.quantity) then
              && order.value.quantity.Finite? && order.value.price.Finite?
              && Bought(lane, after, order.value.quantity.value, order.value.price.value, OrderFeeCost(order.value), close)
            else Kept(lane, after)
  {
    var next := NextHasPosition(lane.hasPosition, decision);
    if order.Some? && Buys(decision) {
      LanePurchaseOnInputs(lane, close, next, order.value, decision);
      hide FillState, Bought, Kept, Coherent;
    } else if order.Some? && Sells(decision) {
      LaneSaleOnInputs(lane, close, next, order.value, decision, sold);
      hide FillState, Sold, Kept, Coherent;
    } else {
      LaneQuietOnInputs(lane, close, next, order, decision);
      hide FillState, Coherent;
    }
  }

  /** The lane after a settled cycle: bought or sold as accepted, or only marked to the close. */
  ghost predicate LaneSettled(b: Books, w: Work, sold: real, after: Lane)
    requires w.lane < |b.lanes|
  {
    var before := b.lanes[w.lane].1.(notional := At(b.lanes[w.lane].1.quantity, w.request.close));
    var rq, close, fees := w.request.(owner := b.lanes[w.lane].0), w.request.close, OrderFeeCost(w.fees);
    if Submits(Evaluated(b, w).ledger, rq, w.effects) then
      && w.effects.submit.Some?
      && (var q, p := w.effects.submit.value.quantity, w.effects.submit.value.price;
          if Sells(rq.decision) then p.Finite? && Sold(before, after, sold, p.value, fees, close)
          else if Trifle(q) then Kept(before, after)
          else q.Finite? && p.Finite? && Bought(before, after, q.value, p.value, fees, close))
    else Kept(before, after)
  }

  /**
   * A cycle that settles. With an order accepted the lane has bought or sold it at the price it was filled at;
   * without one it is marked to the close. The reserved map is as before, and the open map that of the lanes.
   */
  lemma SettledCycleOnInputs(b: Books, w: Work, sold: real)
    requires ValidBooks(b) && Cycle(b, w).1
    requires w.effects.submit.Some? && w.lane < |b.lanes| ==>
               Asks(w.effects.submit.value.quantity, b.lanes[w.lane].1.quantity, sold)
    ensures w.lane < |b.lanes| && LaneSettled(b, w, sold, Cycle(b, w).0.lanes[w.lane].1)
    ensures var b' := Cycle(b, w).0;
            && b'.ledger == b.ledger.(open := L.OpenEntries(Valuations(b'.lanes)))
            && b'.lanes == b.lanes[w.lane := (b.lanes[w.lane].0, b'.lanes[w.lane].1)]
  {
    SettledLedger(b, w);
    hide *;
    SettledLane(b, w, sold);
  }
}
