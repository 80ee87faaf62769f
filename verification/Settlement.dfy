/**
 * The second half of the execution cycle: the lane absorbs the order, the ledger
 * releases what was closed and is then rebuilt from the lanes' valuations.
 */
module Settlement {
  import opened Options
  import opened Floats
  import opened LanePositions
  import opened Inventories
  import opened Arithmetic
  import L = Ledgers

  /** The lanes of one account, in lane order. */
  type Lanes = seq<(L.Owner, Lane)>

  ghost predicate ValidLanes(lanes: Lanes) {
    && (forall i :: 0 <= i < |lanes| ==> Coherent(lanes[i].1))
    && forall i, j :: 0 <= i < j < |lanes| ==> lanes[i].0 != lanes[j].0
  }

  /** What the lanes report to the ledger. */
  function Valuations(lanes: Lanes): seq<(L.Owner, Float)> {
    seq(|lanes|, i requires 0 <= i < |lanes| => (lanes[i].0, Finite(lanes[i].1.notional)))
  }

  /** Whether the position record is written, the owner found, and the ledger synced. */
  datatype Env = Env(journal: bool, lookup: bool, sync: bool)

  datatype Result = Settled | LaneFailed | JournalFailed | LookupFailed | InvalidReleaseAmount | SyncFailed

  /** What the ledger makes of a lane's fill: a release for a close, then the lanes' valuations. */
  function SettleLedger(l: L.Ledger, owner: L.Owner, outcome: Outcome, valuations: seq<(L.Owner, Float)>, env: Env)
    : (L.Ledger, Result)
  {
    if outcome.Failed? then (l, LaneFailed)
    else if outcome.record.Some? && !env.journal then (l, JournalFailed)
    else if outcome.released.Some? && !env.lookup then (l, LookupFailed)
    else if outcome.released.Some? && !L.ValidRelease(Finite(outcome.released.value)) then (l, InvalidReleaseAmount)
    else
      var released := if outcome.released.Some? then L.PositionReleased(l, owner, Finite(outcome.released.value)) else l;
      if !env.sync then (released, SyncFailed) else (released.(open := L.OpenEntries(valuations)), Settled)
  }

  /** What one lane's share of the cycle does to the lane and to the ledger. */
  function Settle(l: L.Ledger, lanes: Lanes, i: nat, close: Float, order: Option<Order>, decision: RiskDecision, env: Env)
    : (L.Ledger, Lane, Result)
    requires i < |lanes| && Coherent(lanes[i].1)
  {
    var (owner, lane) := lanes[i];
    var (next, outcome) := FillState(lane, close, NextHasPosition(lane.hasPosition, decision), order, decision);
    var (ledger, result) := SettleLedger(l, owner, outcome, Valuations(lanes[i := (owner, next)]), env);
    (ledger, next, result)
  }

  method ReleaseAndSync(
    ledger: L.AccountLedger, owner: L.Owner, outcome: Outcome, valuations: seq<(L.Owner, Float)>, env: Env)
    returns (r: Result)
    modifies ledger
    ensures (ledger.View(), r) == SettleLedger(old(ledger.View()), owner, outcome, valuations, env)
  {
    hide L.OpenEntries, L.Sound, L.Adjusted;
    if outcome.Failed? {
      return LaneFailed;
    }
    if outcome.record.Some? && !env.journal {
      return JournalFailed;
    }
    if outcome.released.Some? {
      if !env.lookup {
        return LookupFailed;
      }
      var ok := ledger.ReleasePosition(owner, Finite(outcome.released.value));
      if !ok {
        return InvalidReleaseAmount;
      }
    }
    if !env.sync {
      return SyncFailed;
    }
    ledger.ReplaceLaneOpen(valuations);
    r := Settled;
  }

  /** The same on the live objects; `lanes` holds the views of all lanes of the account. */
  method ApplyProcessBarStateEffects(
    ledger: L.AccountLedger, lane: LaneRuntime, lanes: Lanes, i: nat,
    close: Float, order: Option<Order>, decision: RiskDecision, env: Env)
    returns (r: Result)
    requires i < |lanes| && lanes[i].1 == lane.View() && Coherent(lane.View())
    modifies ledger, lane
    ensures (ledger.View(), lane.View(), r) == old(Settle(ledger.View(), lanes, i, close, order, decision, env))
  {
    hide FillState, NextHasPosition, Coherent, SettleLedger, Valuations;
    var (owner, _) := lanes[i];
    var outcome := lane.ApplyProcessBarFillState(close, NextHasPosition(lane.hasPosition, decision), order, decision);
    var seen := Lane(lane.hasPosition, lane.quantity, lane.notional, lane.entryPrice, lane.realized,
                     Inventory(lane.inventory.lot, lane.inventory.pnl));
    r := ReleaseAndSync(ledger, owner, outcome, Valuations(lanes[i := (owner, seen)]), env);
  }

  // ----- One settlement -----

  /** A settled lane stays coherent, whatever the order. */
  lemma SettleKeepsCoherent(
    l: L.Ledger, lanes: Lanes, i: nat, close: Float, order: Option<Order>, decision: RiskDecision, env: Env)
    requires i < |lanes| && Coherent(lanes[i].1)
    ensures Coherent(Settle(l, lanes, i, close, order, decision, env).1)
  {
    var lane := lanes[i].1;
    StepFollows(lane, lane.inventory, Event(decision, order, close));
  }

  /** An order to open is taken when it is too small to matter, or large and priced enough. */
  predicate OpenIsTaken(order: Order) {
    !Above(OpenQuantity(order), EPSILON) || (Sanitize(order.quantity) > TOLERANCE && Sanitize(order.price) > TOLERANCE)
  }

  /** A close releases something: more than the tolerance, bought and valued at positive prices. */
  predicate CloseIsTaken(lane: Lane, order: Order, close: Float)
    requires Coherent(lane)
  {
    && CloseQuantity(order, EffectiveQuantity(lane)) > TOLERANCE
    && Sanitize(order.price) > TOLERANCE
    && Sanitize(close) > 0.0
  }

  ghost predicate Settles(lane: Lane, close: Float, order: Option<Order>, decision: RiskDecision, env: Env)
    requires Coherent(lane)
  {
    && env.sync
    && (decision.Allow? && order.Some? ==>
          && (Opens(decision.intent) ==> env.journal && OpenIsTaken(order.value))
          && (Closes(decision.intent) ==> env.journal && env.lookup && CloseIsTaken(lane, order.value, close)))
  }

  /**
   * Settling completes exactly when the ledger syncs, and an order can be taken, its record is
   * written, and for a close the owner is found. Anything without an order settles as it is.
   */
  lemma SettlesWhen(
    l: L.Ledger, lanes: Lanes, i: nat, close: Float, order: Option<Order>, decision: RiskDecision, env: Env)
    requires i < |lanes| && Coherent(lanes[i].1)
    ensures Settle(l, lanes, i, close, order, decision, env).2.Settled? <==> Settles(lanes[i].1, close, order, decision, env)
  {
    var lane := lanes[i].1;
    if decision.Allow? && order.Some? && Opens(decision.intent) {
      OpenFailsWhen(lane, close, order.value, decision);
    } else if decision.Allow? && order.Some? && Closes(decision.intent) {
      CloseFailsWhen(lane, close, order.value, decision);
    }
    SettlesUnlessFailed(l, lanes, i, close, order, decision, env);
    hide Settle, FillState, OpenIsTaken, CloseQuantity, EffectiveQuantity;
  }

  lemma SettlesUnlessFailed(
    l: L.Ledger, lanes: Lanes, i: nat, close: Float, order: Option<Order>, decision: RiskDecision, env: Env)
    requires i < |lanes| && Coherent(lanes[i].1)
    ensures var lane := lanes[i].1;
            var trades := decision.Allow? && !decision.intent.NoOp? && order.Some?;
            var closes := trades && Closes(decision.intent);
            var q := if closes then CloseQuantity(order.value, EffectiveQuantity(lane)) else 0.0;
            Settle(l, lanes, i, close, order, decision, env).2.Settled? <==>
            && env.sync
            && !LaneStep(lane, Event(decision, order, close)).1.Failed?
            && (trades ==> env.journal)
            && (closes ==> env.lookup && q > TOLERANCE && Sanitize(close) > 0.0)
  {
    hide FillLane, WithSyncedInventory, CloseQuantity, L.OpenEntries, Record;
    var lane := lanes[i].1;
    if decision.Allow? && Closes(decision.intent) && order.Some? {
      ReleaseIsValid(CloseQuantity(order.value, EffectiveQuantity(lane)), close);
    }
  }

  lemma OpenFailsWhen(lane: Lane, close: Float, order: Order, decision: RiskDecision)
    requires Coherent(lane) && decision.Allow? && Opens(decision.intent)
    ensures LaneStep(lane, Event(decision, Some(order), close)).1.Failed? <==> !OpenIsTaken(order)
  {
    hide WithSyncedFields, Record, Filled;
    assert Sanitize(OpenQuantity(order)) == Sanitize(order.quantity);
  }

  lemma CloseFailsWhen(lane: Lane, close: Float, order: Order, decision: RiskDecision)
    requires Coherent(lane) && decision.Allow? && Closes(decision.intent)
    ensures var q := CloseQuantity(order, EffectiveQuantity(lane));
            LaneStep(lane, Event(decision, Some(order), close)).1.Failed? <==>
            q > EPSILON && (q <= TOLERANCE || Sanitize(order.price) <= TOLERANCE)
  {
    hide WithSyncedFields, Record, Filled, CloseQuantity;
  }

  lemma ReleaseIsValid(q: real, close: Float)
    ensures L.ValidRelease(Finite(Notional(Finite(q), close))) <==> q > TOLERANCE && close.Finite? && close.value > 0.0
  {
    if q > TOLERANCE && close.Finite? {
      if close.value > 0.0 {
        MulPositive(q, close.value);
      } else {
        ScaleUp(close.value, 0.0, q);
      }
    }
  }

  /**
   * The price test matters: with no positive closing price the lane has already sold when the
   * release is refused, and the ledger keeps the old valuation until the next sync.
   */
  lemma PricelessCloseLeavesLedgerBehind(owner: L.Owner, l: L.Ledger)
    ensures var held := Lane(true, 1.0, 10.0, Some(10.0), 0.0, Inventory(Some(Lot(1.0, 10.0)), Pnl(0.0, 0.0, 0.0)));
            var half := Order(Finite(0.5), Finite(10.0), None, None, None);
            var (after, lane, r) := Settle(l, [(owner, held)], 0, Finite(0.0), Some(half), Allow(ReduceLong), Env(true, true, true));
            Coherent(held) && after == l && lane.quantity == 0.5 && r == InvalidReleaseAmount
  {
  }

  // ----- What a settlement that stops has done to the ledger -----

  /** What the release of a close took off, if it went through. */
  ghost function ReleasedBy(lane: Lane, close: Float, order: Option<Order>, decision: RiskDecision, env: Env): real
    requires Coherent(lane)
  {
    if decision.Allow? && Closes(decision.intent) && order.Some? && env.journal && env.lookup &&
       CloseIsTaken(lane, order.value, close)
    then Notional(Finite(CloseQuantity(order.value, EffectiveQuantity(lane))), close)
    else 0.0
  }

  /** A settlement that does not complete has moved the ledger only by a release that went through. */
  lemma UnsettledLedger(
    l: L.Ledger, lanes: Lanes, i: nat, close: Float, order: Option<Order>, decision: RiskDecision, env: Env)
    requires i < |lanes| && Coherent(lanes[i].1) && !Settle(l, lanes, i, close, order, decision, env).2.Settled?
    ensures var taken := ReleasedBy(lanes[i].1, close, order, decision, env);
            && Settle(l, lanes, i, close, order, decision, env).0 ==
               l.(open := if taken > 0.0 then L.Adjusted(l.open, lanes[i].0, -taken) else l.open)
            && taken >= 0.0
  {
    var lane := lanes[i].1;
    if decision.Allow? && order.Some? && Opens(decision.intent) {
      OpenFailsWhen(lane, close, order.value, decision);
    } else if decision.Allow? && order.Some? && Closes(decision.intent) {
      CloseFailsWhen(lane, close, order.value, decision);
      ReleaseIsValid(CloseQuantity(order.value, EffectiveQuantity(lane)), close);
    }
    hide FillLane, WithSyncedInventory, CloseQuantity, EffectiveQuantity, L.OpenEntries, Record, Notional, L.Adjusted;
  }
}
