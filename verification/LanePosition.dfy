/**
 * The position of a lane, kept twice: in the inventory of the ledger crate and
 * in fields cached on the lane.  The two are proved to follow one pure
 * average-cost fold.
 */
module LanePositions {
  import opened Options
  import opened Floats
  import opened Inventories

  datatype TradeIntent = NoOp | OpenLong | AddLong | ReduceLong | CloseLong

  datatype RiskDecision = Allow(intent: TradeIntent) | Reject

  datatype Order = Order(
    quantity: Float,
    price: Float,
    feeAsset: Option<string>,
    feeAmount: Option<Float>,
    feeUsd: Option<Float>)

  datatype Lane = Lane(
    hasPosition: bool,
    quantity: real,
    notional: real,
    entryPrice: Option<real>,
    realized: real,
    inventory: Inventory)

  datatype PositionRecord =
    PositionRecord(hasPosition: bool, quantity: real, entryPrice: Option<real>, realized: real)

  datatype Outcome =
    | Applied(record: Option<PositionRecord>, released: Option<real>)
    | Failed(error: InventoryError)

  predicate Opens(intent: TradeIntent) { intent.OpenLong? || intent.AddLong? }

  predicate Closes(intent: TradeIntent) { intent.CloseLong? || intent.ReduceLong? }

  function PositionTransition(hasPosition: bool, intent: TradeIntent): bool {
    if Opens(intent) then true else if Closes(intent) then false else hasPosition
  }

  /** The `next_has_position` that an evaluation hands to the fill step. */
  function NextHasPosition(hasPosition: bool, decision: RiskDecision): bool {
    if decision.Allow? then PositionTransition(hasPosition, decision.intent) else hasPosition
  }

  function OrderFee(order: Order): Option<FeeEntry> {
    if order.feeAsset.Some? && order.feeAmount.Some? && Sanitize(order.feeAmount.value) > 0.0 then
      Some(FeeEntry(order.feeAsset.value, order.feeAmount.value,
                    if order.feeUsd.Some? && Sanitize(order.feeUsd.value) > 0.0 then order.feeUsd else None))
    else None
  }

  // -------------------------------------------------- what each update means

  function AsFloat(x: Option<real>): Option<Float> {
    if x.Some? then Some(Finite(x.value)) else None
  }

  function EffectiveQuantity(l: Lane): real {
    if Quantity(l.inventory) > TOLERANCE then Quantity(l.inventory)
    else if l.quantity > TOLERANCE then l.quantity
    else 0.0
  }

  function WithSyncedInventory(l: Lane): Lane {
    l.(inventory := FromPositionState(Finite(l.quantity), AsFloat(l.entryPrice), Finite(l.realized)))
  }

  function PositionNotional(inv: Inventory, price: Option<Float>): real {
    if price.None? || Sanitize(price.value) <= TOLERANCE then 0.0
    else Notional(Finite(Quantity(inv)), Finite(Sanitize(price.value)))
  }

  /** Overwrites the cached fields from the inventory. */
  function WithSyncedFields(l: Lane, valuation: Float): Lane {
    var inv := l.inventory;
    var has := Quantity(inv) > TOLERANCE;
    var price := if Sanitize(valuation) > 0.0 then Some(valuation) else AsFloat(AverageCost(inv));
    Lane(has, Quantity(inv), if has then PositionNotional(inv, price) else 0.0,
         AverageCost(inv), inv.pnl.net, inv)
  }

  /** Evaluating a bar values the holding at the bar's close. */
  function Marked(l: Lane, close: Float): Lane {
    l.(notional := Notional(Finite(EffectiveQuantity(l)), close))
  }

  function Record(l: Lane): PositionRecord {
    PositionRecord(l.hasPosition, EffectiveQuantity(l), l.entryPrice, l.realized)
  }

  predicate Above(q: Float, bound: real) { !Le(q, Finite(bound)) && !q.NaN? }

  function OpenQuantity(order: Order): Float { FMax(order.quantity, Finite(0.0)) }

  function BuyFill(order: Order): Fill {
    Fill(Buy, OpenQuantity(order), order.price, OrderFee(order))
  }

  /** Sells are clamped to the holding. */
  function CloseQuantity(order: Order, held: real): (q: real)
    requires held >= 0.0
    ensures 0.0 <= q <= held
  {
    var q := FMin(FMax(order.quantity, Finite(0.0)), Finite(held));
    q.value
  }

  function SellFill(order: Order, held: real): Fill
    requires held >= 0.0
  {
    Fill(Sell, Finite(CloseQuantity(order, held)), order.price, OrderFee(order))
  }

  /** Cached fields and inventory say the same thing. */
  predicate Coherent(l: Lane) {
    && Sound(l.inventory)
    && l.quantity == Quantity(l.inventory)
    && l.entryPrice == AverageCost(l.inventory)
    && l.realized == l.inventory.pnl.net
    && (l.hasPosition <==> l.quantity > TOLERANCE)
  }

  /** Rebuilding the inventory of a coherent lane only forgets how net profit
      splits into gross profit and fees. */
  lemma SyncedInventory(l: Lane)
    requires Coherent(l)
    ensures WithSyncedInventory(l).inventory ==
            Inventory(l.inventory.lot, Pnl(l.realized, 0.0, l.realized))
    ensures Coherent(WithSyncedInventory(l))
  {
  }

  function FillLane(l: Lane, close: Float, fill: Fill): (Lane, Option<InventoryError>)
    requires Coherent(l)
  {
    var synced := WithSyncedInventory(l);
    var error := FillError(synced.inventory, fill);
    if error.Some? then (synced, error)
    else (WithSyncedFields(synced.(inventory := Filled(synced.inventory, fill)), close), None)
  }

  function FillState(l: Lane, close: Float, nextHas: bool, order: Option<Order>, decision: RiskDecision): (Lane, Outcome)
    requires Coherent(l)
  {
    if decision.Reject? || decision.intent.NoOp? then
      (l.(hasPosition := nextHas), Applied(None, None))
    else if order.None? then
      (l, Applied(None, None))
    else if Opens(decision.intent) then
      if !Above(OpenQuantity(order.value), EPSILON) then (l, Applied(Some(Record(l)), None))
      else
        var (l', error) := FillLane(l, close, BuyFill(order.value));
        if error.Some? then (l', Failed(error.value)) else (l', Applied(Some(Record(l')), None))
    else
      var held := EffectiveQuantity(l);
      var q := CloseQuantity(order.value, held);
      var released := Notional(Finite(q), close);
      if q <= EPSILON then
        var l' := WithSyncedInventory(l);
        (l', Applied(Some(Record(l')), Some(released)))
      else
        var (l', error) := FillLane(l, close, SellFill(order.value, held));
        if error.Some? then (l', Failed(error.value)) else (l', Applied(Some(Record(l')), Some(released)))
  }

  // --------------------------------------------------------- the live object

  class LaneRuntime {
    var hasPosition: bool
    var quantity: real
    var notional: real
    var entryPrice: Option<real>
    var realized: real
    var inventory: InventoryState

    ghost function View(): Lane
      reads this, inventory
    {
      Lane(hasPosition, quantity, notional, entryPrice, realized, inventory.View())
    }

    constructor Flat()
      ensures View() == FLAT
      ensures Coherent(View()) && fresh(inventory)
    {
      hasPosition, quantity, notional, entryPrice, realized := false, 0.0, 0.0, None, 0.0;
      inventory := new InventoryState(EMPTY);
    }

    method HeldQuantity() returns (q: real)
      ensures q == EffectiveQuantity(View())
    {
      var stored := Quantity(Inventory(inventory.lot, inventory.pnl));
      q := if stored > TOLERANCE then stored else if quantity > TOLERANCE then quantity else 0.0;
    }

    method CurrentRecord() returns (r: PositionRecord)
      ensures r == Record(View())
    {
      var held := HeldQuantity();
      r := PositionRecord(hasPosition, held, entryPrice, realized);
    }

    method Mark(close: Float)
      modifies this`notional
      ensures View() == old(Marked(View(), close))
    {
      var held := HeldQuantity();
      notional := Notional(Finite(held), close);
    }

    method SyncInventory()
      modifies this`inventory
      ensures View() == old(WithSyncedInventory(View())) && fresh(inventory)
    {
      inventory := new InventoryState(
        FromPositionState(Finite(quantity), AsFloat(entryPrice), Finite(realized)));
    }

    method SyncFields(valuation: Float)
      modifies this
      ensures View() == old(WithSyncedFields(View(), valuation)) && inventory == old(inventory)
    {
      var inv := Inventory(inventory.lot, inventory.pnl);
      quantity := Quantity(inv);
      hasPosition := quantity > TOLERANCE;
      entryPrice := AverageCost(inv);
      realized := inv.pnl.net;
      var price := if Sanitize(valuation) > 0.0 then Some(valuation) else AsFloat(entryPrice);
      notional := if hasPosition then PositionNotional(inv, price) else 0.0;
    }

    method ApplyFill(close: Float, fill: Fill) returns (error: Option<InventoryError>)
      requires Coherent(View())
      modifies this
      ensures fresh(inventory)
      ensures (View(), error) == old(FillLane(View(), close, fill))
    {
      SyncedInventory(View());
      SyncInventory();
      error := inventory.ApplyFill(fill);
      if error.Some? {
        return;
      }
      SyncFields(close);
    }

    method ApplyProcessBarFillState(close: Float, nextHas: bool, order: Option<Order>, decision: RiskDecision)
      returns (outcome: Outcome)
      requires Coherent(View())
      modifies this
      ensures inventory == old(inventory) || fresh(inventory)
      ensures (View(), outcome) == old(FillState(View(), close, nextHas, order, decision))
    {
      if decision.Reject? || decision.intent.NoOp? {
        hasPosition := nextHas;
        return Applied(None, None);
      }
      if order.None? {
        return Applied(None, None);
      }
      if Opens(decision.intent) {
        if Above(OpenQuantity(order.value), EPSILON) {
          var error := ApplyFill(close, BuyFill(order.value));
          if error.Some? {
            return Failed(error.value);
          }
        }
        var record := CurrentRecord();
        return Applied(Some(record), None);
      }
      var held := HeldQuantity();
      var q := CloseQuantity(order.value, held);
      var released := Notional(Finite(q), close);
      if q > EPSILON {
        var error := ApplyFill(close, SellFill(order.value, held));
        if error.Some? {
          return Failed(error.value);
        }
      } else {
        SyncInventory();
      }
      var record := CurrentRecord();
      outcome := Applied(Some(record), Some(released));
    }
  }

  // --------------------------------- refinement of the pure average-cost fold

  /** One bar's decision and the order it produced, if any. */
  datatype Event = Event(decision: RiskDecision, order: Option<Order>, close: Float)

  /** The reference: an accepted buy adds to the lot, an accepted sell is clamped to
      the holding, and nothing else moves the inventory. */
  function Reference(inv: Inventory, e: Event): (next: Inventory)
    requires Sound(inv)
    ensures Sound(next)
  {
    if e.decision.Reject? || e.order.None? then inv
    else if Opens(e.decision.intent) && Above(OpenQuantity(e.order.value), EPSILON) then
      Filled(inv, BuyFill(e.order.value))
    else if Closes(e.decision.intent) && CloseQuantity(e.order.value, Quantity(inv)) > EPSILON then
      Filled(inv, SellFill(e.order.value, Quantity(inv)))
    else inv
  }

  function LaneStep(l: Lane, e: Event): (Lane, Outcome)
    requires Coherent(l)
  {
    FillState(l, e.close, NextHasPosition(l.hasPosition, e.decision), e.order, e.decision)
  }

  /** Lane and reference hold the same quantity, entry price and realised profit. */
  predicate Follows(l: Lane, inv: Inventory) {
    && Coherent(l)
    && Sound(inv)
    && l.quantity == Quantity(inv)
    && l.entryPrice == AverageCost(inv)
    && l.realized == inv.pnl.net
  }

  lemma FollowedLot(l: Lane, inv: Inventory)
    requires Follows(l, inv)
    ensures l.inventory.lot == inv.lot
  {
    assert l.inventory.lot.Some? <==> inv.lot.Some?;
  }

  lemma FillFollows(l: Lane, inv: Inventory, close: Float, fill: Fill)
    requires Follows(l, inv)
    ensures Follows(FillLane(l, close, fill).0, Filled(inv, fill))
    ensures FillLane(l, close, fill).1 == FillError(inv, fill)
  {
    SyncedInventory(l);
    FollowedLot(l, inv);
    var synced := WithSyncedInventory(l).inventory;
    assert FillError(synced, fill) == FillError(inv, fill);
    assert Quantity(synced) == Quantity(inv) && Basis(synced) == Basis(inv);
    assert Filled(synced, fill).lot == Filled(inv, fill).lot;
  }

  /** One step follows the reference, and a close never fails for lack of holdings. */
  lemma StepFollows(l: Lane, inv: Inventory, e: Event)
    requires Follows(l, inv)
    ensures Follows(LaneStep(l, e).0, Reference(inv, e))
    ensures var outcome := LaneStep(l, e).1;
            outcome.Failed? && Closes(e.decision.intent) ==> outcome.error != InsufficientQuantity
  {
    SyncedInventory(l);
    if e.decision.Allow? && e.order.Some? {
      if Opens(e.decision.intent) {
        FillFollows(l, inv, e.close, BuyFill(e.order.value));
      } else if Closes(e.decision.intent) {
        assert EffectiveQuantity(l) == Quantity(inv);
        FillFollows(l, inv, e.close, SellFill(e.order.value, Quantity(inv)));
      }
    }
  }

  function LaneRun(l: Lane, events: seq<Event>): Lane
    requires Coherent(l)
    decreases |events|
  {
    if events == [] then l
    else
      StepFollows(l, l.inventory, events[0]);
      LaneRun(LaneStep(l, events[0]).0, events[1..])
  }

  function ReferenceRun(inv: Inventory, events: seq<Event>): Inventory
    requires Sound(inv)
    decreases |events|
  {
    if events == [] then inv else ReferenceRun(Reference(inv, events[0]), events[1..])
  }

  /** After any sequence of opens, closes, no-ops and rejections the lane's cached
      quantity, entry price and realised profit are those of the pure fold, and it
      claims a position exactly when it holds more than the tolerance. */
  lemma {:induction false} LaneRefinesInventory(l: Lane, inv: Inventory, events: seq<Event>)
    requires Follows(l, inv)
    ensures Follows(LaneRun(l, events), ReferenceRun(inv, events))
    decreases |events|
  {
    if events != [] {
      StepFollows(l, inv, events[0]);
      StepFollows(l, l.inventory, events[0]);
      LaneRefinesInventory(LaneStep(l, events[0]).0, Reference(inv, events[0]), events[1..]);
    }
  }

  /** The fills that a run of events puts into the reference inventory. */
  function FillsOf(inv: Inventory, events: seq<Event>): seq<Fill>
    requires Sound(inv)
    decreases |events|
  {
    if events == [] then []
    else
      var e := events[0];
      var mine :=
        if e.decision.Reject? || e.order.None? then []
        else if Opens(e.decision.intent) && Above(OpenQuantity(e.order.value), EPSILON) then
          [BuyFill(e.order.value)]
        else if Closes(e.decision.intent) && CloseQuantity(e.order.value, Quantity(inv)) > EPSILON then
          [SellFill(e.order.value, Quantity(inv))]
        else [];
      mine + FillsOf(Reference(inv, e), events[1..])
  }

  lemma {:induction false} ReferenceIsFold(inv: Inventory, events: seq<Event>)
    requires Sound(inv)
    ensures ReferenceRun(inv, events) == Run(inv, FillsOf(inv, events))
    decreases |events|
  {
    if events != [] {
      var rest := FillsOf(Reference(inv, events[0]), events[1..]);
      ReferenceIsFold(Reference(inv, events[0]), events[1..]);
      var all := FillsOf(inv, events);
      if |all| == |rest| {
        assert all == rest;
      } else {
        assert all[1..] == rest;
      }
    }
  }

  const FLAT := Lane(false, 0.0, 0.0, None, 0.0, EMPTY)

  /** What the lane's cached fields say the holding cost. */
  function HeldCost(l: Lane): real {
    if l.entryPrice.Some? then l.quantity * l.entryPrice.value else 0.0
  }

  lemma HeldCostIsBasis(l: Lane, inv: Inventory)
    requires Follows(l, inv)
    ensures HeldCost(l) == Basis(inv)
  {
    FollowedLot(l, inv);
  }

  /** A lane that starts flat conserves cash: its realised profit is sale receipts less
      all-in purchase cost plus the cost of what it still holds, up to one tolerance of
      average cost per close-out. */
  lemma LaneProfitIsConserved(events: seq<Event>)
    ensures var fills := FillsOf(EMPTY, events);
            var last := LaneRun(FLAT, events);
            RAbs(last.realized - (Along(EMPTY, fills, Received) - Along(EMPTY, fills, Paid) + HeldCost(last)))
              <= Along(EMPTY, fills, DropAllowance)
  {
    var last, fills := LaneRun(FLAT, events), FillsOf(EMPTY, events);
    var inv := Run(EMPTY, fills);
    assert Follows(last, inv) by {
      LaneRefinesInventory(FLAT, EMPTY, events);
      ReferenceIsFold(EMPTY, events);
    }
    HeldCostIsBasis(last, inv);
    ProfitIsConserved(EMPTY, fills);
    assert last.realized == inv.pnl.net;
    assert Basis(EMPTY) == 0.0 && EMPTY.pnl.net == 0.0;
  }
}
