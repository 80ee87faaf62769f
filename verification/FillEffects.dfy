/**
 * What a fill does, in plain figures: to an inventory, to the lane that caches it, and to
 * the profit it realises.
 */
module FillEffects {
  import opened Options
  import opened Floats
  import opened Inventories
  import opened LanePositions

  predicate Positive(x: Float) { x.Finite? && x.value > 0.0 }

  /** More than the tolerance. */
  predicate Ample(x: Float) { x.Finite? && x.value > TOLERANCE }

  /** What a fee costs: its dollar value, where that is positive and finite. */
  function FeeCost(fee: Option<FeeEntry>): real {
    if fee.Some? && fee.value.normalizedUsd.Some? && Positive(fee.value.normalizedUsd.value)
    then fee.value.normalizedUsd.value.value else 0.0
  }

  // ----- The inventory -----

  /** Why a fill is refused: its quantity, then its price, then a sale of more than is held. */
  lemma RefusalOnInputs(inv: Inventory, f: Fill)
    ensures var held := if inv.lot.Some? then inv.lot.value.quantity else 0.0;
            FillError(inv, f) ==
            if !Ample(f.quantity) then Some(InvalidQuantity)
            else if !Ample(f.price) then Some(InvalidPrice)
            else if f.side.Sell? && (inv.lot.None? || f.quantity.value > held + TOLERANCE) then Some(InsufficientQuantity)
            else None
  {
  }

  /** A purchase adds its quantity, spreads its price and fee over the lot, and realises nothing. */
  lemma PurchaseOnInputs(inv: Inventory, q: real, p: real, fee: Option<FeeEntry>)
    requires Sound(inv) && q > TOLERANCE && p > TOLERANCE
    ensures var held, cost := if inv.lot.Some? then inv.lot.value.quantity else 0.0,
                              if inv.lot.Some? then inv.lot.value.averageCost else 0.0;
            var next := Filled(inv, Fill(Buy, Finite(q), Finite(p), fee));
            && next.pnl == inv.pnl && next.lot.Some?
            && next.lot.value.quantity == held + q
            && next.lot.value.averageCost * (held + q) == held * cost + q * p + FeeCost(fee)
  {
    BuyBasis(inv, Fill(Buy, Finite(q), Finite(p), fee));
    BuyIsSound(inv, Fill(Buy, Finite(q), Finite(p), fee));
  }

  /** A sale takes its quantity off the lot at unchanged cost and realises the price difference less the fee. */
  lemma SaleOnInputs(inv: Inventory, q: real, p: real, fee: Option<FeeEntry>)
    requires Sound(inv) && inv.lot.Some? && p > TOLERANCE && TOLERANCE < q <= inv.lot.value.quantity + TOLERANCE
    ensures var lot := inv.lot.value;
            var next := Filled(inv, Fill(Sell, Finite(q), Finite(p), fee));
            && next.lot == (if lot.quantity - q > TOLERANCE then Some(Lot(lot.quantity - q, lot.averageCost)) else None)
            && next.pnl.gross == inv.pnl.gross + (p - lot.averageCost) * q
            && next.pnl.fees == inv.pnl.fees + FeeCost(fee)
            && next.pnl.net == inv.pnl.net + (p - lot.averageCost) * q - FeeCost(fee)
  {
  }

  /** An inventory restored from a position holds a lot only for an ample quantity with a positive entry price;
      a profit that is no number counts as none. */
  lemma RestoreOnInputs(quantity: Float, entryPrice: Option<Float>, realized: Float)
    ensures var inv := FromPositionState(quantity, entryPrice, realized);
            && inv.lot == (if Ample(quantity) && entryPrice.Some? && Positive(entryPrice.value)
                           then Some(Lot(quantity.value, entryPrice.value.value)) else None)
            && inv.pnl.fees == 0.0 && inv.pnl.gross == inv.pnl.net
            && inv.pnl.net == (if realized.Finite? then realized.value else 0.0)
  {
  }

  // ----- The lane -----

  /** What the fee fields of an order cost: the dollar amount counts only beside an asset and a positive amount. */
  function OrderFeeCost(order: Order): real {
    if order.feeAsset.Some? && order.feeAmount.Some? && Positive(order.feeAmount.value) &&
       order.feeUsd.Some? && Positive(order.feeUsd.value)
    then order.feeUsd.value.value else 0.0
  }

  lemma FeeOfOrder(order: Order)
    ensures FeeCost(OrderFee(order)) == OrderFeeCost(order)
    ensures OrderFee(order).Some? <==> order.feeAsset.Some? && order.feeAmount.Some? && Positive(order.feeAmount.value)
    ensures OrderFee(order).Some? ==>
              && OrderFee(order).value.asset == order.feeAsset.value && OrderFee(order).value.amount == order.feeAmount.value
              && OrderFee(order).value.normalizedUsd ==
                 if order.feeUsd.Some? && Positive(order.feeUsd.value) then order.feeUsd else None
  {
  }

  /** How much of a holding an order to sell asks for: nothing below zero or unheard of, at most all. */
  predicate Asks(q: Float, held: real, sold: real) {
    match q
    case Finite(n) => sold == if n <= 0.0 then 0.0 else if n <= held then n else held
    case PosInf => sold == held
    case _ => sold == 0.0
  }

  /** What `q` is worth at a close; a close that is no number is worth nothing. */
  function At(q: real, close: Float): real { if q > TOLERANCE && close.Finite? then q * close.value else 0.0 }

  lemma SoldIsAsked(order: Order, held: real)
    requires held >= 0.0
    ensures Asks(order.quantity, held, CloseQuantity(order, held))
  {
  }

  /** The cached fields did not move. */
  predicate Kept(l: Lane, l': Lane) {
    && l'.hasPosition == l.hasPosition && l'.quantity == l.quantity && l'.notional == l.notional
    && l'.entryPrice == l.entryPrice && l'.realized == l.realized && l'.inventory.lot == l.inventory.lot
  }

  function RecordOf(l: Lane): PositionRecord { PositionRecord(l.hasPosition, l.quantity, l.entryPrice, l.realized) }

  /** A holding valued at the close, or at cost when the close is no price; prices within the tolerance value nothing. */
  function ValueOf(q: real, cost: real, close: Float): real {
    var price := if Positive(close) then close.value else cost;
    if q > TOLERANCE && price > TOLERANCE then q * price else 0.0
  }

  /** The cached fields say what the inventory holds. */
  predicate Shows(l: Lane, inv: Inventory, close: Float) {
    && l.inventory == inv
    && l.quantity == (if inv.lot.Some? then inv.lot.value.quantity else 0.0)
    && l.entryPrice == (if inv.lot.Some? then Some(inv.lot.value.averageCost) else None)
    && l.realized == inv.pnl.net
    && l.hasPosition == inv.lot.Some?
    && l.notional == (if inv.lot.Some? then ValueOf(inv.lot.value.quantity, inv.lot.value.averageCost, close) else 0.0)
  }

  lemma SyncedShows(l: Lane, close: Float)
    requires Sound(l.inventory)
    ensures Shows(WithSyncedFields(l, close), l.inventory, close)
    ensures Record(WithSyncedFields(l, close)) == RecordOf(WithSyncedFields(l, close))
  {
  }

  function Rebuilt(l: Lane): Inventory { Inventory(l.inventory.lot, Pnl(l.realized, 0.0, l.realized)) }

  lemma FilledFields(l: Lane, close: Float, fill: Fill)
    requires Coherent(l) && FillError(l.inventory, fill).None?
    ensures Sound(Rebuilt(l)) && FillLane(l, close, fill).1.None?
    ensures Shows(FillLane(l, close, fill).0, Filled(Rebuilt(l), fill), close)
    ensures Record(FillLane(l, close, fill).0) == RecordOf(FillLane(l, close, fill).0)
  {
    SyncedInventory(l);
    var synced := WithSyncedInventory(l);
    assert FillError(synced.inventory, fill).None?;
    SyncedShows(synced.(inventory := Filled(synced.inventory, fill)), close);
    hide Filled, FillError, WithSyncedInventory, WithSyncedFields, Record, Shows;
  }

  lemma SellSteps(l: Lane, close: Float, nextHas: bool, order: Order, decision: RiskDecision, sold: real)
    requires Coherent(l) && (decision == Allow(CloseLong) || decision == Allow(ReduceLong))
    requires Asks(order.quantity, l.quantity, sold)
    ensures var (l', error) := FillLane(l, close, Fill(Sell, Finite(sold), order.price, OrderFee(order)));
            var r := FillState(l, close, nextHas, Some(order), decision);
            if sold <= EPSILON then Kept(l, r.0) && r.1 == Applied(Some(RecordOf(l)), Some(0.0))
            else if error.Some? then r == (l', Failed(error.value))
            else r == (l', Applied(Some(Record(l')), Some(At(sold, close))))
  {
    assert EffectiveQuantity(l) == l.quantity;
    SoldIsAsked(order, l.quantity);
    SyncedInventory(l);
    assert CloseQuantity(order, l.quantity) == sold;
    assert SellFill(order, l.quantity) == Fill(Sell, Finite(sold), order.price, OrderFee(order));
    assert Notional(Finite(sold), close) == At(sold, close);
    hide FillLane, CloseQuantity, OrderFee, SellFill, Notional, At, Record;
    assert sold <= EPSILON ==> At(sold, close) == 0.0;
  }

  lemma BuySteps(l: Lane, close: Float, nextHas: bool, order: Order, decision: RiskDecision)
    requires Coherent(l) && (decision == Allow(OpenLong) || decision == Allow(AddLong))
    ensures var (l', error) := FillLane(l, close, BuyFill(order));
            FillState(l, close, nextHas, Some(order), decision) ==
            if Trifle(order.quantity) then (l, Applied(Some(RecordOf(l)), None))
            else if error.Some? then (l', Failed(error.value))
            else (l', Applied(Some(Record(l')), None))
    ensures !Trifle(order.quantity) ==> BuyFill(order) == Fill(Buy, order.quantity, order.price, OrderFee(order))
  {
    assert EffectiveQuantity(l) == l.quantity;
    hide FillLane, OrderFee;
  }

  lemma RefusedFields(l: Lane, close: Float, fill: Fill)
    requires Coherent(l) && FillError(l.inventory, fill).Some?
    ensures FillLane(l, close, fill).1 == FillError(l.inventory, fill) && Kept(l, FillLane(l, close, fill).0)
  {
    SyncedInventory(l);
  }

  /** The lane has sold `sold` at `p`: less is held, at unchanged cost, and the difference in price less the fee is realised. */
  predicate Sold(l: Lane, l': Lane, sold: real, p: real, fee: real, close: Float) {
    var left := l.quantity - sold;
    && l.entryPrice.Some?
    && l'.quantity == (if left > TOLERANCE then left else 0.0)
    && l'.entryPrice == (if left > TOLERANCE then l.entryPrice else None)
    && (l'.hasPosition <==> left > TOLERANCE)
    && l'.realized == l.realized + (p - l.entryPrice.value) * sold - fee
    && l'.notional == ValueOf(left, l.entryPrice.value, close)
  }

  /** The lane has bought `q` at `p`: more is held, price and fee averaged into its cost, and nothing is realised. */
  predicate Bought(l: Lane, l': Lane, q: real, p: real, fee: real, close: Float) {
    var cost := if l.entryPrice.Some? then l.entryPrice.value else 0.0;
    && l'.quantity == l.quantity + q
    && l'.entryPrice.Some?
    && l'.entryPrice.value * l'.quantity == l.quantity * cost + q * p + fee
    && l'.hasPosition && l'.realized == l.realized
    && l'.notional == ValueOf(l'.quantity, l'.entryPrice.value, close)
  }

  lemma SaleShows(l: Lane, l': Lane, sold: real, p: real, fee: Option<FeeEntry>, close: Float)
    requires Coherent(l) && TOLERANCE < sold <= l.quantity && p > TOLERANCE && Sound(Rebuilt(l))
    requires Shows(l', Filled(Rebuilt(l), Fill(Sell, Finite(sold), Finite(p), fee)), close)
    ensures Sold(l, l', sold, p, FeeCost(fee), close)
  {
    SaleOnInputs(Rebuilt(l), sold, p, fee);
    hide Filled, FeeCost;
  }

  lemma PurchaseShows(l: Lane, l': Lane, q: real, p: real, fee: Option<FeeEntry>, close: Float)
    requires Coherent(l) && q > TOLERANCE && p > TOLERANCE && Sound(Rebuilt(l))
    requires Shows(l', Filled(Rebuilt(l), Fill(Buy, Finite(q), Finite(p), fee)), close)
    ensures Bought(l, l', q, p, FeeCost(fee), close)
  {
    PurchaseOnInputs(Rebuilt(l), q, p, fee);
    hide Filled, FeeCost, ValueOf;
  }

  /**
   * An accepted sale takes what was asked for, and no more than is held, off the holding, and releases its
   * value at the close. A sale of next to nothing changes nothing; one too small or unpriced fails and
   * changes nothing.
   */
  lemma LaneSaleOnInputs(l: Lane, close: Float, nextHas: bool, order: Order, decision: RiskDecision, sold: real)
    requires Coherent(l) && (decision == Allow(CloseLong) || decision == Allow(ReduceLong))
    requires Asks(order.quantity, l.quantity, sold)
    ensures var (l', outcome) := FillState(l, close, nextHas, Some(order), decision);
            if sold > TOLERANCE && Ample(order.price) then
              && Sold(l, l', sold, order.price.value, OrderFeeCost(order), close)
              && outcome == Applied(Some(RecordOf(l')), Some(At(sold, close)))
            else
              && Kept(l, l')
              && outcome == if sold > TOLERANCE then Failed(InvalidPrice)
                            else if sold > EPSILON then Failed(InvalidQuantity)
                            else Applied(Some(RecordOf(l)), Some(0.0))
  {
    SellSteps(l, close, nextHas, order, decision, sold);
    var fill := Fill(Sell, Finite(sold), order.price, OrderFee(order));
    RefusalOnInputs(l.inventory, fill);
    if sold > TOLERANCE && Ample(order.price) {
      assert sold <= l.quantity && order.price == Finite(order.price.value);
      FilledFields(l, close, fill);
      FeeOfOrder(order);
      hide *;
      SaleShows(l, FillLane(l, close, fill).0, sold, order.price.value, OrderFee(order), close);
    } else if sold > EPSILON {
      RefusedFields(l, close, fill);
      hide FillState, FillLane, FillError, Kept, At, Record;
    } else {
      hide FillState, FillLane;
    }
  }

  /** A purchase of next to nothing; anything above it is tried. */
  predicate Trifle(q: Float) { !(q.PosInf? || (q.Finite? && q.value > EPSILON)) }

  /**
   * An accepted purchase adds to the holding. One of next to nothing changes nothing; one too small or
   * unpriced fails and changes nothing.
   */
  lemma LanePurchaseOnInputs(l: Lane, close: Float, nextHas: bool, order: Order, decision: RiskDecision)
    requires Coherent(l) && (decision == Allow(OpenLong) || decision == Allow(AddLong))
    ensures var (l', outcome) := FillState(l, close, nextHas, Some(order), decision);
            if Ample(order.quantity) && Ample(order.price) then
              && Bought(l, l', order.quantity.value, order.price.value, OrderFeeCost(order), close)
              && outcome == Applied(Some(RecordOf(l')), None)
            else
              && Kept(l, l')
              && outcome == if Trifle(order.quantity) then Applied(Some(RecordOf(l)), None)
                            else if !Ample(order.quantity) then Failed(InvalidQuantity)
                            else Failed(InvalidPrice)
  {
    BuySteps(l, close, nextHas, order, decision);
    var fill := BuyFill(order);
    if Ample(order.quantity) && Ample(order.price) {
      assert fill == Fill(Buy, Finite(order.quantity.value), Finite(order.price.value), OrderFee(order));
      RefusalOnInputs(l.inventory, fill);
      FilledFields(l, close, fill);
      FeeOfOrder(order);
      assert order.quantity.value > TOLERANCE && order.price.value > TOLERANCE && !Trifle(order.quantity);
      hide *;
      PurchaseShows(l, FillLane(l, close, fill).0, order.quantity.value, order.price.value, OrderFee(order), close);
    } else if !Trifle(order.quantity) {
      RefusalOnInputs(l.inventory, fill);
      RefusedFields(l, close, fill);
      hide FillState, FillLane, FillError, BuyFill, Kept, Record;
    } else {
      hide FillState, FillLane;
    }
  }

  /** Without an order, or without leave to trade, nothing is bought or sold. */
  lemma LaneQuietOnInputs(l: Lane, close: Float, nextHas: bool, order: Option<Order>, decision: RiskDecision)
    requires Coherent(l)
    ensures decision == Reject || decision == Allow(NoOp) ==>
              FillState(l, close, nextHas, order, decision) == (l.(hasPosition := nextHas), Applied(None, None))
    ensures decision != Reject && decision != Allow(NoOp) ==>
              FillState(l, close, nextHas, None, decision) == (l, Applied(None, None))
    ensures decision == Reject || decision == Allow(NoOp) ==> NextHasPosition(l.hasPosition, decision) == l.hasPosition
  {
  }

  /** What a lane holds: the inventory's lot where it is ample, else the cached quantity where that is, else nothing,
      whether or not the two agree. */
  lemma HeldOnInputs(l: Lane)
    ensures var stored := l.inventory.lot.Some? && l.inventory.lot.value.quantity > TOLERANCE;
            && (stored ==> EffectiveQuantity(l) == l.inventory.lot.value.quantity)
            && (!stored && l.quantity > TOLERANCE ==> EffectiveQuantity(l) == l.quantity)
            && (!stored && l.quantity <= TOLERANCE ==> EffectiveQuantity(l) == 0.0)
  {
  }

  /** Marking a lane to a bar's close values what it holds at that close. */
  lemma MarkOnInputs(l: Lane, close: Float)
    requires Coherent(l)
    ensures Marked(l, close) == l.(notional := At(l.quantity, close))
  {
  }
}
