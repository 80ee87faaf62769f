/**
 * What the books of an account keep over any run of lane cycles, whichever of them
 * fail and wherever: what stays reserved, when ledger and lanes agree, and how far
 * the caps hold.
 */
module BookRuns {
  import opened Options
  import opened Floats
  import opened Sums
  import opened LanePositions
  import opened Settlement
  import opened AccountBooks
  import opened Inventories
  import L = Ledgers
  import E = Execution

  /** The cycle gets as far as acting on its risk decision. */
  predicate Executes(b: Books, w: Work) { w.lane < |b.lanes| && w.reach.Execution? }

  ghost function Run(b: Books, work: seq<Work>): (end: Books)
    requires ValidBooks(b)
    ensures ValidBooks(end)
    decreases |work|
  {
    if work == [] then b
    else
      var before := Run(b, work[..|work| - 1]);
      CycleKeepsValid(before, work[|work| - 1]);
      Cycle(before, work[|work| - 1]).0
  }

  // ----- What stays reserved -----

  /** A cycle moves the reserved map only by a stranded reservation or a nibble, and no other field but open. */
  lemma CycleReserved(b: Books, w: Work)
    requires ValidBooks(b)
    ensures var l := Cycle(b, w).0.ledger;
            l == b.ledger.(open := l.open, reserved := l.reserved)
    ensures Cycle(b, w).0.ledger.reserved ==
            if Executes(b, w) then E.ReservedAfter(Evaluated(b, w).ledger, RequestOf(b, w), w.effects)
            else b.ledger.reserved
  {
    hide E.Effects, E.ReservedAfter;
    if Executes(b, w) {
      EvaluatedIsValid(b, w);
      var e, rq := Evaluated(b, w), RequestOf(b, w);
      assert e.ledger == b.ledger.(open := e.ledger.open);
      E.EffectsFrame(e.ledger, rq, w.effects);
      E.ReservedOnExit(e.ledger, rq, w.effects);
      EffectsKeepSound(e.ledger, rq, w.effects);
      var (after, r) := E.Effects(e.ledger, rq, w.effects);
      if !r.EngineFailed? {
        SettleKeepsSound(after, e.lanes, w.lane, w.request.close, OrderOf(r, w.fees), w.request.decision, w.settle);
      }
      hide Settle, Evaluated;
    }
  }

  /** What a nibble takes from an owner that holds `held`: the amount, or everything rather than a residue. */
  function Nibbled(held: real, amount: real): real { if held - amount > TOLERANCE then amount else held }

  /** What one cycle leaves reserved for an owner beyond what was there. */
  ghost function Left(b: Books, w: Work, o: L.Owner): real {
    if !Executes(b, w) || o != RequestOf(b, w).owner then 0.0
    else
      var e, rq := Evaluated(b, w).ledger, RequestOf(b, w);
      if E.Strands(e, rq, w.effects) then E.ReserveAmount(rq)
      else if E.Nibbles(e, rq, w.effects) then -Nibbled(Get(b.ledger.reserved, o), E.ReserveAmount(rq))
      else 0.0
  }

  ghost function AllLeft(b: Books, work: seq<Work>, o: L.Owner): real
    requires ValidBooks(b)
    decreases |work|
  {
    if work == [] then 0.0
    else
      var n := |work| - 1;
      AllLeft(b, work[..n], o) + Left(Run(b, work[..n]), work[n], o)
  }

  lemma CycleLeaves(b: Books, w: Work, o: L.Owner)
    requires ValidBooks(b)
    ensures Get(Cycle(b, w).0.ledger.reserved, o) == Get(b.ledger.reserved, o) + Left(b, w, o)
  {
    CycleReserved(b, w);
    hide Cycle, E.Strands, E.Nibbles;
  }

  /** Over any run, each owner's reservation is what it was plus exactly what stranded and nibbling cycles left. */
  lemma {:induction false} ReservedOverRun(b: Books, work: seq<Work>, o: L.Owner)
    requires ValidBooks(b)
    ensures Get(Run(b, work).ledger.reserved, o) == Get(b.ledger.reserved, o) + AllLeft(b, work, o)
    decreases |work|
  {
    if work != [] {
      var n := |work| - 1;
      ReservedOverRun(b, work[..n], o);
      CycleLeaves(Run(b, work[..n]), work[n], o);
      hide Cycle, Left, ValidBooks;
    }
  }

  /** No cycle of the run strands or nibbles. */
  ghost predicate LeavesNothing(b: Books, work: seq<Work>)
    requires ValidBooks(b)
    decreases |work|
  {
    work == [] ||
    (var n := |work| - 1;
     LeavesNothing(b, work[..n]) &&
     var now := Run(b, work[..n]);
     Executes(now, work[n]) ==>
       !E.Strands(Evaluated(now, work[n]).ledger, RequestOf(now, work[n]), work[n].effects) &&
       !E.Nibbles(Evaluated(now, work[n]).ledger, RequestOf(now, work[n]), work[n].effects))
  }

  lemma {:induction false} NothingLeftOverRun(b: Books, work: seq<Work>)
    requires ValidBooks(b) && LeavesNothing(b, work)
    ensures Run(b, work).ledger.reserved == b.ledger.reserved
    decreases |work|
  {
    if work != [] {
      var n := |work| - 1;
      NothingLeftOverRun(b, work[..n]);
      CycleReserved(Run(b, work[..n]), work[n]);
      hide Cycle, ValidBooks, Evaluated, E.Strands, E.Nibbles;
    }
  }

  // ----- A lane after an order, on inputs -----

  /** The order changes what the lane holds: large enough, and priced. */
  predicate Moves(lane: Lane, order: Order, decision: RiskDecision)
    requires Coherent(lane)
  {
    && decision.Allow?
    && Sanitize(order.price) > TOLERANCE
    && ((Opens(decision.intent) && Sanitize(order.quantity) > TOLERANCE) ||
        (Closes(decision.intent) && CloseQuantity(order, EffectiveQuantity(lane)) > TOLERANCE))
  }

  /** The holding after such an order; a residue within the tolerance is dropped. */
  function QuantityAfter(lane: Lane, order: Order, decision: RiskDecision): real
    requires Coherent(lane) && Moves(lane, order, decision)
  {
    var held := EffectiveQuantity(lane);
    if Opens(decision.intent) then held + Sanitize(order.quantity)
    else Cut(held - CloseQuantity(order, held))
  }

  /** The average cost after such an order. */
  function CostAfter(lane: Lane, order: Order, decision: RiskDecision): real
    requires Coherent(lane) && Moves(lane, order, decision)
  {
    if Opens(decision.intent) then
      (HeldCost(lane) + Sanitize(order.quantity) * Sanitize(order.price) + FeeUsd(OrderFee(order)))
      / (EffectiveQuantity(lane) + Sanitize(order.quantity))
    else if lane.entryPrice.Some? then lane.entryPrice.value
    else 0.0
  }

  /** What the lane is worth afterwards. */
  function ValueAfter(lane: Lane, order: Option<Order>, decision: RiskDecision, close: Float): real
    requires Coherent(lane)
  {
    if order.None? || !Moves(lane, order.value, decision) then Worth(lane)
    else
      Cut(LotWorth(QuantityAfter(lane, order.value, decision), CostAfter(lane, order.value, decision), close))
  }

  /** A holding at the close, or at cost when the close is no price. */
  function LotWorth(q: real, cost: real, close: Float): real {
    var price := if Sanitize(close) > 0.0 then Sanitize(close) else cost;
    if q > TOLERANCE && price > TOLERANCE then q * price else 0.0
  }

  /** The inventory of a coherent lane, as the fill step rebuilds it. */
  lemma RebuiltInventory(lane: Lane)
    requires Coherent(lane)
    ensures var inv := WithSyncedInventory(lane).inventory;
            && Sound(inv) && inv.lot == lane.inventory.lot
            && Quantity(inv) == EffectiveQuantity(lane) == lane.quantity
            && Basis(inv) == HeldCost(lane)
  {
    SyncedInventory(lane);
  }

  lemma FilledNotional(lane: Lane, close: Float, fill: Fill)
    requires Coherent(lane) && Accepts(WithSyncedInventory(lane).inventory, fill)
    ensures var inv := WithSyncedInventory(lane).inventory;
            && Sound(inv) && FillLane(lane, close, fill).1.None?
            && FillLane(lane, close, fill).0.notional == NotionalOf(Filled(inv, fill), close)
  {
    SyncedInventory(lane);
  }

  /** What a synced lane with this inventory is valued at. */
  function NotionalOf(inv: Inventory, close: Float): real {
    var price := if Sanitize(close) > 0.0 then Some(close) else AsFloat(AverageCost(inv));
    if Quantity(inv) > TOLERANCE then PositionNotional(inv, price) else 0.0
  }

  /** What a holding of `q` at average cost `cost` is worth. */
  lemma LotValue(inv: Inventory, q: real, cost: real, close: Float)
    requires Quantity(inv) == q && (q > TOLERANCE ==> inv.lot == Some(Lot(q, cost)) && cost > 0.0)
    ensures NotionalOf(inv, close) == LotWorth(q, cost, close)
  {
  }

  lemma BoughtLot(lane: Lane, order: Order, decision: RiskDecision)
    requires Coherent(lane) && Moves(lane, order, decision) && Opens(decision.intent)
    ensures var inv := WithSyncedInventory(lane).inventory;
            && Sound(inv) && Accepts(inv, BuyFill(order))
            && Filled(inv, BuyFill(order)).lot == Some(Lot(QuantityAfter(lane, order, decision), CostAfter(lane, order, decision)))
            && QuantityAfter(lane, order, decision) > TOLERANCE && CostAfter(lane, order, decision) > 0.0
  {
    var fill, inv := BuyFill(order), WithSyncedInventory(lane).inventory;
    RebuiltInventory(lane);
    hide Coherent, WithSyncedInventory;
    var q, p := Sanitize(order.quantity), Sanitize(order.price);
    assert fill == Fill(Buy, Finite(q), Finite(p), OrderFee(order));
    assert Accepts(inv, fill);
    BuyIsSound(inv, fill);
    assert Filled(inv, fill).lot == Some(Enlarged(inv, q, p, FeeUsd(OrderFee(order))));
    var fee, held, cost := FeeUsd(OrderFee(order)), EffectiveQuantity(lane), HeldCost(lane);
    assert Quantity(inv) == held && Basis(inv) == cost;
    hide Basis, HeldCost, Quantity, EffectiveQuantity, Sanitize;
    assert QuantityAfter(lane, order, decision) == held + q;
    assert CostAfter(lane, order, decision) == (cost + q * p + fee) / (held + q);
    assert Enlarged(inv, q, p, fee) == Lot(held + q, (cost + q * p + fee) / (held + q));
    hide *;
  }

  lemma BoughtValue(lane: Lane, order: Order, decision: RiskDecision, close: Float)
    requires Coherent(lane) && Moves(lane, order, decision) && Opens(decision.intent)
    ensures Cut(FillState(lane, close, NextHasPosition(lane.hasPosition, decision), Some(order), decision).0.notional) ==
            ValueAfter(lane, Some(order), decision, close)
  {
    BoughtLot(lane, order, decision);
    var fill, inv := BuyFill(order), WithSyncedInventory(lane).inventory;
    var q, cost := QuantityAfter(lane, order, decision), CostAfter(lane, order, decision);
    hide QuantityAfter, CostAfter;
    assert Above(OpenQuantity(order), EPSILON);
    FilledNotional(lane, close, fill);
    LotValue(Filled(inv, fill), q, cost, close);
    hide FillLane, WithSyncedInventory, Filled, NotionalOf, BuyFill, OpenQuantity, LotWorth;
  }

  lemma SoldLot(lane: Lane, order: Order, decision: RiskDecision)
    requires Coherent(lane) && Moves(lane, order, decision) && Closes(decision.intent)
    ensures var inv, fill := WithSyncedInventory(lane).inventory, SellFill(order, EffectiveQuantity(lane));
            var q := QuantityAfter(lane, order, decision);
            && Sound(inv) && Accepts(inv, fill) && Quantity(Filled(inv, fill)) == q
            && (q > TOLERANCE ==> Filled(inv, fill).lot == Some(Lot(q, CostAfter(lane, order, decision))))
            && CostAfter(lane, order, decision) > 0.0
  {
    var held := EffectiveQuantity(lane);
    var fill, inv := SellFill(order, held), WithSyncedInventory(lane).inventory;
    RebuiltInventory(lane);
    assert inv.lot.Some? && CostAfter(lane, order, decision) == inv.lot.value.averageCost;
    hide Coherent, WithSyncedInventory, OrderFee, CloseQuantity, EffectiveQuantity, CostAfter;
    assert Accepts(inv, fill);
  }

  lemma SoldValue(lane: Lane, order: Order, decision: RiskDecision, close: Float)
    requires Coherent(lane) && Moves(lane, order, decision) && Closes(decision.intent)
    ensures Cut(FillState(lane, close, NextHasPosition(lane.hasPosition, decision), Some(order), decision).0.notional) ==
            ValueAfter(lane, Some(order), decision, close)
  {
    SoldLot(lane, order, decision);
    SellIsFilled(lane, order, decision, close);
    var fill, inv := SellFill(order, EffectiveQuantity(lane)), WithSyncedInventory(lane).inventory;
    var q, cost := QuantityAfter(lane, order, decision), CostAfter(lane, order, decision);
    hide QuantityAfter, CostAfter, FillState, FillLane, WithSyncedInventory, Filled, SellFill, CloseQuantity, EffectiveQuantity;
    FilledNotional(lane, close, fill);
    LotValue(Filled(inv, fill), q, cost, close);
    hide NotionalOf, LotWorth, Coherent;
  }

  lemma SellIsFilled(lane: Lane, order: Order, decision: RiskDecision, close: Float)
    requires Coherent(lane) && Moves(lane, order, decision) && Closes(decision.intent)
    ensures FillState(lane, close, NextHasPosition(lane.hasPosition, decision), Some(order), decision).0 ==
            FillLane(lane, close, SellFill(order, EffectiveQuantity(lane))).0
  {
    hide FillLane, WithSyncedInventory, CloseQuantity, EffectiveQuantity, SellFill, Notional;
  }

  /** Whatever the fill step does, its lane is worth `ValueAfter`. */
  lemma LaneValueAfter(lane: Lane, close: Float, order: Option<Order>, decision: RiskDecision)
    requires Coherent(lane)
    ensures Worth(FillState(lane, close, NextHasPosition(lane.hasPosition, decision), order, decision).0) ==
            ValueAfter(lane, order, decision, close)
  {
    if order.Some? && Moves(lane, order.value, decision) {
      if Opens(decision.intent) {
        BoughtValue(lane, order.value, decision, close);
      } else {
        SoldValue(lane, order.value, decision, close);
      }
      hide FillState, ValueAfter;
    } else if order.Some? && decision.Allow? && Opens(decision.intent) {
      assert Sanitize(OpenQuantity(order.value)) == Sanitize(order.value.quantity);
      hide WithSyncedFields, Filled;
    } else {
      hide WithSyncedFields, Filled, CloseQuantity;
    }
  }

  // ----- A whole cycle, on inputs -----

  /** The books, the lane and the request when the cycle comes to execute. */
  ghost function Ready(b: Books, w: Work): Lane
    requires w.lane < |b.lanes|
  {
    Marked(b.lanes[w.lane].1, w.request.close)
  }

  ghost predicate Fails(b: Books, w: Work)
    requires w.lane < |b.lanes|
  {
    E.Fails(Evaluated(b, w).ledger, RequestOf(b, w), w.effects)
  }

  /** The order that is sent, accepted and recorded, if any. */
  ghost function Accepted(b: Books, w: Work): Option<Order>
    requires w.lane < |b.lanes|
  {
    if E.Sends(Evaluated(b, w).ledger, RequestOf(b, w), w.effects) && !Fails(b, w)
    then Some(w.fees.(quantity := w.effects.submit.value.quantity, price := w.effects.submit.value.price))
    else None
  }

  /** The notional of a fill that execution entered in the ledger for the lane's owner. */
  ghost function Booked(b: Books, w: Work): real
    requires w.lane < |b.lanes|
  {
    var filled := if w.effects.submit.Some? then E.FilledAmount(w.effects.submit.value) else 0.0;
    if E.SendsOpen(Evaluated(b, w).ledger, RequestOf(b, w), w.effects) && w.effects.lookup(2) then Cut(filled) else 0.0
  }

  /** The release that settlement got through. */
  ghost function Taken(b: Books, w: Work): real
    requires w.lane < |b.lanes| && Coherent(Ready(b, w))
  {
    if Fails(b, w) then 0.0 else ReleasedBy(Ready(b, w), w.request.close, Accepted(b, w), w.request.decision, w.settle)
  }

  /** What the lane is worth when the cycle ends. */
  ghost function WorthAfter(b: Books, w: Work): real
    requires w.lane < |b.lanes| && Coherent(Ready(b, w))
  {
    if Fails(b, w) then Worth(Ready(b, w))
    else ValueAfter(Ready(b, w), Accepted(b, w), w.request.decision, w.request.close)
  }

  ghost predicate Completes(b: Books, w: Work)
    requires w.lane < |b.lanes| && Coherent(Ready(b, w))
  {
    !Fails(b, w) && Settles(Ready(b, w), w.request.close, Accepted(b, w), w.request.decision, w.settle)
  }

  lemma ReadyIsCoherent(b: Books, w: Work)
    requires ValidLanes(b.lanes) && w.lane < |b.lanes|
    ensures Coherent(Ready(b, w)) && Evaluated(b, w).lanes[w.lane] == (b.lanes[w.lane].0, Ready(b, w))
  {
  }

  /** Whether an executing cycle settles, and what its lane is worth in the end, are decided by its inputs. */
  lemma ExecutionOnInputs(b: Books, w: Work)
    requires ValidBooks(b) && Executes(b, w)
    ensures Coherent(Ready(b, w))
    ensures Cycle(b, w).1 <==> Completes(b, w)
    ensures Worth(Cycle(b, w).0.lanes[w.lane].1) == WorthAfter(b, w)
  {
    ReadyIsCoherent(b, w);
    EvaluatedIsValid(b, w);
    var e, rq := Evaluated(b, w), RequestOf(b, w);
    E.DecisionEnds(e.ledger, rq, w.effects);
    var (after, r) := E.Effects(e.ledger, rq, w.effects);
    hide E.Effects, E.Fails, E.Sends, Evaluated, Ready, Coherent;
    if !r.EngineFailed? {
      assert OrderOf(r, w.fees) == Accepted(b, w);
      SettlesWhen(after, e.lanes, w.lane, w.request.close, OrderOf(r, w.fees), w.request.decision, w.settle);
      LaneValueAfter(Ready(b, w), w.request.close, OrderOf(r, w.fees), w.request.decision);
    }
    hide FillState, SettleLedger, Settles, ValueAfter, Worth;
  }

  // ----- When ledger and lanes agree -----

  /** The cycle gets through the first ledger sync. */
  predicate Syncs(b: Books, w: Work) { w.lane < |b.lanes| && !w.reach.Nowhere? }

  /**
   * The exact condition for agreement after a cycle that syncs: settling rebuilds the ledger;
   * otherwise what the lane is worth must be what the ledger holds for it, which is the worth at
   * the last sync plus a booked fill less a release that went through.
   */
  ghost predicate LeavesAgreement(b: Books, w: Work)
    requires ValidLanes(b.lanes) && Syncs(b, w)
  {
    ReadyIsCoherent(b, w);
    match w.reach
    case Mark => Worth(Ready(b, w)) == Worth(b.lanes[w.lane].1)
    case Execution => Completes(b, w) || WorthAfter(b, w) == Cut(Worth(Ready(b, w)) + Booked(b, w) - Taken(b, w))
    case _ => true
  }

  lemma EntriesEqual(m: map<L.Owner, real>, owner: L.Owner, x: real, y: real)
    ensures WithEntry(m, owner, x) == WithEntry(m, owner, y) <==> Cut(x) == Cut(y)
  {
    if WithEntry(m, owner, x) == WithEntry(m, owner, y) {
      assert owner in WithEntry(m, owner, x) <==> x > TOLERANCE;
      assert owner in WithEntry(m, owner, y) <==> y > TOLERANCE;
    }
  }

  /** Books that agree hold exactly the lane's worth in its entry. */
  lemma OwnEntry(b: Books, i: nat)
    requires ValidLanes(b.lanes) && Agree(b) && i < |b.lanes|
    ensures b.ledger.open == WithEntry(b.ledger.open, b.lanes[i].0, Worth(b.lanes[i].1))
  {
    OneLaneOneEntry(b.lanes, i, b.lanes[i].1);
    assert b.lanes[i := (b.lanes[i].0, b.lanes[i].1)] == b.lanes;
  }

  /** Replacing a lane in books that agree: whether they still agree. */
  lemma OneEntryDecides(b: Books, i: nat, lane: Lane, open: map<L.Owner, real>, x: real)
    requires ValidLanes(b.lanes) && Agree(b) && i < |b.lanes|
    requires open == WithEntry(b.ledger.open, b.lanes[i].0, x)
    ensures open == L.OpenEntries(Valuations(b.lanes[i := (b.lanes[i].0, lane)])) <==> Worth(lane) == Cut(x)
  {
    OneLaneOneEntry(b.lanes, i, lane);
    EntriesEqual(b.ledger.open, b.lanes[i].0, x, lane.notional);
    hide L.OpenEntries, Valuations, WithEntry, ValidLanes;
  }

  lemma BookedEntry(m: map<L.Owner, real>, owner: L.Owner, worth: real, filled: real)
    requires m == WithEntry(m, owner, worth) && Cut(worth) == worth
    ensures (if filled > TOLERANCE then m[owner := Get(m, owner) + filled] else m) == WithEntry(m, owner, worth + Cut(filled))
  {
  }

  lemma ReleasedEntry(m: map<L.Owner, real>, owner: L.Owner, x: real, taken: real)
    requires Cut(x) == x && taken >= 0.0
    ensures (if taken > 0.0 then L.Adjusted(WithEntry(m, owner, x), owner, -taken) else WithEntry(m, owner, x)) ==
            WithEntry(m, owner, x - taken)
  {
  }

  /** The open map of an execution that does not settle: one entry moved by a booked fill and a release. */
  lemma UnsettledEntry(b: Books, w: Work)
    requires ValidBooks(b) && Executes(b, w) && !Cycle(b, w).1
    ensures Coherent(Ready(b, w))
    ensures Cycle(b, w).0.ledger.open ==
            WithEntry(Evaluated(b, w).ledger.open, b.lanes[w.lane].0, Worth(Ready(b, w)) + Booked(b, w) - Taken(b, w))
    ensures Cycle(b, w).0.lanes ==
            Evaluated(b, w).lanes[w.lane := (b.lanes[w.lane].0, Cycle(b, w).0.lanes[w.lane].1)]
  {
    hide Cycle, Evaluated, Ready, Coherent, WithEntry, Taken, E.Effects, L.Adjusted;
    ReadyIsCoherent(b, w);
    EvaluatedIsValid(b, w);
    var e, owner, x := Evaluated(b, w), b.lanes[w.lane].0, Worth(Ready(b, w)) + Booked(b, w);
    assert Cut(x) == x;
    hide Booked, Worth, Cut, ValidLanes;
    ExecutedEntry(b, w);
    ExecutedLeaves(b, w);
    ReleasedEntry(e.ledger.open, owner, x, Taken(b, w));
  }

  /** Settlement that stops moves the map the risk decision left by a release alone. */
  lemma ExecutedLeaves(b: Books, w: Work)
    requires ValidBooks(b) && Executes(b, w) && !Cycle(b, w).1
    ensures Coherent(Ready(b, w)) && Taken(b, w) >= 0.0
    ensures var open := E.Effects(Evaluated(b, w).ledger, RequestOf(b, w), w.effects).0.open;
            Cycle(b, w).0.ledger.open ==
            if Taken(b, w) > 0.0 then L.Adjusted(open, b.lanes[w.lane].0, -Taken(b, w)) else open
    ensures Cycle(b, w).0.lanes ==
            Evaluated(b, w).lanes[w.lane := (b.lanes[w.lane].0, Cycle(b, w).0.lanes[w.lane].1)]
  {
    ReadyIsCoherent(b, w);
    EvaluatedIsValid(b, w);
    var e, rq := Evaluated(b, w), RequestOf(b, w);
    E.DecisionEnds(e.ledger, rq, w.effects);
    var (after, r) := E.Effects(e.ledger, rq, w.effects);
    hide E.Effects, E.Fails, E.Sends, Evaluated, Ready, Coherent, L.Adjusted;
    if !r.EngineFailed? {
      assert OrderOf(r, w.fees) == Accepted(b, w);
      UnsettledLedger(after, e.lanes, w.lane, w.request.close, OrderOf(r, w.fees), w.request.decision, w.settle);
      hide Settle, ReleasedBy, Accepted;
    }
  }

  /** The open map after the risk decision: the lane's entry plus a booked fill. */
  lemma ExecutedEntry(b: Books, w: Work)
    requires ValidBooks(b) && Executes(b, w)
    ensures E.Effects(Evaluated(b, w).ledger, RequestOf(b, w), w.effects).0.open ==
            WithEntry(Evaluated(b, w).ledger.open, b.lanes[w.lane].0, Worth(Ready(b, w)) + Booked(b, w))
  {
    ReadyIsCoherent(b, w);
    EvaluatedIsValid(b, w);
    var e, rq, owner, worth := Evaluated(b, w), RequestOf(b, w), b.lanes[w.lane].0, Worth(Ready(b, w));
    OwnEntry(e, w.lane);
    E.OpenGrowsByFill(e.ledger, rq, w.effects);
    var filled := if w.effects.submit.Some? then E.FilledAmount(w.effects.submit.value) else 0.0;
    BookedEntry(e.ledger.open, owner, worth, filled);
    BookedEntry(e.ledger.open, owner, worth, 0.0);
    hide E.Effects, E.SendsOpen, E.FilledAmount, Evaluated, Ready, WithEntry, Get;
  }

  /** A cycle whose settlement stops agrees exactly when the lane is worth what the ledger was left with. */
  lemma StoppedAgreesIff(b: Books, w: Work)
    requires ValidBooks(b) && Executes(b, w) && !Cycle(b, w).1
    ensures Coherent(Ready(b, w))
    ensures w.lane < |Cycle(b, w).0.lanes|
    ensures Agree(Cycle(b, w).0) <==>
            Worth(Cycle(b, w).0.lanes[w.lane].1) == Cut(Worth(Ready(b, w)) + Booked(b, w) - Taken(b, w))
  {
    EvaluatedIsValid(b, w);
    UnsettledEntry(b, w);
    hide Cycle, Evaluated, Ready, Booked, Taken, Worth, Cut, WithEntry, Valuations, L.OpenEntries, ValidLanes, Coherent,
         L.Sound;
    var next, x := Cycle(b, w).0, Worth(Ready(b, w)) + Booked(b, w) - Taken(b, w);
    OneEntryDecides(Evaluated(b, w), w.lane, next.lanes[w.lane].1, next.ledger.open, x);
  }

  lemma ExecutionAgreesIff(b: Books, w: Work)
    requires ValidBooks(b) && Executes(b, w)
    ensures Agree(Cycle(b, w).0) <==> LeavesAgreement(b, w)
  {
    ExecutionOnInputs(b, w);
    hide Cycle, Evaluated, Ready, WorthAfter, Booked, Taken, Completes, Worth, Cut, Agree, ValidLanes, Coherent;
    if Cycle(b, w).1 {
      SettledAgrees(b, w);
    } else {
      StoppedAgreesIff(b, w);
    }
  }

  lemma MarkAgreesIff(b: Books, w: Work)
    requires ValidBooks(b) && Syncs(b, w) && w.reach.Mark?
    ensures Agree(Cycle(b, w).0) <==> LeavesAgreement(b, w)
  {
    OwnEntry(Synced(b), w.lane);
    OneEntryDecides(Synced(b), w.lane, Ready(b, w), Synced(b).ledger.open, Worth(b.lanes[w.lane].1));
    hide L.OpenEntries, Valuations, Coherent, Marked;
  }

  /** After a cycle ledger and lanes agree if and only if its inputs say so; one that never syncs leaves them as they were. */
  lemma CycleAgreesIff(b: Books, w: Work)
    requires ValidBooks(b)
    ensures Agree(Cycle(b, w).0) <==> if Syncs(b, w) then LeavesAgreement(b, w) else Agree(b)
  {
    if Syncs(b, w) && w.reach.Mark? {
      MarkAgreesIff(b, w);
    } else if Executes(b, w) {
      ExecutionAgreesIff(b, w);
    } else {
      hide L.OpenEntries, Valuations, Marked;
    }
  }

  lemma SettledAgrees(b: Books, w: Work)
    requires ValidBooks(b) && Cycle(b, w).1
    ensures Agree(Cycle(b, w).0)
    ensures w.lane < |b.lanes| && Cycle(b, w).0.lanes == b.lanes[w.lane := (b.lanes[w.lane].0, Cycle(b, w).0.lanes[w.lane].1)]
  {
    hide E.Effects, FillState, L.PositionReleased, L.OpenEntries, Valuations, Coherent;
  }

  /** The last cycle of a run that syncs decides; if none does, the books at the start. */
  ghost predicate RunLeavesAgreement(b: Books, work: seq<Work>)
    requires ValidBooks(b)
    decreases |work|
  {
    if work == [] then Agree(b)
    else
      var n := |work| - 1;
      var before := Run(b, work[..n]);
      if Syncs(before, work[n]) then LeavesAgreement(before, work[n]) else RunLeavesAgreement(b, work[..n])
  }

  lemma {:induction false} RunAgreesIff(b: Books, work: seq<Work>)
    requires ValidBooks(b)
    ensures Agree(Run(b, work)) <==> RunLeavesAgreement(b, work)
    decreases |work|
  {
    if work != [] {
      var n := |work| - 1;
      RunAgreesIff(b, work[..n]);
      CycleAgreesIff(Run(b, work[..n]), work[n]);
      hide Cycle, LeavesAgreement, Agree, ValidBooks;
    }
  }

  /**
   * A fill that is booked and then not recorded leaves the books apart: a flat lane buys 1 at 10,
   * the ledger enters 10, and the record of the order fails before the lane hears of it.
   */
  lemma UnrecordedFillDisagrees(owner: L.Owner)
    ensures var flat := Lane(false, 0.0, 0.0, None, 0.0, EMPTY);
            var b := Books(L.Ledger(1000.0, None, map[], map[], 0.0, []), [(owner, flat)]);
            var buy := E.Request(owner, 100.0, Finite(1.0), Finite(10.0), None, Allow(OpenLong));
            var env := E.Env(i => i == 0, _ => true, Some(E.Accepted(Finite(1.0), Finite(10.0))));
            var w := Work(0, AccountBooks.Execution, buy, env, Order(Finite(0.0), Finite(0.0), None, None, None),
                          Settlement.Env(true, true, true));
            && ValidBooks(b) && Agree(b) && !Agree(Cycle(b, w).0)
            && Get(Cycle(b, w).0.ledger.open, owner) == 10.0 && Cycle(b, w).0.lanes == b.lanes
  {
    var flat := Lane(false, 0.0, 0.0, None, 0.0, EMPTY);
    var b := Books(L.Ledger(1000.0, None, map[], map[], 0.0, []), [(owner, flat)]);
    var buy := E.Request(owner, 100.0, Finite(1.0), Finite(10.0), None, Allow(OpenLong));
    var env := E.Env(i => i == 0, _ => true, Some(E.Accepted(Finite(1.0), Finite(10.0))));
    var w := Work(0, AccountBooks.Execution, buy, env, Order(Finite(0.0), Finite(0.0), None, None, None),
                  Settlement.Env(true, true, true));
    assert ValidBooks(b);
    UnrecordedBuy(b, w, owner);
  }

  lemma UnrecordedBuy(b: Books, w: Work, owner: L.Owner)
    requires ValidBooks(b) && Executes(b, w) && RequestOf(b, w) == w.request
    requires b == Books(L.Ledger(1000.0, None, map[], map[], 0.0, []), [(owner, Lane(false, 0.0, 0.0, None, 0.0, EMPTY))])
    requires w.request == E.Request(owner, 100.0, Finite(1.0), Finite(10.0), None, Allow(OpenLong))
    requires w.effects == E.Env(w.effects.journal, w.effects.lookup, Some(E.Accepted(Finite(1.0), Finite(10.0))))
    requires w.effects.journal(0) && !w.effects.journal(1)
    requires w.effects.lookup(0) && w.effects.lookup(1) && w.effects.lookup(2)
    ensures Agree(b) && !Agree(Cycle(b, w).0)
    ensures Get(Cycle(b, w).0.ledger.open, owner) == 10.0 && Cycle(b, w).0.lanes == b.lanes
  {
    hide Evaluated, L.OpenEntries, Valuations, Cycle, E.Fails, E.Effects;
    FlatEvaluates(b, w, owner);
    BuyIsBooked(b.ledger, w.request, w.effects);
    FailedCycle(b, w);
    assert owner in Cycle(b, w).0.ledger.open;
  }

  lemma BuyIsBooked(l: L.Ledger, buy: E.Request, env: E.Env)
    requires l == L.Ledger(1000.0, None, map[], map[], 0.0, [])
    requires buy == E.Request(buy.owner, 100.0, Finite(1.0), Finite(10.0), None, Allow(OpenLong))
    requires env == E.Env(env.journal, env.lookup, Some(E.Accepted(Finite(1.0), Finite(10.0))))
    requires env.journal(0) && !env.journal(1) && env.lookup(0) && env.lookup(1) && env.lookup(2)
    ensures E.Fails(l, buy, env) && E.Effects(l, buy, env).0.open == map[buy.owner := 10.0]
  {
    BuyIsSent(l, buy, env);
    E.OpenGrowsByFill(l, buy, env);
    assert E.FilledAmount(env.submit.value) == 10.0;
    hide E.Effects, E.SendsOpen, E.FilledAmount;
  }

  /** A cycle that fails in execution leaves its lane marked and the ledger as the risk decision left it. */
  lemma FailedCycle(b: Books, w: Work)
    requires ValidBooks(b) && Executes(b, w) && Fails(b, w)
    ensures Cycle(b, w) ==
            (Evaluated(b, w).(ledger := E.Effects(Evaluated(b, w).ledger, RequestOf(b, w), w.effects).0), false)
  {
    EvaluatedIsValid(b, w);
    E.DecisionEnds(Evaluated(b, w).ledger, RequestOf(b, w), w.effects);
    hide E.Effects, E.Fails, E.Sends, Evaluated, Settle;
  }

  lemma FlatEvaluates(b: Books, w: Work, owner: L.Owner)
    requires b.lanes == [(owner, Lane(false, 0.0, 0.0, None, 0.0, EMPTY))] && b.ledger.open == map[] && w.lane == 0
    ensures Evaluated(b, w) == b && L.OpenEntries(Valuations(b.lanes)) == map[]
  {
    assert Valuations(b.lanes) == [(owner, Finite(0.0))] && Valuations(b.lanes)[..0] == [];
    assert L.OpenEntries([]) == map[] && Valuations(b.lanes)[0] == (owner, Finite(0.0));
    assert L.OpenEntries(Valuations(b.lanes)) == map[];
    assert Marked(b.lanes[0].1, w.request.close) == b.lanes[0].1;
    assert b.lanes[0 := (owner, b.lanes[0].1)] == b.lanes;
  }

  lemma BuyIsSent(l: L.Ledger, buy: E.Request, env: E.Env)
    requires l == L.Ledger(1000.0, None, map[], map[], 0.0, [])
    requires buy == E.Request(buy.owner, 100.0, Finite(1.0), Finite(10.0), None, Allow(OpenLong))
    requires env.journal(0) && env.lookup(0) && env.lookup(1)
    ensures E.SendsOpen(l, buy, env)
  {
    assert Where(l.open, L.OfBot(buy.owner.bot)) == map[];
    assert L.BotTradeableRoom(l, buy.owner.bot, 100.0) == 1000.0;
  }

  // ----- How far the caps hold -----

  /** In any run, when an opening order goes out with a reservation, account and bot are within their caps. */
  lemma SubmissionsAreWithinCaps(b: Books, work: seq<Work>, w: Work)
    requires ValidBooks(b)
    ensures var now := Run(b, work);
            Executes(now, w) ==>
              var l, rq := Evaluated(now, w).ledger, RequestOf(now, w);
              var sent := L.Reserved(l, rq.owner, Finite(E.ReserveAmount(rq)), rq.pct);
              E.SendsOpen(l, rq, w.effects) && E.ReserveAmount(rq) > TOLERANCE ==>
                L.AccountWithinCap(sent) && L.BotWithinCap(sent, rq.owner.bot, rq.pct)
  {
    var now := Run(b, work);
    hide Run, Evaluated, L.Reserved, L.AccountWithinCap, L.BotWithinCap, L.ReserveRefusal;
    if Executes(now, w) {
      var l, rq := Evaluated(now, w).ledger, RequestOf(now, w);
      if E.SendsOpen(l, rq, w.effects) && E.ReserveAmount(rq) > TOLERANCE {
        L.GrantedReservationIsWithinCaps(l, rq.owner, Finite(E.ReserveAmount(rq)), rq.pct);
      }
    }
  }

  lemma EntryTotals(m: map<L.Owner, real>, owner: L.Owner, x: real, bot: string)
    ensures Total(WithEntry(m, owner, x)) == Total(m) - Get(m, owner) + Cut(x)
    ensures L.BotTotal(WithEntry(m, owner, x), bot) ==
            L.BotTotal(m, bot) + if owner.bot == bot then Cut(x) - Get(m, owner) else 0.0
  {
    if x > TOLERANCE {
      TotalUpdate(m, owner, x);
      WhereUpdate(m, L.OfBot(bot), owner, x);
    } else {
      TotalDelete(m, owner);
      WhereDelete(m, L.OfBot(bot), owner);
    }
    hide Total, Where;
  }

  /** A settled cycle changes the ledger in one entry: from what its lane was worth to what it is worth now. */
  lemma SettledCycleMovesOneEntry(b: Books, w: Work)
    requires ValidBooks(b) && Cycle(b, w).1
    ensures var next := Cycle(b, w).0;
            && w.lane < |b.lanes|
            && next.ledger == Synced(b).ledger.(open :=
                 WithEntry(Synced(b).ledger.open, b.lanes[w.lane].0, next.lanes[w.lane].1.notional))
            && Get(Synced(b).ledger.open, b.lanes[w.lane].0) == Worth(b.lanes[w.lane].1)
  {
    var next, i := Cycle(b, w).0, w.lane;
    CycleReserved(b, w);
    assert E.ReservedAfter(Evaluated(b, w).ledger, RequestOf(b, w), w.effects) == b.ledger.reserved by {
      E.DecisionEnds(Evaluated(b, w).ledger, RequestOf(b, w), w.effects);
      hide E.Effects, E.ReserveAmount, Evaluated;
    }
    SettledAgrees(b, w);
    OneLaneOneEntry(b.lanes, i, next.lanes[i].1);
    AgreementPerOwner(Synced(b), i);
    hide Cycle, Execute, E.Effects, E.ReservedAfter, WithEntry, L.OpenEntries, Valuations, Worth, Evaluated;
  }

  /**
   * A settled cycle ends within a cap if and only if what its lane gained in worth, revaluation
   * included, is within the headroom before it. Other bots are as they were.
   */
  lemma SettledCycleWithinCapsIff(b: Books, w: Work, pct: real, other: string)
    requires ValidBooks(b) && Cycle(b, w).1
    ensures w.lane < |b.lanes| && Coherent(Ready(b, w))
    ensures var next, owner := Cycle(b, w).0, b.lanes[w.lane].0;
            var gain := WorthAfter(b, w) - Worth(b.lanes[w.lane].1);
            && (L.AccountWithinCap(next.ledger) <==> gain <= L.Headroom(Synced(b).ledger))
            && (L.BotWithinCap(next.ledger, owner.bot, pct) <==> gain <= L.BotHeadroom(Synced(b).ledger, owner.bot, pct))
            && (other != owner.bot ==>
                 (L.BotWithinCap(next.ledger, other, pct) <==> L.BotWithinCap(Synced(b).ledger, other, pct)))
  {
    SettledCycleMovesOneEntry(b, w);
    assert Executes(b, w);
    ExecutionOnInputs(b, w);
    var lane, owner := Cycle(b, w).0.lanes[w.lane].1, b.lanes[w.lane].0;
    assert Worth(lane) == Cut(lane.notional);
    hide *;
    EntryMovesHeadroom(Synced(b).ledger, owner, lane.notional, pct, owner.bot);
    EntryMovesHeadroom(Synced(b).ledger, owner, lane.notional, pct, other);
  }

  lemma EntryMovesHeadroom(l: L.Ledger, owner: L.Owner, x: real, pct: real, bot: string)
    ensures var l' := l.(open := WithEntry(l.open, owner, x));
            var gain := Cut(x) - Get(l.open, owner);
            && (L.AccountWithinCap(l') <==> gain <= L.Headroom(l))
            && (L.BotWithinCap(l', bot, pct) <==>
                 if bot == owner.bot then gain <= L.BotHeadroom(l, bot, pct) else L.BotWithinCap(l, bot, pct))
  {
    var l' := l.(open := WithEntry(l.open, owner, x));
    EntryTotals(l.open, owner, x, bot);
    assert L.EffectiveCap(l') == L.EffectiveCap(l);
    assert L.BotAllocated(l', pct) == L.BotAllocated(l, pct);
    hide WithEntry, Cut, Get, Total, L.BotTotal, L.EffectiveCap, L.BotAllocated;
  }

  /** Revaluation alone passes a cap: 4 held at 100 under a cap of 1000, and a bar that closes at 300 asking for nothing. */
  lemma RevaluationPassesCap(owner: L.Owner)
    ensures var held := Lane(true, 4.0, 400.0, Some(100.0), 0.0, Inventory(Some(Lot(4.0, 100.0)), Pnl(0.0, 0.0, 0.0)));
            var b := Books(L.Ledger(1000.0, None, map[owner := 400.0], map[], 0.0, []), [(owner, held)]);
            var quiet := E.Request(owner, 100.0, Finite(0.0), Finite(300.0), None, Allow(NoOp));
            var w := Work(0, AccountBooks.Execution, quiet, E.Env(_ => true, _ => true, None),
                          Order(Finite(0.0), Finite(0.0), None, None, None), Settlement.Env(true, true, true));
            && ValidBooks(b) && Agree(b) && L.AccountWithinCap(b.ledger)
            && Cycle(b, w).1 && !L.AccountWithinCap(Cycle(b, w).0.ledger)
  {
    var held := Lane(true, 4.0, 400.0, Some(100.0), 0.0, Inventory(Some(Lot(4.0, 100.0)), Pnl(0.0, 0.0, 0.0)));
    var b := Books(L.Ledger(1000.0, None, map[owner := 400.0], map[], 0.0, []), [(owner, held)]);
    var quiet := E.Request(owner, 100.0, Finite(0.0), Finite(300.0), None, Allow(NoOp));
    var w := Work(0, AccountBooks.Execution, quiet, E.Env(_ => true, _ => true, None),
                  Order(Finite(0.0), Finite(0.0), None, None, None), Settlement.Env(true, true, true));
    assert Valuations(b.lanes) == [(owner, Finite(400.0))];
    assert L.OpenEntries(Valuations(b.lanes)[..0]) == map[];
    TotalRemove(b.ledger.open, owner);
    assert b.ledger.open - {owner} == map[];
    assert Synced(b) == b;
    ExecutionOnInputs(b, w);
    assert Ready(b, w).notional == 1200.0 && !Fails(b, w) && Accepted(b, w).None?;
    assert Completes(b, w) && WorthAfter(b, w) == 1200.0;
    SettledCycleWithinCapsIff(b, w, 100.0, owner.bot);
    hide Cycle;
  }
}
