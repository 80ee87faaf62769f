/**
 * Average-cost inventory of one symbol: fills move a single lot and three
 * realised profit-and-loss accumulators.
 */
module Inventories {
  import opened Options
  import opened Floats
  import opened Arithmetic

  datatype Lot = Lot(quantity: real, averageCost: real)

  datatype Pnl = Pnl(gross: real, fees: real, net: real)

  datatype Inventory = Inventory(lot: Option<Lot>, pnl: Pnl)

  datatype Side = Buy | Sell

  datatype FeeEntry = FeeEntry(asset: string, amount: Float, normalizedUsd: Option<Float>)

  datatype InventoryError = InvalidQuantity | InvalidPrice | InsufficientQuantity

  datatype Fill = Fill(side: Side, quantity: Float, price: Float, fee: Option<FeeEntry>)

  const EMPTY := Inventory(None, Pnl(0.0, 0.0, 0.0))

  function FeeUsd(fee: Option<FeeEntry>): (r: real)
    ensures r >= 0.0
  {
    if fee.Some? && fee.value.normalizedUsd.Some? then Sanitize(fee.value.normalizedUsd.value) else 0.0
  }

  function Quantity(inv: Inventory): real {
    if inv.lot.Some? then inv.lot.value.quantity else 0.0
  }

  function AverageCost(inv: Inventory): Option<real> {
    if inv.lot.Some? then Some(inv.lot.value.averageCost) else None
  }

  /** What the held quantity cost, fees of purchase included. */
  function Basis(inv: Inventory): real {
    if inv.lot.Some? then inv.lot.value.quantity * inv.lot.value.averageCost else 0.0
  }

  function FromPositionState(quantity: Float, entryPrice: Option<Float>, realized: Float): Inventory {
    var q := Sanitize(quantity);
    var pnl := if realized.Finite? then realized.value else 0.0;
    Inventory(
      if q > TOLERANCE && entryPrice.Some? && Sanitize(entryPrice.value) > 0.0
      then Some(Lot(q, Sanitize(entryPrice.value)))
      else None,
      Pnl(pnl, 0.0, pnl))
  }

  function FillError(inv: Inventory, f: Fill): Option<InventoryError> {
    if Sanitize(f.quantity) <= TOLERANCE then Some(InvalidQuantity)
    else if Sanitize(f.price) <= TOLERANCE then Some(InvalidPrice)
    else if f.side.Sell? && (inv.lot.None? || Sanitize(f.quantity) > inv.lot.value.quantity + TOLERANCE)
    then Some(InsufficientQuantity)
    else None
  }

  predicate Accepts(inv: Inventory, f: Fill) { FillError(inv, f).None? }

  /** Held quantity and average cost are positive. */
  predicate Sound(inv: Inventory) {
    inv.lot.Some? ==> inv.lot.value.quantity > TOLERANCE && inv.lot.value.averageCost > 0.0
  }

  /** The lot after a purchase: quantities add, and so do costs. */
  function Enlarged(inv: Inventory, q: real, p: real, fee: real): Lot
    requires Quantity(inv) + q > 0.0
  {
    Lot(Quantity(inv) + q, (Basis(inv) + q * p + fee) / (Quantity(inv) + q))
  }

  /** A purchase leaves a positive average cost. */
  lemma BuyIsSound(inv: Inventory, f: Fill)
    requires Sound(inv) && Accepts(inv, f) && f.side.Buy?
    ensures Quantity(inv) + f.quantity.value > TOLERANCE
    ensures Enlarged(inv, f.quantity.value, f.price.value, FeeUsd(f.fee)).averageCost > 0.0
  {
    var q, p := f.quantity.value, f.price.value;
    MulPositive(q, p);
    if inv.lot.Some? {
      MulPositive(inv.lot.value.quantity, inv.lot.value.averageCost);
    }
    DivPositive(Basis(inv) + q * p + FeeUsd(f.fee), Quantity(inv) + q);
  }

  /** The inventory after a fill; a refused fill changes nothing. */
  function Filled(inv: Inventory, f: Fill): (next: Inventory)
    requires Sound(inv)
    ensures Sound(next)
  {
    if !Accepts(inv, f) then inv
    else
      var q, p, fee := f.quantity.value, f.price.value, FeeUsd(f.fee);
      match f.side
      case Buy =>
        BuyIsSound(inv, f);
        inv.(lot := Some(Enlarged(inv, q, p, fee)))
      case Sell =>
        var lot := inv.lot.value;
        var gross := (p - lot.averageCost) * q;
        var remaining := RMax(lot.quantity - q, 0.0);
        Inventory(
          if remaining <= TOLERANCE then None else Some(lot.(quantity := remaining)),
          Pnl(inv.pnl.gross + gross, inv.pnl.fees + fee, inv.pnl.net + (gross - fee)))
  }

  class InventoryState {
    var lot: Option<Lot>
    var pnl: Pnl

    ghost function View(): Inventory
      reads this
    {
      Inventory(lot, pnl)
    }

    constructor (value: Inventory)
      ensures View() == value
    {
      lot := value.lot;
      pnl := value.pnl;
    }

    method ApplyFill(f: Fill) returns (error: Option<InventoryError>)
      requires Sound(View())
      modifies this
      ensures error == old(FillError(View(), f))
      ensures View() == old(Filled(View(), f))
      ensures Sound(View())
    {
      ghost var before := View();
      if Sanitize(f.quantity) <= TOLERANCE {
        return Some(InvalidQuantity);
      }
      if Sanitize(f.price) <= TOLERANCE {
        return Some(InvalidPrice);
      }
      var q, p := f.quantity.value, f.price.value;
      var fee := FeeUsd(f.fee);
      match f.side {
        case Buy =>
          BuyIsSound(before, f);
          lot := Some(Enlarged(Inventory(lot, pnl), q, p, fee));
        case Sell =>
          if lot.None? {
            return Some(InsufficientQuantity);
          }
          var held := lot.value;
          if q > held.quantity + TOLERANCE {
            return Some(InsufficientQuantity);
          }
          var gross := (p - held.averageCost) * q;
          pnl := Pnl(pnl.gross + gross, pnl.fees + fee, pnl.net + (gross - fee));
          var remaining := RMax(held.quantity - q, 0.0);
          lot := if remaining <= TOLERANCE then None else Some(held.(quantity := remaining));
      }
      error := None;
    }
  }

  /** Buying adds exactly what was paid to the cost basis. */
  lemma BuyBasis(inv: Inventory, f: Fill)
    requires Sound(inv) && Accepts(inv, f) && f.side.Buy?
    ensures Basis(Filled(inv, f)) == Basis(inv) + f.quantity.value * f.price.value + FeeUsd(f.fee)
  {
    BuyIsSound(inv, f);
  }

  // ---------------------------------------------------- whole fill sequences

  function Run(inv: Inventory, fills: seq<Fill>): (last: Inventory)
    requires Sound(inv)
    ensures Sound(last)
    decreases |fills|
  {
    if fills == [] then inv else Run(Filled(inv, fills[0]), fills[1..])
  }

  /** All-in cost of an accepted purchase. */
  function Paid(inv: Inventory, f: Fill): real {
    if Accepts(inv, f) && f.side.Buy? then f.quantity.value * f.price.value + FeeUsd(f.fee) else 0.0
  }

  /** Proceeds of an accepted sale after its fee. */
  function Received(inv: Inventory, f: Fill): real {
    if Accepts(inv, f) && f.side.Sell? then f.quantity.value * f.price.value - FeeUsd(f.fee) else 0.0
  }

  /** A sale that leaves no more than the tolerance closes the lot out. */
  predicate ClosesOut(inv: Inventory, f: Fill) {
    Accepts(inv, f) && f.side.Sell? && inv.lot.value.quantity - f.quantity.value <= TOLERANCE
  }

  /** Cost of the residue that a close-out drops (negative when it oversells). */
  function Dropped(inv: Inventory, f: Fill): real {
    if ClosesOut(inv, f)
    then (inv.lot.value.quantity - f.quantity.value) * inv.lot.value.averageCost
    else 0.0
  }

  function DropAllowance(inv: Inventory, f: Fill): real {
    if ClosesOut(inv, f) then TOLERANCE * inv.lot.value.averageCost else 0.0
  }

  /** Sum of a per-fill amount along a run. */
  function Along(inv: Inventory, fills: seq<Fill>, amount: (Inventory, Fill) -> real): real
    requires Sound(inv)
    decreases |fills|
  {
    if fills == [] then 0.0
    else amount(inv, fills[0]) + Along(Filled(inv, fills[0]), fills[1..], amount)
  }

  lemma SaleConservation(inv: Inventory, f: Fill)
    requires Sound(inv) && Accepts(inv, f) && f.side.Sell?
    ensures Filled(inv, f).pnl.net - inv.pnl.net ==
            Received(inv, f) + Basis(Filled(inv, f)) - Basis(inv) + Dropped(inv, f)
  {
    var held, avg, q, p := inv.lot.value.quantity, inv.lot.value.averageCost, f.quantity.value, f.price.value;
    assert (p - avg) * q == p * q - avg * q;
    assert (held - q) * avg == held * avg - q * avg;
  }

  lemma DropIsTolerated(inv: Inventory, f: Fill)
    requires Sound(inv)
    ensures RAbs(Dropped(inv, f)) <= DropAllowance(inv, f)
  {
    if ClosesOut(inv, f) {
      var gap, cost := inv.lot.value.quantity - f.quantity.value, inv.lot.value.averageCost;
      MulNonNegative(TOLERANCE - gap, cost);
      MulNonNegative(TOLERANCE + gap, cost);
    }
  }

  lemma StepConservation(inv: Inventory, f: Fill)
    requires Sound(inv)
    ensures Filled(inv, f).pnl.net - inv.pnl.net ==
            Received(inv, f) - Paid(inv, f) + Basis(Filled(inv, f)) - Basis(inv) + Dropped(inv, f)
    ensures RAbs(Dropped(inv, f)) <= DropAllowance(inv, f)
  {
    DropIsTolerated(inv, f);
    if Accepts(inv, f) {
      match f.side {
        case Buy => BuyBasis(inv, f);
        case Sell => SaleConservation(inv, f);
      }
    }
  }

  /** Realised profit is what sales brought in, less what purchases cost, plus the
      cost still held, up to one tolerance of average cost per close-out. */
  lemma {:induction false} ProfitIsConserved(inv: Inventory, fills: seq<Fill>)
    requires Sound(inv)
    ensures Run(inv, fills).pnl.net - inv.pnl.net ==
            Along(inv, fills, Received) - Along(inv, fills, Paid)
            + Basis(Run(inv, fills)) - Basis(inv) + Along(inv, fills, Dropped)
    ensures RAbs(Along(inv, fills, Dropped)) <= Along(inv, fills, DropAllowance)
    decreases |fills|
  {
    if fills != [] {
      StepConservation(inv, fills[0]);
      ProfitIsConserved(Filled(inv, fills[0]), fills[1..]);
    }
  }

  /** Net profit is always gross profit less fees. */
  lemma {:induction false} NetIsGrossLessFees(inv: Inventory, fills: seq<Fill>)
    requires Sound(inv) && inv.pnl.net == inv.pnl.gross - inv.pnl.fees
    ensures Run(inv, fills).pnl.net == Run(inv, fills).pnl.gross - Run(inv, fills).pnl.fees
    decreases |fills|
  {
    if fills != [] {
      NetIsGrossLessFees(Filled(inv, fills[0]), fills[1..]);
    }
  }

  // --------------------------------------------------- average cost is a mean

  /** All-in unit costs of the purchases since the inventory was last flat. */
  function UnitCosts(inv: Inventory, costs: seq<real>, fills: seq<Fill>): seq<real>
    requires Sound(inv)
    decreases |fills|
  {
    if fills == [] then costs
    else
      var f := fills[0];
      var next :=
        if !Accepts(inv, f) then costs
        else if f.side.Buy? then
          (if inv.lot.None? then [] else costs) + [Paid(inv, f) / f.quantity.value]
        else costs;
      UnitCosts(Filled(inv, f), next, fills[1..])
  }

  predicate Within(lo: real, hi: real, costs: seq<real>) {
    forall i :: 0 <= i < |costs| ==> lo <= costs[i] <= hi
  }

  /** The average cost, if anything is held, is between `lo` and `hi`. */
  predicate MeanWithin(lo: real, hi: real, inv: Inventory) {
    inv.lot.Some? ==> lo <= inv.lot.value.averageCost <= hi
  }

  lemma MeanOfBuy(lo: real, hi: real, inv: Inventory, f: Fill)
    requires Sound(inv) && Accepts(inv, f) && f.side.Buy?
    requires MeanWithin(lo, hi, inv)
    requires lo <= Paid(inv, f) / f.quantity.value <= hi
    ensures MeanWithin(lo, hi, Filled(inv, f))
  {
    var q, unit := f.quantity.value, Paid(inv, f) / f.quantity.value;
    var held, avg := Quantity(inv), if inv.lot.Some? then inv.lot.value.averageCost else unit;
    var m := Filled(inv, f).lot.value.averageCost;
    assert m * (held + q) == held * avg + q * unit by {
      BuyBasis(inv, f);
      DivMul(Paid(inv, f), q);
    }
    WeightedMean(held, avg, q, unit, m, lo, hi);
  }

  lemma WeightedMean(h: real, a: real, q: real, u: real, m: real, lo: real, hi: real)
    requires h >= 0.0 && q > 0.0 && lo <= a <= hi && lo <= u <= hi
    requires m * (h + q) == h * a + q * u
    ensures lo <= m <= hi
  {
    MulNonNegative(h, a - lo);
    MulNonNegative(q, u - lo);
    assert (m - lo) * (h + q) == h * (a - lo) + q * (u - lo);
    SignOfFactor(h + q, m - lo);
    MulNonNegative(h, hi - a);
    MulNonNegative(q, hi - u);
    assert (hi - m) * (h + q) == h * (hi - a) + q * (hi - u);
    SignOfFactor(h + q, hi - m);
  }

  /** The average cost stays between the lowest and the highest all-in unit cost
      paid since the inventory was last flat. */
  lemma {:induction false} AverageCostIsBounded(inv: Inventory, costs: seq<real>, fills: seq<Fill>, lo: real, hi: real)
    requires Sound(inv)
    requires forall a, b :: inv.lot.Some? && Within(a, b, costs) ==> MeanWithin(a, b, inv)
    requires inv.lot.Some? ==> costs != []
    requires Within(lo, hi, UnitCosts(inv, costs, fills))
    ensures MeanWithin(lo, hi, Run(inv, fills))
    ensures Run(inv, fills).lot.Some? ==> UnitCosts(inv, costs, fills) != []
    decreases |fills|
  {
    if fills != [] {
      var f := fills[0];
      var next := Filled(inv, f);
      if Accepts(inv, f) && f.side.Buy? {
        var unit := Paid(inv, f) / f.quantity.value;
        var old' := if inv.lot.None? then [] else costs;
        forall a, b | Within(a, b, old' + [unit]) ensures MeanWithin(a, b, next) {
          assert (old' + [unit])[|old'|] == unit;
          assert forall i :: 0 <= i < |old'| ==> (old' + [unit])[i] == old'[i];
          MeanOfBuy(a, b, inv, f);
        }
        AverageCostIsBounded(next, old' + [unit], fills[1..], lo, hi);
      } else {
        AverageCostIsBounded(next, costs, fills[1..], lo, hi);
      }
    }
  }
}
