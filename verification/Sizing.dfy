/**
 * Order sizing, the per-order risk policy, and their agreement with the ledger.
 */
module Sizing {
  import opened Options
  import opened Floats
  import opened Arithmetic
  import opened Market
  import opened LanePositions

  datatype Constraints = Constraints(
    quantityStep: Option<Float>,
    minQuantity: Option<Float>,
    minNotional: Option<Float>)

  datatype LedgerOutcome = BotExhausted | AccountExhausted | Dust

  datatype Resolution = Resolution(quantity: real, outcome: Option<LedgerOutcome>)

  /** How many whole steps fit into `value`, give or take the tolerance. */
  function Steps(value: real, step: real): int
    requires step > 0.0
  {
    (value / step + TOLERANCE).Floor
  }

  /** Rounds down to whole steps, but never above `value`. */
  function FloorSteps(value: real, step: real): real
    requires step > 0.0
  {
    if Steps(value, step) <= 0 then 0.0 else RMin(Steps(value, step) as real * step, value)
  }

  function FloorToStep(value: real, step: Float): real {
    if !step.Finite? || step.value <= 0.0 then 0.0 else FloorSteps(value, step.value)
  }

  function MarketQuantity(market: MarketType, intent: TradeIntent, quantity: real, fractional: bool): real {
    if quantity <= TOLERANCE then 0.0
    else
      var normalized :=
        match market
        case Crypto => quantity
        case Equities =>
          if Opens(intent) then (if fractional then quantity else quantity.Floor as real)
          else if Closes(intent) then (if quantity >= 1.0 then quantity.Floor as real else quantity)
          else 0.0;
      if normalized <= TOLERANCE then 0.0 else normalized
  }

  /** `x < bound` on doubles, for a bound that may be absent. */
  predicate Below(x: real, bound: Option<Float>) {
    bound.Some? && ((bound.value.Finite? && x < bound.value.value) || bound.value.PosInf?)
  }

  function ConstrainedQuantity(intent: TradeIntent, price: real, quantity: real, c: Constraints): real {
    if quantity <= TOLERANCE then 0.0
    else
      var adjusted := if c.quantityStep.Some? then FloorToStep(quantity, c.quantityStep.value) else quantity;
      if adjusted <= TOLERANCE then 0.0
      else if Below(adjusted, c.minQuantity) then 0.0
      else if Below(adjusted * price, c.minNotional) && !Closes(intent) then 0.0
      else adjusted
  }

  function CappedTarget(target: Float, maxOrder: Float): Float { FMin(target, maxOrder) }

  /** Notional an open may use: target, per-order limit and both rooms at once. */
  function DesiredNotional(target: Float, maxOrder: Float, botRoom: Float, accountRoom: Float): (r: real)
    requires CappedTarget(target, maxOrder).Finite?
  {
    var desired := FMin(FMin(CappedTarget(target, maxOrder), FMax(botRoom, Finite(0.0))),
                        FMax(accountRoom, Finite(0.0)));
    desired.value
  }

  /** The quantity that `notional` buys once market policy and constraints are applied. */
  function SizedNotional(intent: TradeIntent, market: MarketType, price: real, notional: real,
                         c: Constraints, fractional: bool): real
    requires price > 0.0
  {
    ConstrainedQuantity(intent, price, MarketQuantity(market, intent, notional / price, fractional), c)
  }

  function Resolve(
    intent: TradeIntent, market: MarketType, price: Float, held: Float, botRoom: Float, accountRoom: Float,
    maxOrder: Float, target: Float, c: Constraints, fractional: bool): Resolution
  {
    if !price.Finite? || price.value <= 0.0 then Resolution(0.0, None)
    else
      match intent
      case NoOp => Resolution(0.0, None)
      case CloseLong | ReduceLong =>
        if !held.Finite? || held.value < 0.0 then Resolution(0.0, None)
        else
          Resolution(ConstrainedQuantity(intent, price.value,
                       MarketQuantity(market, intent, held.value, fractional), c), None)
      case OpenLong | AddLong =>
        var capped := CappedTarget(target, maxOrder);
        if !capped.Finite? || capped.value <= 0.0 then Resolution(0.0, None)
        else
          var desired := DesiredNotional(target, maxOrder, botRoom, accountRoom);
          if desired <= 0.0 then
            Resolution(0.0,
              if Le(botRoom, Finite(EPSILON)) then Some(BotExhausted)
              else if Le(accountRoom, Finite(EPSILON)) then Some(AccountExhausted)
              else None)
          else
            var raw := desired / price.value;
            var q := SizedNotional(intent, market, price.value, desired, c, fractional);
            Resolution(q, if q <= TOLERANCE && raw > TOLERANCE then Some(Dust) else None)
  }

  // --------------------------------------------------------- step flooring

  /** A value with at least one step in it is positive. */
  lemma SomeStepsArePositive(value: real, step: real)
    requires step > 0.0 && Steps(value, step) > 0
    ensures value > 0.0 && Steps(value, step) as real * step > 0.0
  {
    MulPositive(Steps(value, step) as real, step);
    assert value / step > 0.0;
    MulPositive(value / step, step);
    DivMul(value, step);
  }

  /** Flooring never rounds up. */
  lemma FloorNeverRoundsUp(value: real, step: Float)
    requires value >= 0.0
    ensures 0.0 <= FloorToStep(value, step) <= value
  {
    if step.Finite? && step.value > 0.0 && Steps(value, step.value) > 0 {
      SomeStepsArePositive(value, step.value);
    }
  }

  predicate NearSteps(x: real, step: real, units: int) {
    units >= 0 && RAbs(x - units as real * step) <= TOLERANCE * step
  }

  /** The result is within 1e-9 of a step from a whole number of steps. */
  lemma FloorLandsOnStep(value: real, step: real)
    requires step > 0.0
    ensures exists units :: NearSteps(FloorSteps(value, step), step, units)
  {
    var units := Steps(value, step);
    MulNonNegative(TOLERANCE, step);
    if units <= 0 {
      assert NearSteps(FloorSteps(value, step), step, 0);
    } else {
      assert units as real * step <= value + TOLERANCE * step by {
        ScaleUp(units as real, value / step + TOLERANCE, step);
        DivMul(value, step);
        assert (value / step + TOLERANCE) * step == value / step * step + TOLERANCE * step;
      }
      assert NearSteps(FloorSteps(value, step), step, units);
    }
  }

  lemma StepsOfWholeSteps(units: int, step: real, x: real)
    requires step > 0.0 && x == units as real * step
    ensures Steps(x, step) == units
  {
    MulDiv(units as real, step);
    var q := x / step;
    assert q == units as real;
  }

  lemma FloorIsIdempotent(value: real, step: real)
    requires step > 0.0
    ensures FloorSteps(FloorSteps(value, step), step) == FloorSteps(value, step)
  {
    var floored := FloorSteps(value, step);
    if Steps(value, step) <= 0 {
      StepsOfWholeSteps(0, step, floored);
    } else if Steps(value, step) as real * step <= value {
      StepsOfWholeSteps(Steps(value, step), step, floored);
    }
  }

  lemma StepsAreMonotone(a: real, b: real, step: real)
    requires step > 0.0 && a <= b
    ensures Steps(a, step) <= Steps(b, step)
  {
    ScaleDown(a, b, step);
    FloorMonotone(a / step + TOLERANCE, b / step + TOLERANCE);
  }

  lemma LesserKeepsOrder(p: real, q: real, a: real, b: real)
    requires p <= q && a <= b
    ensures RMin(p, a) <= RMin(q, b)
  {
  }

  lemma LesserStepsKeepOrder(m: real, n: real, step: real, a: real, b: real)
    requires m <= n && a <= b && step > 0.0
    ensures RMin(m * step, a) <= RMin(n * step, b)
  {
    ScaleUp(m, n, step);
    hide RMin;
    LesserKeepsOrder(m * step, n * step, a, b);
  }

  lemma FloorIsMonotone(a: real, b: real, step: real)
    requires step > 0.0 && a <= b
    ensures FloorSteps(a, step) <= FloorSteps(b, step)
  {
    StepsAreMonotone(a, b, step);
    if Steps(b, step) > 0 {
      SomeStepsArePositive(b, step);
      hide Steps;
      if Steps(a, step) > 0 {
        hide RMin;
        LesserStepsKeepOrder(Steps(a, step) as real, Steps(b, step) as real, step, a, b);
      }
    }
  }

  // -------------------------------------------------------- size contracts

  lemma MarketNeverGrows(market: MarketType, intent: TradeIntent, quantity: real, fractional: bool)
    requires quantity >= 0.0
    ensures 0.0 <= MarketQuantity(market, intent, quantity, fractional) <= quantity
  {
  }

  lemma ConstraintsNeverGrow(intent: TradeIntent, price: real, quantity: real, c: Constraints)
    requires quantity >= 0.0
    ensures 0.0 <= ConstrainedQuantity(intent, price, quantity, c) <= quantity
  {
    if c.quantityStep.Some? {
      FloorNeverRoundsUp(quantity, c.quantityStep.value);
    }
  }

  /** A close never asks for more than is held. */
  lemma CloseWithinHolding(
    intent: TradeIntent, market: MarketType, price: Float, held: Float, botRoom: Float, accountRoom: Float,
    maxOrder: Float, target: Float, c: Constraints, fractional: bool)
    requires Closes(intent)
    ensures var r := Resolve(intent, market, price, held, botRoom, accountRoom, maxOrder, target, c, fractional);
            0.0 <= r.quantity && (r.quantity > 0.0 ==> held.Finite? && r.quantity <= held.value)
  {
    if price.Finite? && price.value > 0.0 && held.Finite? && held.value >= 0.0 {
      MarketNeverGrows(market, intent, held.value, fractional);
      ConstraintsNeverGrow(intent, price.value, MarketQuantity(market, intent, held.value, fractional), c);
    }
  }

  lemma DesiredWithinLimits(target: Float, maxOrder: Float, botRoom: Float, accountRoom: Float)
    requires CappedTarget(target, maxOrder).Finite?
    ensures var desired := DesiredNotional(target, maxOrder, botRoom, accountRoom);
            && desired <= CappedTarget(target, maxOrder).value
            && (desired > 0.0 ==> Le(Finite(desired), botRoom) && Le(Finite(desired), accountRoom))
  {
  }

  lemma SizedNotionalBounds(intent: TradeIntent, market: MarketType, price: real, notional: real,
                            c: Constraints, fractional: bool, q: real)
    requires Opens(intent) && price > 0.0 && notional >= 0.0
    requires q == SizedNotional(intent, market, price, notional, c, fractional)
    ensures && 0.0 <= q && q * price <= notional
            && (q > 0.0 ==> MeetsMinimums(q, price, c))
  {
    var raw := notional / price;
    DivNonNegative(notional, price);
    MarketNeverGrows(market, intent, raw, fractional);
    ConstraintsNeverGrow(intent, price, MarketQuantity(market, intent, raw, fractional), c);
    ScaleUp(q, raw, price);
    DivMul(notional, price);
  }

  /** What an open of `q` at `price` may spend. */
  predicate SpendsWithin(q: real, price: real, capped: Float, botRoom: Float, accountRoom: Float) {
    && Le(Finite(q * price), capped)
    && Le(Finite(q * price), botRoom)
    && Le(Finite(q * price), accountRoom)
  }

  predicate MeetsMinimums(q: real, price: real, c: Constraints) {
    q > TOLERANCE && !Below(q, c.minQuantity) && !Below(q * price, c.minNotional)
  }

  lemma DesiredSpendsWithin(q: real, price: real, target: Float, maxOrder: Float, botRoom: Float, accountRoom: Float)
    requires CappedTarget(target, maxOrder).Finite?
    requires DesiredNotional(target, maxOrder, botRoom, accountRoom) > 0.0
    requires q * price <= DesiredNotional(target, maxOrder, botRoom, accountRoom)
    ensures SpendsWithin(q, price, CappedTarget(target, maxOrder), botRoom, accountRoom)
  {
    DesiredWithinLimits(target, maxOrder, botRoom, accountRoom);
  }

  /** A non-zero open is some desired notional, sized. */
  lemma OpenIsSizedNotional(
    intent: TradeIntent, market: MarketType, price: Float, held: Float, botRoom: Float, accountRoom: Float,
    maxOrder: Float, target: Float, c: Constraints, fractional: bool)
    requires Opens(intent)
    ensures var q := Resolve(intent, market, price, held, botRoom, accountRoom, maxOrder, target, c, fractional).quantity;
            q != 0.0 ==>
              && price.Finite? && price.value > 0.0 && CappedTarget(target, maxOrder).Finite?
              && DesiredNotional(target, maxOrder, botRoom, accountRoom) > 0.0
              && q == SizedNotional(intent, market, price.value,
                                    DesiredNotional(target, maxOrder, botRoom, accountRoom), c, fractional)
  {
  }

  /** An open never spends more than the target, the per-order limit or either room. */
  lemma OpenSpendsWithin(
    intent: TradeIntent, market: MarketType, price: Float, held: Float, botRoom: Float, accountRoom: Float,
    maxOrder: Float, target: Float, c: Constraints, fractional: bool, q: real)
    requires Opens(intent)
    requires q == Resolve(intent, market, price, held, botRoom, accountRoom, maxOrder, target, c, fractional).quantity
    requires q != 0.0
    ensures q > 0.0 && price.Finite? && price.value > 0.0
    ensures SpendsWithin(q, price.value, CappedTarget(target, maxOrder), botRoom, accountRoom)
  {
    hide Resolve, SizedNotional, DesiredNotional, SpendsWithin, MeetsMinimums;
    OpenIsSizedNotional(intent, market, price, held, botRoom, accountRoom, maxOrder, target, c, fractional);
    var desired := DesiredNotional(target, maxOrder, botRoom, accountRoom);
    assert q > 0.0 && q * price.value <= desired by {
      SizedNotionalBounds(intent, market, price.value, desired, c, fractional, q);
    }
    DesiredSpendsWithin(q, price.value, target, maxOrder, botRoom, accountRoom);
  }

  /** A non-zero open respects the configured minimum quantity and minimum notional. */
  lemma OpenMeetsMinimums(
    intent: TradeIntent, market: MarketType, price: Float, held: Float, botRoom: Float, accountRoom: Float,
    maxOrder: Float, target: Float, c: Constraints, fractional: bool, q: real)
    requires Opens(intent)
    requires q == Resolve(intent, market, price, held, botRoom, accountRoom, maxOrder, target, c, fractional).quantity
    requires q != 0.0
    ensures price.Finite? && MeetsMinimums(q, price.value, c)
  {
    hide Resolve, SizedNotional, DesiredNotional, SpendsWithin, MeetsMinimums;
    OpenIsSizedNotional(intent, market, price, held, botRoom, accountRoom, maxOrder, target, c, fractional);
    var desired := DesiredNotional(target, maxOrder, botRoom, accountRoom);
    SizedNotionalBounds(intent, market, price.value, desired, c, fractional, q);
  }

  // ---------------------------------------------------------- monotonicity

  lemma MarketIsMonotone(market: MarketType, intent: TradeIntent, a: real, b: real, fractional: bool)
    requires a <= b && Opens(intent)
    ensures MarketQuantity(market, intent, a, fractional) <= MarketQuantity(market, intent, b, fractional)
  {
    FloorMonotone(a, b);
  }

  lemma StepIsMonotone(a: real, b: real, step: Float)
    requires a <= b
    ensures FloorToStep(a, step) <= FloorToStep(b, step)
  {
    if step.Finite? && step.value > 0.0 {
      FloorIsMonotone(a, b, step.value);
    }
  }

  lemma ConstraintsAreMonotone(intent: TradeIntent, price: real, a: real, b: real, c: Constraints)
    requires 0.0 <= a <= b && Opens(intent) && price > 0.0
    ensures ConstrainedQuantity(intent, price, a, c) <= ConstrainedQuantity(intent, price, b, c)
  {
    hide FloorToStep;
    ConstraintsNeverGrow(intent, price, b, c);
    var x := if c.quantityStep.Some? then FloorToStep(a, c.quantityStep.value) else a;
    var y := if c.quantityStep.Some? then FloorToStep(b, c.quantityStep.value) else b;
    if c.quantityStep.Some? {
      StepIsMonotone(a, b, c.quantityStep.value);
    }
    ScaleUp(x, y, price);
    if ConstrainedQuantity(intent, price, a, c) != 0.0 {
      assert ConstrainedQuantity(intent, price, a, c) == x;
      assert ConstrainedQuantity(intent, price, b, c) == y;
    }
  }

  lemma LeastKeepsOrder(a: Float, b: Float, c: Float, d: Float)
    requires Le(a, b) && Le(c, d)
    ensures Le(FMin(a, c), FMin(b, d))
  {
  }

  lemma CapKeepsOrder(a: Float, b: Float, limit: Float)
    requires Le(a, b)
    ensures Le(FMin(a, limit), FMin(b, limit))
  {
  }

  lemma RoomKeepsOrder(a: Float, b: Float)
    requires Le(a, b)
    ensures Le(FMax(a, Finite(0.0)), FMax(b, Finite(0.0)))
  {
  }

  lemma DesiredIsMonotone(t1: Float, t2: Float, maxOrder: Float, b1: Float, b2: Float, a1: Float, a2: Float)
    requires Le(t1, t2) && Le(b1, b2) && Le(a1, a2)
    requires CappedTarget(t1, maxOrder).Finite? && CappedTarget(t2, maxOrder).Finite?
    ensures DesiredNotional(t1, maxOrder, b1, a1) <= DesiredNotional(t2, maxOrder, b2, a2)
  {
    CapKeepsOrder(t1, t2, maxOrder);
    RoomKeepsOrder(b1, b2);
    RoomKeepsOrder(a1, a2);
    var c1, c2 := CappedTarget(t1, maxOrder), CappedTarget(t2, maxOrder);
    var u1, u2 := FMax(b1, Finite(0.0)), FMax(b2, Finite(0.0));
    LeastKeepsOrder(c1, c2, u1, u2);
    LeastKeepsOrder(FMin(c1, u1), FMin(c2, u2), FMax(a1, Finite(0.0)), FMax(a2, Finite(0.0)));
    hide FMin, FMax;
  }

  /** The target and the per-order limit are both unbounded, so the sizer has no finite notional to start from. */
  predicate Unbounded(target: Float, maxOrder: Float) {
    target.PosInf? && (maxOrder.PosInf? || maxOrder.NaN?)
  }

  lemma SizedIsMonotone(intent: TradeIntent, market: MarketType, price: real, a: real, b: real,
                        c: Constraints, fractional: bool)
    requires Opens(intent) && price > 0.0 && 0.0 < a <= b
    ensures SizedNotional(intent, market, price, a, c, fractional) <= SizedNotional(intent, market, price, b, c, fractional)
  {
    hide MarketQuantity, ConstrainedQuantity;
    ScaleDown(a, b, price);
    ScaleDown(0.0, a, price);
    MarketIsMonotone(market, intent, a / price, b / price, fractional);
    MarketNeverGrows(market, intent, a / price, fractional);
    ConstraintsAreMonotone(intent, price, MarketQuantity(market, intent, a / price, fractional),
                           MarketQuantity(market, intent, b / price, fractional), c);
  }

  /** More target notional, bot room or account room never shrinks an open order, short of an unbounded target. */
  lemma OpenIsMonotone(
    intent: TradeIntent, market: MarketType, price: Float, held: Float, maxOrder: Float,
    c: Constraints, fractional: bool,
    t1: Float, t2: Float, b1: Float, b2: Float, a1: Float, a2: Float)
    requires Opens(intent) && Le(t1, t2) && Le(b1, b2) && Le(a1, a2)
    requires !Unbounded(t2, maxOrder)
    ensures Resolve(intent, market, price, held, b1, a1, maxOrder, t1, c, fractional).quantity
         <= Resolve(intent, market, price, held, b2, a2, maxOrder, t2, c, fractional).quantity
  {
    hide SizedNotional, DesiredNotional;
    var q := Resolve(intent, market, price, held, b2, a2, maxOrder, t2, c, fractional).quantity;
    if q != 0.0 {
      OpenSpendsWithin(intent, market, price, held, b2, a2, maxOrder, t2, c, fractional, q);
    }
    var capped := CappedTarget(t1, maxOrder);
    if price.Finite? && price.value > 0.0 && capped.Finite? && capped.value > 0.0 {
      var d1 := DesiredNotional(t1, maxOrder, b1, a1);
      if d1 > 0.0 {
        DesiredIsMonotone(t1, t2, maxOrder, b1, b2, a1, a2);
        SizedIsMonotone(intent, market, price.value, d1, DesiredNotional(t2, maxOrder, b2, a2), c, fractional);
      }
    }
  }

  /** An unbounded target opens nothing, although a finite one would: monotonicity fails exactly there. */
  lemma UnboundedTargetOpensNothing(maxOrder: Float)
    requires maxOrder.PosInf? || maxOrder.NaN?
    ensures var room, none := Finite(100.0), Constraints(None, None, None);
            && Resolve(OpenLong, Crypto, Finite(1.0), Finite(0.0), room, room, maxOrder, Finite(100.0), none, true).quantity
               == 100.0
            && Resolve(OpenLong, Crypto, Finite(1.0), Finite(0.0), room, room, maxOrder, PosInf, none, true).quantity == 0.0
  {
  }

  // -------------------------------------------------------- the risk policy

  datatype RiskLimits = RiskLimits(
    maxDailyLossPct: real, maxOpenPositions: nat, maxOrderNotional: Float, maxSpreadBps: nat, maxSlippageBps: nat)

  datatype RiskContext = RiskContext(
    intent: TradeIntent, price: Float, quantity: Float, staleData: bool, openPositions: nat,
    dailyLossPct: real, spreadBps: nat, slippageBps: nat, cooldownActive: bool)

  datatype RejectReason =
    | KillSwitchEnabled | QuantityNotPositive | CooldownActive | StaleMarketData | SpreadExceedsMax
    | SlippageExceedsMax | DailyLossExceedsMax | OrderNotionalExceedsMax | OpenPositionsExceedsMax

  datatype PolicyDecision = Allowed(intent: TradeIntent) | Rejected(reason: RejectReason)

  function Evaluate(limits: RiskLimits, killSwitch: bool, ctx: RiskContext): PolicyDecision {
    if killSwitch then Rejected(KillSwitchEnabled)
    else if !ctx.intent.NoOp? && !(Sanitize(ctx.price) > 0.0 && Sanitize(ctx.quantity) > 0.0) then
      Rejected(QuantityNotPositive)
    else if !Opens(ctx.intent) then Allowed(ctx.intent)
    else if ctx.cooldownActive then Rejected(CooldownActive)
    else if ctx.staleData then Rejected(StaleMarketData)
    else if ctx.spreadBps > limits.maxSpreadBps then Rejected(SpreadExceedsMax)
    else if ctx.slippageBps > limits.maxSlippageBps then Rejected(SlippageExceedsMax)
    else if ctx.dailyLossPct >= limits.maxDailyLossPct then Rejected(DailyLossExceedsMax)
    else if !limits.maxOrderNotional.NaN? &&
            !Le(Finite(ctx.price.value * ctx.quantity.value), limits.maxOrderNotional) then
      Rejected(OrderNotionalExceedsMax)
    else if ctx.openPositions >= limits.maxOpenPositions then Rejected(OpenPositionsExceedsMax)
    else Allowed(ctx.intent)
  }

  lemma ZeroOrderIsNotTooLarge(limits: RiskLimits, killSwitch: bool, ctx: RiskContext)
    requires ctx.quantity == Finite(0.0)
    ensures Evaluate(limits, killSwitch, ctx) != Rejected(OrderNotionalExceedsMax)
  {
  }

  lemma SmallOrderPasses(limits: RiskLimits, killSwitch: bool, ctx: RiskContext, target: Float)
    requires ctx.price.Finite? && ctx.quantity.Finite?
    requires Le(Finite(ctx.quantity.value * ctx.price.value), CappedTarget(target, limits.maxOrderNotional))
    ensures Evaluate(limits, killSwitch, ctx) != Rejected(OrderNotionalExceedsMax)
  {
    assert ctx.price.value * ctx.quantity.value == ctx.quantity.value * ctx.price.value;
  }

  /** The policy never turns down an order for its notional if the sizer sized it. */
  lemma SizedOrderPassesNotionalLimit(
    limits: RiskLimits, killSwitch: bool, ctx: RiskContext, market: MarketType, held: Float,
    botRoom: Float, accountRoom: Float, target: Float, c: Constraints, fractional: bool)
    requires Opens(ctx.intent)
    requires ctx.quantity == Finite(Resolve(ctx.intent, market, ctx.price, held, botRoom, accountRoom,
                                            limits.maxOrderNotional, target, c, fractional).quantity)
    ensures Evaluate(limits, killSwitch, ctx) != Rejected(OrderNotionalExceedsMax)
  {
    hide Resolve;
    var q, capped := ctx.quantity.value, CappedTarget(target, limits.maxOrderNotional);
    if q == 0.0 {
      ZeroOrderIsNotTooLarge(limits, killSwitch, ctx);
    } else {
      assert ctx.price.Finite? && Le(Finite(q * ctx.price.value), capped) by {
        OpenSpendsWithin(ctx.intent, market, ctx.price, held, botRoom, accountRoom,
                         limits.maxOrderNotional, target, c, fractional, q);
      }
      SmallOrderPasses(limits, killSwitch, ctx, target);
    }
  }
}

/**
 * Sizer and ledger agree on what can be reserved.
 */
module SizedReservations {
  import opened Floats
  import opened Market
  import opened LanePositions
  import opened Sizing
  import L = Ledgers
  import Sums

  /** The order size for a bot, from the rooms its own ledger reports. */
  ghost function SizedFromLedger(
    l: L.Ledger, bot: string, pct: real, intent: TradeIntent, market: MarketType, price: Float,
    maxOrder: Float, target: Float, c: Constraints, fractional: bool): real
  {
    Resolve(intent, market, price, Finite(0.0), Finite(L.BotTradeableRoom(l, bot, pct)),
            Finite(L.TradeableRoom(l)), maxOrder, target, c, fractional).quantity
  }

  /** Reserving the notional of an order sized from the ledger's own rooms always
      succeeds on the unchanged ledger, and reserves exactly that notional. */
  lemma SizedOrderAlwaysReserves(
    l: L.Ledger, owner: L.Owner, pct: real, intent: TradeIntent, market: MarketType, price: Float,
    maxOrder: Float, target: Float, c: Constraints, fractional: bool)
    requires Opens(intent)
    ensures var q := SizedFromLedger(l, owner.bot, pct, intent, market, price, maxOrder, target, c, fractional);
            var amount := Notional(Finite(q), price);
            && L.ReserveRefusal(l, owner, Finite(amount), pct).None?
            && (amount > TOLERANCE ==>
                  L.Reserved(l, owner, Finite(amount), pct).reserved ==
                  l.reserved[owner := Sums.Get(l.reserved, owner) + amount])
  {
    hide Resolve;
    var room := L.BotTradeableRoom(l, owner.bot, pct);
    var q := SizedFromLedger(l, owner.bot, pct, intent, market, price, maxOrder, target, c, fractional);
    assert Fits(q, price, room) by {
      if q != 0.0 {
        OpenSpendsWithin(intent, market, price, Finite(0.0), Finite(room), Finite(L.TradeableRoom(l)),
                         maxOrder, target, c, fractional, q);
      }
    }
    L.RoomAdmits(l, owner, Notional(Finite(q), price), pct);
  }

  predicate Fits(q: real, price: Float, room: real) {
    Notional(Finite(q), price) <= TOLERANCE || Notional(Finite(q), price) <= room
  }

  /** While the ledger is blocked, nothing can be sized to open. */
  lemma BlockedLedgerSizesNothing(
    l: L.Ledger, bot: string, pct: real, intent: TradeIntent, market: MarketType, price: Float,
    maxOrder: Float, target: Float, c: Constraints, fractional: bool)
    requires Opens(intent) && L.Blocked(l)
    ensures SizedFromLedger(l, bot, pct, intent, market, price, maxOrder, target, c, fractional) == 0.0
  {
    assert L.TradeableRoom(l) == 0.0;
  }
}
