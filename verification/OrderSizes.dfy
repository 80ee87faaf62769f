/**
 * What the sizer comes to, read off its inputs: how much of a holding a close sells and how
 * much of the money an open spends, with the outcome it reports, and the risk policy as a
 * list of checks.
 */
module OrderSizes {
  import opened Options
  import opened Floats
  import opened Arithmetic
  import opened Market
  import opened LanePositions
  import opened Sizing

  // ----- What market and exchange make of a quantity -----

  /** The part of `x` that the market trades: shares come whole where fractions are not traded. */
  function Tradable(x: real, whole: bool): real {
    if whole then x.Floor as real else x
  }

  /** `f` is `x` cut to the step: less than one step is lost, and `f` is a number of steps, up to a billionth of one. */
  ghost predicate CutToStep(f: real, x: real, step: Option<Float>) {
    match step
    case None => f == x
    case Some(Finite(s)) =>
      if s > 0.0 then 0.0 <= f <= x && x - f < s && exists n: nat :: Near(f, n, s) else f == 0.0
    case Some(_) => f == 0.0
  }

  predicate Near(f: real, n: nat, step: real) { -TOLERANCE * step <= f - n as real * step <= TOLERANCE * step }

  /** `x` is short of a minimum that is set; an infinite one is never met, and NaN is none. */
  predicate ShortOf(x: real, minimum: Option<Float>) {
    match minimum
    case Some(Finite(m)) => x < m
    case Some(PosInf) => true
    case _ => false
  }

  lemma StepLosesLessThanOne(x: real, step: real)
    requires step > 0.0 && x >= 0.0
    ensures x - FloorSteps(x, step) < step
  {
    var n := Steps(x, step);
    assert x / step < (n + 1) as real;
    assert x < (n + 1) as real * step by {
      DivMul(x, step);
      MulPositive((n + 1) as real - x / step, step);
      assert ((n + 1) as real - x / step) * step == (n + 1) as real * step - x / step * step;
    }
    assert (n + 1) as real * step == n as real * step + step;
    if n <= 0 {
      ScaleUp(n as real, 0.0, step);
    }
  }

  lemma CutBySteps(x: real, step: real)
    requires x >= 0.0 && step > 0.0
    ensures CutToStep(FloorSteps(x, step), x, Some(Finite(step)))
  {
    FloorNeverRoundsUp(x, Finite(step));
    StepLosesLessThanOne(x, step);
    FloorLandsOnStep(x, step);
    var n :| NearSteps(FloorSteps(x, step), step, n);
    var f := FloorSteps(x, step);
    hide FloorSteps;
    assert Near(f, n, step);
  }

  /** The cut is taken to be nothing when it is negligible, or short of a minimum; closes need not meet the minimum notional. */
  ghost predicate Yields(q: real, x: real, price: real, c: Constraints, closing: bool) {
    exists f ::
      && CutToStep(f, x, c.quantityStep)
      && q == if f <= TOLERANCE || ShortOf(f, c.minQuantity) || (!closing && ShortOf(f * price, c.minNotional)) then 0.0 else f
  }

  lemma ConstraintsYield(intent: TradeIntent, price: real, x: real, c: Constraints)
    requires x >= 0.0
    ensures Yields(ConstrainedQuantity(intent, price, x, c), x, price, c, Closes(intent))
    ensures Yields(ConstrainedQuantity(intent, price, if x <= TOLERANCE then 0.0 else x, c), x, price, c, Closes(intent))
  {
    var f := if c.quantityStep.Some? then FloorToStep(x, c.quantityStep.value) else x;
    assert CutToStep(f, x, c.quantityStep) by {
      if c.quantityStep.Some? && c.quantityStep.value.Finite? && c.quantityStep.value.value > 0.0 {
        CutBySteps(x, c.quantityStep.value.value);
      }
    }
    assert x <= TOLERANCE ==> f <= TOLERANCE;
    assert Below(f, c.minQuantity) == ShortOf(f, c.minQuantity) && Below(f * price, c.minNotional) == ShortOf(f * price, c.minNotional);
    hide CutToStep, FloorToStep, Below, ShortOf;
    assert ConstrainedQuantity(intent, price, x, c) ==
           if f <= TOLERANCE || ShortOf(f, c.minQuantity) || (!Closes(intent) && ShortOf(f * price, c.minNotional)) then 0.0 else f;
  }

  // ----- Closing -----

  /** A close sells what is held, in whole shares where one or more is held, as the constraints allow. */
  lemma CloseOnInputs(
    intent: TradeIntent, market: MarketType, price: real, held: real, botRoom: Float, accountRoom: Float,
    maxOrder: Float, target: Float, c: Constraints, fractional: bool)
    requires intent.CloseLong? || intent.ReduceLong?
    requires price > 0.0 && held >= 0.0
    ensures var r := Resolve(intent, market, Finite(price), Finite(held), botRoom, accountRoom, maxOrder, target, c, fractional);
            && r.outcome.None?
            && Yields(r.quantity, Tradable(held, market.Equities? && held >= 1.0), price, c, true)
  {
    var x := Tradable(held, market.Equities? && held >= 1.0);
    assert MarketQuantity(market, intent, held, fractional) == if x <= TOLERANCE then 0.0 else x;
    ConstraintsYield(intent, price, x, c);
    hide Yields, ConstrainedQuantity, MarketQuantity;
  }

  /** Without constraints a close sells all of a coin, and all whole shares or the fraction left of a stock. */
  lemma PlainCloseOnInputs(
    intent: TradeIntent, market: MarketType, price: real, held: real, botRoom: Float, accountRoom: Float,
    maxOrder: Float, target: Float, fractional: bool)
    requires intent.CloseLong? || intent.ReduceLong?
    requires price > 0.0 && held > TOLERANCE
    ensures Resolve(intent, market, Finite(price), Finite(held), botRoom, accountRoom, maxOrder, target,
                    Constraints(None, None, None), fractional).quantity ==
            if market.Equities? && held >= 1.0 then held.Floor as real else held
  {
    CloseOnInputs(intent, market, price, held, botRoom, accountRoom, maxOrder, target, Constraints(None, None, None), fractional);
    hide Resolve;
  }

  /** No price, nothing to close, or a holding that is no holding. */
  lemma NothingToSize(
    intent: TradeIntent, market: MarketType, price: Float, held: Float, botRoom: Float, accountRoom: Float,
    maxOrder: Float, target: Float, c: Constraints, fractional: bool)
    requires || intent.NoOp?
             || !price.Finite? || price.value <= 0.0
             || ((intent.CloseLong? || intent.ReduceLong?) && (!held.Finite? || held.value < 0.0))
    ensures Resolve(intent, market, price, held, botRoom, accountRoom, maxOrder, target, c, fractional) == Resolution(0.0, None)
  {
  }

  // ----- Opening -----

  /** `d` does not pass a limit; NaN and infinity set none. */
  predicate Within(d: real, limit: Float) {
    match limit
    case Finite(x) => d <= x
    case NegInf => false
    case _ => true
  }

  /** `d` fits a room; a room that is no number has no space. */
  predicate FitsRoom(d: real, room: Float) {
    match room
    case Finite(x) => d <= x
    case PosInf => true
    case _ => false
  }

  /** `d` is the most that target, order limit and both rooms allow, and is money. */
  predicate Spends(d: real, target: Float, maxOrder: Float, botRoom: Float, accountRoom: Float) {
    && d > 0.0
    && (target.Finite? || maxOrder.Finite?)
    && Within(d, target) && Within(d, maxOrder) && FitsRoom(d, botRoom) && FitsRoom(d, accountRoom)
    && Finite(d) in {target, maxOrder, botRoom, accountRoom}
  }

  /** An open spends all it may, but for what whole shares, steps and minimums leave over. */
  lemma OpenOnInputs(
    intent: TradeIntent, market: MarketType, price: real, held: Float, botRoom: Float, accountRoom: Float,
    maxOrder: Float, target: Float, c: Constraints, fractional: bool, d: real)
    requires intent.OpenLong? || intent.AddLong?
    requires price > 0.0 && Spends(d, target, maxOrder, botRoom, accountRoom)
    ensures var r := Resolve(intent, market, Finite(price), held, botRoom, accountRoom, maxOrder, target, c, fractional);
            && Yields(r.quantity, Tradable(d / price, market.Equities? && !fractional), price, c, false)
            && r.outcome == if r.quantity <= TOLERANCE && d / price > TOLERANCE then Some(Dust) else None
  {
    SpendsIsDesired(target, maxOrder, botRoom, accountRoom, d);
    DivNonNegative(d, price);
    var x := Tradable(d / price, market.Equities? && !fractional);
    assert MarketQuantity(market, intent, d / price, fractional) == if x <= TOLERANCE then 0.0 else x;
    ConstraintsYield(intent, price, x, c);
    hide Yields, ConstrainedQuantity, MarketQuantity, DesiredNotional, Spends;
  }

  /** So an open that is placed falls short of what it may buy by less than a share and a step together. */
  lemma OpenFallsShortBy(
    intent: TradeIntent, market: MarketType, price: real, held: Float, botRoom: Float, accountRoom: Float,
    maxOrder: Float, target: Float, c: Constraints, fractional: bool, d: real)
    requires intent.OpenLong? || intent.AddLong?
    requires price > 0.0 && Spends(d, target, maxOrder, botRoom, accountRoom)
    ensures var q := Resolve(intent, market, Finite(price), held, botRoom, accountRoom, maxOrder, target, c, fractional).quantity;
            q != 0.0 ==>
              var share := if market.Equities? && !fractional then 1.0 else 0.0;
              var step := if c.quantityStep.Some? && c.quantityStep.value.Finite? then c.quantityStep.value.value else 0.0;
              d / price - share - step <= q <= d / price
  {
    OpenOnInputs(intent, market, price, held, botRoom, accountRoom, maxOrder, target, c, fractional, d);
    hide Resolve, Spends;
  }

  lemma SpendsIsDesired(target: Float, maxOrder: Float, botRoom: Float, accountRoom: Float, d: real)
    requires Spends(d, target, maxOrder, botRoom, accountRoom)
    ensures CappedTarget(target, maxOrder).Finite? && CappedTarget(target, maxOrder).value > 0.0
    ensures DesiredNotional(target, maxOrder, botRoom, accountRoom) == d
  {
  }

  /** With no finite positive target, or no room, nothing is opened; a used-up room is named, the bot's first. */
  lemma NothingToOpen(
    intent: TradeIntent, market: MarketType, price: real, held: Float, botRoom: Float, accountRoom: Float,
    maxOrder: Float, target: Float, c: Constraints, fractional: bool)
    requires intent.OpenLong? || intent.AddLong?
    requires price > 0.0 && !exists d :: Spends(d, target, maxOrder, botRoom, accountRoom)
    ensures var r := Resolve(intent, market, Finite(price), held, botRoom, accountRoom, maxOrder, target, c, fractional);
            && r.quantity == 0.0
            && (var wanted := (target.Finite? || maxOrder.Finite?) && Limit(target) && Limit(maxOrder);
                r.outcome ==
                  if wanted && UsedUp(botRoom) then Some(BotExhausted)
                  else if wanted && UsedUp(accountRoom) then Some(AccountExhausted)
                  else None)
  {
    hide SizedNotional;
    var capped := CappedTarget(target, maxOrder);
    if capped.Finite? && capped.value > 0.0 {
      var d := DesiredNotional(target, maxOrder, botRoom, accountRoom);
      if d > 0.0 {
        DesiredSpends(target, maxOrder, botRoom, accountRoom);
      }
    }
  }

  lemma DesiredSpends(target: Float, maxOrder: Float, botRoom: Float, accountRoom: Float)
    requires CappedTarget(target, maxOrder).Finite? && CappedTarget(target, maxOrder).value > 0.0
    requires DesiredNotional(target, maxOrder, botRoom, accountRoom) > 0.0
    ensures Spends(DesiredNotional(target, maxOrder, botRoom, accountRoom), target, maxOrder, botRoom, accountRoom)
  {
  }

  /** A limit that leaves something to spend. */
  predicate Limit(x: Float) {
    match x
    case Finite(v) => v > 0.0
    case NegInf => false
    case _ => true
  }

  predicate UsedUp(room: Float) {
    match room
    case Finite(x) => x <= EPSILON
    case NegInf => true
    case _ => false
  }

  // ----- The risk policy -----

  /** The checks of the policy in order; the later ones concern opens alone. */
  function Checks(limits: RiskLimits, killSwitch: bool, ctx: RiskContext): seq<(bool, RejectReason)> {
    var opens := ctx.intent.OpenLong? || ctx.intent.AddLong?;
    [(killSwitch, KillSwitchEnabled),
     (!ctx.intent.NoOp? && !(Positive(ctx.price) && Positive(ctx.quantity)), QuantityNotPositive),
     (opens && ctx.cooldownActive, CooldownActive),
     (opens && ctx.staleData, StaleMarketData),
     (opens && ctx.spreadBps > limits.maxSpreadBps, SpreadExceedsMax),
     (opens && ctx.slippageBps > limits.maxSlippageBps, SlippageExceedsMax),
     (opens && ctx.dailyLossPct >= limits.maxDailyLossPct, DailyLossExceedsMax),
     (opens && Positive(ctx.price) && Positive(ctx.quantity) &&
      !Within(ctx.price.value * ctx.quantity.value, limits.maxOrderNotional), OrderNotionalExceedsMax),
     (opens && ctx.openPositions >= limits.maxOpenPositions, OpenPositionsExceedsMax)]
  }

  predicate Positive(x: Float) { x.Finite? && x.value > 0.0 }

  predicate FirstToStrike(checks: seq<(bool, RejectReason)>, i: int) {
    0 <= i < |checks| && checks[i].0 && forall j :: 0 <= j < i ==> !checks[j].0
  }

  function Position(reason: RejectReason): nat {
    match reason
    case KillSwitchEnabled => 0
    case QuantityNotPositive => 1
    case CooldownActive => 2
    case StaleMarketData => 3
    case SpreadExceedsMax => 4
    case SlippageExceedsMax => 5
    case DailyLossExceedsMax => 6
    case OrderNotionalExceedsMax => 7
    case OpenPositionsExceedsMax => 8
  }

  /** The policy is its list of checks: the first that strikes rejects, and when none does the intent is allowed. */
  lemma PolicyOnInputs(limits: RiskLimits, killSwitch: bool, ctx: RiskContext)
    ensures var checks := Checks(limits, killSwitch, ctx);
            match Evaluate(limits, killSwitch, ctx)
            case Rejected(reason) => exists i :: FirstToStrike(checks, i) && checks[i].1 == reason
            case Allowed(intent) => intent == ctx.intent && forall i :: 0 <= i < |checks| ==> !checks[i].0
  {
    var checks, r := Checks(limits, killSwitch, ctx), Evaluate(limits, killSwitch, ctx);
    if r.Rejected? {
      assert FirstToStrike(checks, Position(r.reason));
    }
  }
}
