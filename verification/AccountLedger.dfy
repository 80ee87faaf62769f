/**
 * The capital ledger of one trading account: open and reserved notional per
 * owner, the caps that bound them, and the safety of whole reservation runs.
 */
module Ledgers {
  import opened Options
  import opened Floats
  import opened Sums

  datatype Owner = Owner(account: string, bot: string, symbol: string)

  datatype ExceptionKind =
    | UnmatchedConnectorPosition
    | AmbiguousSymbolOwner
    | ManagedPositionDeficit
    | UnmappedManagedOpenOrder
    | UnpricedInventory
    | FeeNormalizationMissing

  datatype LedgerException =
    LedgerException(kind: ExceptionKind, owner: Option<Owner>, symbol: Option<string>,
                    detail: string, blocksNewOpens: bool)

  datatype ReservationError = BotCapacityExceeded | AccountCapacityExceeded

  /** The value of a ledger: what `AccountLedger` holds at one moment. */
  datatype Ledger = Ledger(
    declared: real,
    live: Option<real>,
    open: map<Owner, real>,
    reserved: map<Owner, real>,
    unattributed: real,
    exceptions: seq<LedgerException>)

  // ---------------------------------------------------------------- queries

  function EffectiveCap(l: Ledger): real {
    if l.live.Some? then RMin(l.declared, RMax(l.live.value, 0.0)) else l.declared
  }

  function BotAllocated(l: Ledger, pct: real): real {
    RMax(EffectiveCap(l) * pct / 100.0, 0.0)
  }

  predicate Blocked(l: Ledger) {
    exists i :: 0 <= i < |l.exceptions| && l.exceptions[i].blocksNewOpens
  }

  function OfBot(bot: string): Owner -> bool {
    (o: Owner) => o.bot == bot
  }

  ghost function BotTotal(m: map<Owner, real>, bot: string): real {
    Total(Where(m, OfBot(bot)))
  }

  ghost function BotCommitted(l: Ledger, bot: string): real {
    BotTotal(l.open, bot) + BotTotal(l.reserved, bot)
  }

  ghost function Committed(l: Ledger): real {
    Total(l.open) + l.unattributed + Total(l.reserved)
  }

  ghost function AvailableRoom(l: Ledger): real {
    RMax(EffectiveCap(l) - Committed(l), 0.0)
  }

  ghost function TradeableRoom(l: Ledger): real {
    if Blocked(l) then 0.0 else AvailableRoom(l)
  }

  ghost function BotAvailableRoom(l: Ledger, bot: string, pct: real): real {
    RMax(BotAllocated(l, pct) - BotCommitted(l, bot), 0.0)
  }

  ghost function BotTradeableRoom(l: Ledger, bot: string, pct: real): real {
    RMin(BotAvailableRoom(l, bot, pct), TradeableRoom(l))
  }

  // ------------------------------------------------- what each update means

  function Adjusted(m: map<Owner, real>, owner: Owner, delta: real): map<Owner, real> {
    var next := Get(m, owner) + delta;
    if next > TOLERANCE then m[owner := next] else m - {owner}
  }

  ghost function ReserveRefusal(l: Ledger, owner: Owner, amount: Float, pct: real): Option<ReservationError> {
    var notional := Sanitize(amount);
    if notional <= TOLERANCE || notional <= BotTradeableRoom(l, owner.bot, pct) + TOLERANCE then
      None
    else if BotAvailableRoom(l, owner.bot, pct) <= TOLERANCE then
      Some(BotCapacityExceeded)
    else
      Some(AccountCapacityExceeded)
  }

  ghost function Reserved(l: Ledger, owner: Owner, amount: Float, pct: real): Ledger {
    var notional := Sanitize(amount);
    if notional <= TOLERANCE || ReserveRefusal(l, owner, amount, pct).Some? then l
    else l.(reserved := l.reserved[owner := Get(l.reserved, owner) + notional])
  }

  /** An amount that fits the tradeable room is reserved in full. */
  lemma RoomAdmits(l: Ledger, owner: Owner, amount: real, pct: real)
    requires amount <= TOLERANCE || amount <= BotTradeableRoom(l, owner.bot, pct)
    ensures ReserveRefusal(l, owner, Finite(amount), pct).None?
    ensures amount > TOLERANCE ==>
              Reserved(l, owner, Finite(amount), pct) ==
              l.(reserved := l.reserved[owner := Get(l.reserved, owner) + amount])
  {
  }

  predicate ValidRelease(amount: Float) {
    amount.Finite? && amount.value > 0.0
  }

  function Released(l: Ledger, owner: Owner, amount: Float): Ledger {
    if ValidRelease(amount) then l.(reserved := Adjusted(l.reserved, owner, -amount.value)) else l
  }

  function PositionReleased(l: Ledger, owner: Owner, amount: Float): Ledger {
    if ValidRelease(amount) then l.(open := Adjusted(l.open, owner, -amount.value)) else l
  }

  function Reconciled(l: Ledger, owner: Owner, filled: Float, reserved: Float): Ledger {
    var f, r := Sanitize(filled), Sanitize(reserved);
    var l1 := if r > TOLERANCE then Released(l, owner, Finite(r)) else l;
    if f > TOLERANCE then l1.(open := Adjusted(l1.open, owner, f)) else l1
  }

  /** Entries above the tolerance; when an owner repeats, the last such entry wins. */
  function OpenEntries(entries: seq<(Owner, Float)>): (m: map<Owner, real>)
    ensures forall o :: o in m ==> m[o] > TOLERANCE
  {
    if entries == [] then map[]
    else
      var rest := OpenEntries(entries[..|entries| - 1]);
      var (owner, amount) := entries[|entries| - 1];
      if Sanitize(amount) > TOLERANCE then rest[owner := Sanitize(amount)] else rest
  }

  /** Every tracked amount is above the tolerance; nothing is ever negative. */
  ghost predicate Sound(l: Ledger) {
    && l.declared >= 0.0
    && (l.live.Some? ==> l.live.value >= 0.0)
    && l.unattributed >= 0.0
    && (forall o :: o in l.open ==> l.open[o] > TOLERANCE)
    && (forall o :: o in l.reserved ==> l.reserved[o] > TOLERANCE)
  }

  // --------------------------------------------------------- the live object

  class AccountLedger {
    var declared: real
    var live: Option<real>
    var open: map<Owner, real>
    var reserved: map<Owner, real>
    var unattributed: real
    var exceptions: seq<LedgerException>

    ghost function View(): Ledger
      reads this
    {
      Ledger(declared, live, open, reserved, unattributed, exceptions)
    }

    constructor (declaredTotal: Float)
      ensures View() == Ledger(Sanitize(declaredTotal), None, map[], map[], 0.0, [])
      ensures Sound(View())
    {
      declared := Sanitize(declaredTotal);
      live := None;
      open := map[];
      reserved := map[];
      unattributed := 0.0;
      exceptions := [];
    }

    method SetLiveBalance(balance: Option<Float>)
      modifies this
      ensures View() == old(View()).(live := if balance.Some? then Some(Sanitize(balance.value)) else None)
      ensures old(Sound(View())) ==> Sound(View())
    {
      live := if balance.Some? then Some(Sanitize(balance.value)) else None;
    }

    method SetUnattributed(notional: Float)
      modifies this
      ensures View() == old(View()).(unattributed := Sanitize(notional))
      ensures old(Sound(View())) ==> Sound(View())
    {
      unattributed := Sanitize(notional);
    }

    method ReplaceExceptions(next: seq<LedgerException>)
      modifies this
      ensures View() == old(View()).(exceptions := next)
      ensures old(Sound(View())) ==> Sound(View())
    {
      exceptions := next;
    }

    method ReplaceLaneOpen(entries: seq<(Owner, Float)>)
      modifies this
      ensures View() == old(View()).(open := OpenEntries(entries))
      ensures old(Sound(View())) ==> Sound(View())
    {
      var next: map<Owner, real> := map[];
      var i := 0;
      while i < |entries|
        invariant 0 <= i <= |entries|
        invariant next == OpenEntries(entries[..i])
        invariant unchanged(this)
      {
        var (owner, amount) := entries[i];
        assert entries[..i + 1][..i] == entries[..i];
        if Sanitize(amount) > TOLERANCE {
          next := next[owner := Sanitize(amount)];
        }
        i := i + 1;
      }
      assert entries[..i] == entries;
      open := next;
    }

    method AccountTradeableRoom() returns (room: real)
      ensures room == TradeableRoom(View())
    {
      if Blocked(Ledger(declared, live, open, reserved, unattributed, exceptions)) {
        return 0.0;
      }
      var attributed := Accumulate(open, (o: Owner) => true);
      var held := Accumulate(reserved, (o: Owner) => true);
      assert Where(open, (o: Owner) => true) == open;
      assert Where(reserved, (o: Owner) => true) == reserved;
      var cap := if live.Some? then RMin(declared, RMax(live.value, 0.0)) else declared;
      room := RMax(cap - (attributed + unattributed + held), 0.0);
    }

    method BotOpenRoom(bot: string, pct: real) returns (room: real)
      ensures room == BotAvailableRoom(View(), bot, pct)
    {
      var attributed := Accumulate(open, OfBot(bot));
      var held := Accumulate(reserved, OfBot(bot));
      var cap := if live.Some? then RMin(declared, RMax(live.value, 0.0)) else declared;
      room := RMax(RMax(cap * pct / 100.0, 0.0) - (attributed + held), 0.0);
    }

    method TryReserveOpen(owner: Owner, amount: Float, pct: real)
      returns (refusal: Option<ReservationError>)
      modifies this
      ensures refusal == old(ReserveRefusal(View(), owner, amount, pct))
      ensures View() == old(Reserved(View(), owner, amount, pct))
      ensures old(Sound(View())) ==> Sound(View())
    {
      var notional := Sanitize(amount);
      if notional <= TOLERANCE {
        return None;
      }
      var botRoom := BotOpenRoom(owner.bot, pct);
      var accountRoom := AccountTradeableRoom();
      if notional > RMin(botRoom, accountRoom) + TOLERANCE {
        return Some(if botRoom <= TOLERANCE then BotCapacityExceeded else AccountCapacityExceeded);
      }
      reserved := reserved[owner := Get(reserved, owner) + notional];
      refusal := None;
    }

    method ReleaseReservation(owner: Owner, amount: Float) returns (ok: bool)
      modifies this
      ensures ok == ValidRelease(amount)
      ensures View() == old(Released(View(), owner, amount))
      ensures old(Sound(View())) ==> Sound(View())
    {
      if !ValidRelease(amount) {
        return false;
      }
      reserved := Adjusted(reserved, owner, -amount.value);
      ok := true;
    }

    method ReconcileOpenFill(owner: Owner, filled: Float, amount: Float)
      modifies this
      ensures View() == old(Reconciled(View(), owner, filled, amount))
      ensures old(Sound(View())) ==> Sound(View())
    {
      var f, r := Sanitize(filled), Sanitize(amount);
      if r > TOLERANCE {
        var released := ReleaseReservation(owner, Finite(r));
        assert released;
      }
      if f > TOLERANCE {
        open := Adjusted(open, owner, f);
      }
    }

    method ReleasePosition(owner: Owner, amount: Float) returns (ok: bool)
      modifies this
      ensures ok == ValidRelease(amount)
      ensures View() == old(PositionReleased(View(), owner, amount))
      ensures old(Sound(View())) ==> Sound(View())
    {
      if !ValidRelease(amount) {
        return false;
      }
      open := Adjusted(open, owner, -amount.value);
      ok := true;
    }
  }

  // ------------------------------------------------------------ whole runs

  datatype Op =
    | Reserve(owner: Owner, amount: Float)
    | Release(owner: Owner, amount: Float)
    | Close(owner: Owner, amount: Float)
    | Fill(owner: Owner, filled: Float, reservation: Float)
    | Except(next: seq<LedgerException>)

  ghost function Step(l: Ledger, op: Op, pct: string -> real): Ledger {
    match op
    case Reserve(owner, amount) => Reserved(l, owner, amount, pct(owner.bot))
    case Release(owner, amount) => Released(l, owner, amount)
    case Close(owner, amount) => PositionReleased(l, owner, amount)
    case Fill(owner, filled, reservation) => Reconciled(l, owner, filled, reservation)
    case Except(next) => l.(exceptions := next)
  }

  /** A fill is covered when it is no larger than a reservation that is really held. */
  predicate Covered(l: Ledger, op: Op) {
    op.Fill? ==>
      Sanitize(op.filled) <= Sanitize(op.reservation) <= Get(l.reserved, op.owner)
  }

  ghost function Run(l: Ledger, ops: seq<Op>, pct: string -> real): Ledger
    decreases |ops|
  {
    if ops == [] then l else Run(Step(l, ops[0], pct), ops[1..], pct)
  }

  ghost predicate AllCovered(l: Ledger, ops: seq<Op>, pct: string -> real)
    decreases |ops|
  {
    ops != [] ==> Covered(l, ops[0]) && AllCovered(Step(l, ops[0], pct), ops[1..], pct)
  }

  ghost predicate AccountWithinCap(l: Ledger) {
    Committed(l) <= EffectiveCap(l) + TOLERANCE
  }

  ghost predicate BotWithinCap(l: Ledger, bot: string, pct: real) {
    BotCommitted(l, bot) <= BotAllocated(l, pct) + TOLERANCE
  }

  /** Committed capital is within every cap, up to one tolerance. */
  ghost predicate WithinCaps(l: Ledger, pct: string -> real) {
    AccountWithinCap(l) && forall bot :: BotWithinCap(l, bot, pct(bot))
  }

  lemma AdjustedTotals(m: map<Owner, real>, owner: Owner, delta: real, bot: string)
    ensures Total(Adjusted(m, owner, delta)) ==
            Total(m) - Get(m, owner) + Get(Adjusted(m, owner, delta), owner)
    ensures BotTotal(Adjusted(m, owner, delta), bot) == BotTotal(m, bot) +
            if owner.bot == bot then Get(Adjusted(m, owner, delta), owner) - Get(m, owner) else 0.0
  {
    var next := Get(m, owner) + delta;
    if next > TOLERANCE {
      TotalUpdate(m, owner, next);
      WhereUpdate(m, OfBot(bot), owner, next);
    } else {
      TotalDelete(m, owner);
      WhereDelete(m, OfBot(bot), owner);
    }
  }

  lemma StepKeepsSound(l: Ledger, op: Op, pct: string -> real)
    requires Sound(l)
    ensures Sound(Step(l, op, pct))
  {
  }

  /** Nothing the steps do moves a cap. */
  lemma StepKeepsCap(l: Ledger, op: Op, pct: string -> real, share: real)
    ensures EffectiveCap(Step(l, op, pct)) == EffectiveCap(l)
    ensures BotAllocated(Step(l, op, pct), share) == BotAllocated(l, share)
  {
    var l' := Step(l, op, pct);
    assert l'.declared == l.declared && l'.live == l.live;
  }

  lemma ReserveMovesCommitments(l: Ledger, owner: Owner, amount: Float, pct: real, bot: string)
    ensures var l' := Reserved(l, owner, amount, pct);
            var granted := if l' != l then Sanitize(amount) else 0.0;
            && Committed(l') == Committed(l) + granted
            && BotCommitted(l', bot) == BotCommitted(l, bot) + if owner.bot == bot then granted else 0.0
  {
    var next := Get(l.reserved, owner) + Sanitize(amount);
    TotalUpdate(l.reserved, owner, next);
    WhereUpdate(l.reserved, OfBot(bot), owner, next);
    hide Total, Where, ReserveRefusal, Get;
  }

  lemma ReleaseMovesCommitments(l: Ledger, owner: Owner, amount: Float, bot: string)
    requires Sound(l)
    ensures Committed(Released(l, owner, amount)) <= Committed(l)
    ensures BotCommitted(Released(l, owner, amount), bot) <= BotCommitted(l, bot)
    ensures Committed(PositionReleased(l, owner, amount)) <= Committed(l)
    ensures BotCommitted(PositionReleased(l, owner, amount), bot) <= BotCommitted(l, bot)
  {
    if ValidRelease(amount) {
      AdjustedTotals(l.reserved, owner, -amount.value, bot);
      AdjustedTotals(l.open, owner, -amount.value, bot);
      hide Total, Where, BotTotal;
    }
  }

  lemma FillMovesCommitments(l: Ledger, owner: Owner, filled: Float, amount: Float, bot: string)
    requires Sound(l) && Covered(l, Fill(owner, filled, amount))
    ensures Committed(Reconciled(l, owner, filled, amount)) <= Committed(l)
    ensures BotCommitted(Reconciled(l, owner, filled, amount), bot) <= BotCommitted(l, bot)
  {
    AdjustedTotals(l.reserved, owner, -Sanitize(amount), bot);
    AdjustedTotals(l.open, owner, Sanitize(filled), bot);
    hide Total, Where, BotTotal;
  }

  /** How far one step moves the commitments: a reservation adds what it was granted,
      and every other step, if covered, adds nothing. */
  lemma StepMovesCommitments(l: Ledger, op: Op, pct: string -> real, bot: string)
    requires Sound(l) && Covered(l, op)
    ensures var l' := Step(l, op, pct);
            var granted := if op.Reserve? && l' != l then Sanitize(op.amount) else 0.0;
            && Committed(l') <= Committed(l) + granted
            && BotCommitted(l', bot) <= BotCommitted(l, bot) +
               if op.Reserve? && op.owner.bot == bot then granted else 0.0
  {
    match op
    case Reserve(owner, amount) => ReserveMovesCommitments(l, owner, amount, pct(owner.bot), bot);
    case Release(owner, amount) => ReleaseMovesCommitments(l, owner, amount, bot);
    case Close(owner, amount) => ReleaseMovesCommitments(l, owner, amount, bot);
    case Fill(owner, filled, amount) => FillMovesCommitments(l, owner, filled, amount, bot);
    case Except(next) =>
  }

  /** A ledger within its caps admits a reservation only if there is room for it:
      exhausted room admits nothing, so the tolerance is spent at most once. */
  lemma StepKeepsCaps(l: Ledger, op: Op, pct: string -> real)
    requires Sound(l) && WithinCaps(l, pct) && Covered(l, op)
    ensures WithinCaps(Step(l, op, pct), pct)
  {
    forall bot
      ensures AccountWithinCap(Step(l, op, pct))
      ensures BotWithinCap(Step(l, op, pct), bot, pct(bot))
    {
      assert AccountWithinCap(l) && BotWithinCap(l, bot, pct(bot));
      StepKeepsCap(l, op, pct, pct(bot));
      StepMovesCommitments(l, op, pct, bot);
    }
    assert AccountWithinCap(Step(l, op, pct)) by {
      StepKeepsCap(l, op, pct, 0.0);
      StepMovesCommitments(l, op, pct, "");
    }
  }

  /** Over any run of reservations, releases, closes, covered fills and exception
      changes, commitments stay within every cap plus a single tolerance. */
  lemma {:induction false} RunStaysWithinCaps(l: Ledger, ops: seq<Op>, pct: string -> real)
    requires Sound(l) && WithinCaps(l, pct) && AllCovered(l, ops, pct)
    ensures Sound(Run(l, ops, pct)) && WithinCaps(Run(l, ops, pct), pct)
    ensures EffectiveCap(Run(l, ops, pct)) == EffectiveCap(l)
    decreases |ops|
  {
    if ops != [] {
      StepKeepsSound(l, ops[0], pct);
      StepKeepsCaps(l, ops[0], pct);
      StepKeepsCap(l, ops[0], pct, 0.0);
      RunStaysWithinCaps(Step(l, ops[0], pct), ops[1..], pct);
    }
  }

  // ------------------------------------------------ exactly when fills fit

  /** The notional a fill adds to the open side. */
  function TakenUp(filled: Float): real {
    if Sanitize(filled) > TOLERANCE then Sanitize(filled) else 0.0
  }

  /** The notional a fill takes off the reserved side: no more than is held, and all of it
      rather than leave a residue within the tolerance. */
  function GivenBack(held: real, reservation: Float): real {
    var r := Sanitize(reservation);
    if r <= TOLERANCE then 0.0 else if held - r > TOLERANCE then r else held
  }

  function NetFill(l: Ledger, op: Op): real
    requires op.Fill?
  {
    TakenUp(op.filled) - GivenBack(Get(l.reserved, op.owner), op.reservation)
  }

  /** What may still be committed before a cap is passed. */
  ghost function Headroom(l: Ledger): real { EffectiveCap(l) + TOLERANCE - Committed(l) }

  ghost function BotHeadroom(l: Ledger, bot: string, pct: real): real {
    BotAllocated(l, pct) + TOLERANCE - BotCommitted(l, bot)
  }

  function ReservedAfterFill(m: map<Owner, real>, owner: Owner, reservation: Float): map<Owner, real> {
    if Sanitize(reservation) > TOLERANCE then Adjusted(m, owner, -Sanitize(reservation)) else m
  }

  function OpenAfterFill(m: map<Owner, real>, owner: Owner, filled: Float): map<Owner, real> {
    if Sanitize(filled) > TOLERANCE then Adjusted(m, owner, Sanitize(filled)) else m
  }

  lemma ReconciledMaps(l: Ledger, owner: Owner, filled: Float, reservation: Float)
    ensures Reconciled(l, owner, filled, reservation) ==
            l.(reserved := ReservedAfterFill(l.reserved, owner, reservation), open := OpenAfterFill(l.open, owner, filled))
  {
    hide Adjusted;
  }

  lemma ReservedSideMoves(m: map<Owner, real>, owner: Owner, reservation: Float, bot: string)
    requires forall o :: o in m ==> m[o] > TOLERANCE
    ensures var m' := ReservedAfterFill(m, owner, reservation);
            && Total(m') == Total(m) - GivenBack(Get(m, owner), reservation)
            && BotTotal(m', bot) == BotTotal(m, bot) -
               if owner.bot == bot then GivenBack(Get(m, owner), reservation) else 0.0
  {
    AdjustedTotals(m, owner, -Sanitize(reservation), bot);
    hide Total, Where, BotTotal, Sanitize;
  }

  lemma OpenSideMoves(m: map<Owner, real>, owner: Owner, filled: Float, bot: string)
    requires forall o :: o in m ==> m[o] > TOLERANCE
    ensures var m' := OpenAfterFill(m, owner, filled);
            && Total(m') == Total(m) + TakenUp(filled)
            && BotTotal(m', bot) == BotTotal(m, bot) + if owner.bot == bot then TakenUp(filled) else 0.0
  {
    AdjustedTotals(m, owner, Sanitize(filled), bot);
    hide Total, Where, BotTotal, Sanitize;
  }

  lemma FillMovesExactly(l: Ledger, op: Op, pct: string -> real, bot: string)
    requires Sound(l) && op.Fill?
    ensures Committed(Step(l, op, pct)) == Committed(l) + NetFill(l, op)
    ensures BotCommitted(Step(l, op, pct), bot) ==
            BotCommitted(l, bot) + if op.owner.bot == bot then NetFill(l, op) else 0.0
  {
    ReconciledMaps(l, op.owner, op.filled, op.reservation);
    ReservedSideMoves(l.reserved, op.owner, op.reservation, bot);
    OpenSideMoves(l.open, op.owner, op.filled, bot);
    hide Total, BotTotal, Reconciled, ReservedAfterFill, OpenAfterFill, GivenBack, TakenUp, Get;
  }

  /** A fill fits when what it adds on balance is within the headroom of the account and of
      its own bot; every other operation fits. */
  ghost predicate Fits(l: Ledger, op: Op, pct: string -> real) {
    op.Fill? ==> NetFill(l, op) <= Headroom(l) && NetFill(l, op) <= BotHeadroom(l, op.owner.bot, pct(op.owner.bot))
  }

  /** From within the caps, one operation ends within them if and only if it fits. */
  lemma StepKeepsCapsIff(l: Ledger, op: Op, pct: string -> real)
    requires Sound(l) && WithinCaps(l, pct)
    ensures WithinCaps(Step(l, op, pct), pct) <==> Fits(l, op, pct)
  {
    if op.Fill? {
      var l' := Step(l, op, pct);
      forall bot ensures BotWithinCap(l', bot, pct(bot)) <==>
          op.owner.bot == bot ==> NetFill(l, op) <= BotHeadroom(l, bot, pct(bot))
      {
        assert BotWithinCap(l, bot, pct(bot));
        StepKeepsCap(l, op, pct, pct(bot));
        FillMovesExactly(l, op, pct, bot);
      }
      assert AccountWithinCap(l') <==> NetFill(l, op) <= Headroom(l) by {
        StepKeepsCap(l, op, pct, 0.0);
        FillMovesExactly(l, op, pct, "");
      }
      hide AccountWithinCap, BotWithinCap, Headroom, BotHeadroom, NetFill, Step;
    } else {
      StepKeepsCaps(l, op, pct);
    }
  }

  /** A covered fill adds nothing on balance, so it always fits. */
  lemma CoveredFits(l: Ledger, op: Op, pct: string -> real)
    requires Covered(l, op) && WithinCaps(l, pct)
    ensures Fits(l, op, pct)
  {
    if op.Fill? {
      assert NetFill(l, op) <= 0.0;
      assert AccountWithinCap(l) && BotWithinCap(l, op.owner.bot, pct(op.owner.bot));
    }
  }

  ghost predicate AllFit(l: Ledger, ops: seq<Op>, pct: string -> real)
    decreases |ops|
  {
    ops != [] ==> Fits(l, ops[0], pct) && AllFit(Step(l, ops[0], pct), ops[1..], pct)
  }

  /** The caps hold at every point of a run. */
  ghost predicate AlwaysWithinCaps(l: Ledger, ops: seq<Op>, pct: string -> real)
    decreases |ops|
  {
    WithinCaps(l, pct) && (ops != [] ==> AlwaysWithinCaps(Step(l, ops[0], pct), ops[1..], pct))
  }

  /** A run that starts within the caps stays within them throughout if and only if every
      fill fits when it comes. */
  lemma {:induction false} RunStaysWithinCapsIff(l: Ledger, ops: seq<Op>, pct: string -> real)
    requires Sound(l) && WithinCaps(l, pct)
    ensures AlwaysWithinCaps(l, ops, pct) <==> AllFit(l, ops, pct)
    decreases |ops|
  {
    if ops != [] {
      var l' := Step(l, ops[0], pct);
      StepKeepsSound(l, ops[0], pct);
      StepKeepsCapsIff(l, ops[0], pct);
      hide WithinCaps, Fits, Step, Sound;
      if WithinCaps(l', pct) {
        RunStaysWithinCapsIff(l', ops[1..], pct);
      }
    }
  }

  /** Whatever the ledger looked like before, right after a granted reservation the account
      and the owner's bot are within their caps. */
  lemma GrantedReservationIsWithinCaps(l: Ledger, owner: Owner, amount: Float, pct: real)
    requires Sanitize(amount) > TOLERANCE && ReserveRefusal(l, owner, amount, pct).None?
    ensures AccountWithinCap(Reserved(l, owner, amount, pct))
    ensures BotWithinCap(Reserved(l, owner, amount, pct), owner.bot, pct)
  {
    var l', a := Reserved(l, owner, amount, pct), Sanitize(amount);
    GrantedReservationAdds(l, owner, amount, pct);
    RoomBoundsGrant(a, EffectiveCap(l), Committed(l), BotAllocated(l, pct), BotCommitted(l, owner.bot), TradeableRoom(l));
    hide Committed, BotCommitted, BotAllocated, EffectiveCap, Sanitize, Reserved;
  }

  lemma GrantedReservationAdds(l: Ledger, owner: Owner, amount: Float, pct: real)
    requires Sanitize(amount) > TOLERANCE && ReserveRefusal(l, owner, amount, pct).None?
    ensures var l' := Reserved(l, owner, amount, pct);
            && Committed(l') == Committed(l) + Sanitize(amount)
            && BotCommitted(l', owner.bot) == BotCommitted(l, owner.bot) + Sanitize(amount)
            && EffectiveCap(l') == EffectiveCap(l) && BotAllocated(l', pct) == BotAllocated(l, pct)
    ensures Sanitize(amount) <= BotTradeableRoom(l, owner.bot, pct) + TOLERANCE
  {
    hide Sanitize, BotTradeableRoom;
    var next := Get(l.reserved, owner) + Sanitize(amount);
    assert Reserved(l, owner, amount, pct) == l.(reserved := l.reserved[owner := next]);
    hide Reserved, ReserveRefusal;
    ReservingMovesOnlyCommitments(l, owner, next);
  }

  lemma ReservingMovesOnlyCommitments(l: Ledger, owner: Owner, next: real)
    ensures var l' := l.(reserved := l.reserved[owner := next]);
            && Committed(l') == Committed(l) - Get(l.reserved, owner) + next
            && BotCommitted(l', owner.bot) == BotCommitted(l, owner.bot) - Get(l.reserved, owner) + next
            && EffectiveCap(l') == EffectiveCap(l) && forall pct :: BotAllocated(l', pct) == BotAllocated(l, pct)
  {
    TotalUpdate(l.reserved, owner, next);
    WhereUpdate(l.reserved, OfBot(owner.bot), owner, next);
    var l' := l.(reserved := l.reserved[owner := next]);
    assert EffectiveCap(l') == EffectiveCap(l);
    hide EffectiveCap, Total, Where, Get;
  }

  lemma RoomBoundsGrant(a: real, cap: real, committed: real, share: real, botCommitted: real, room: real)
    requires room == 0.0 || room == RMax(cap - committed, 0.0)
    requires a > TOLERANCE && a <= RMin(RMax(share - botCommitted, 0.0), room) + TOLERANCE
    ensures committed + a <= cap + TOLERANCE && botCommitted + a <= share + TOLERANCE
  {
  }

  /** Fills that do not fit exist: one that costs twice its reservation carries a ledger
      from within its cap to twice the cap. */
  lemma OverfillBreaksCap(owner: Owner)
    ensures var l := Ledger(100.0, None, map[], map[owner := 100.0], 0.0, []);
            Sound(l) && WithinCaps(l, bot => 100.0) &&
            !WithinCaps(Step(l, Fill(owner, Finite(200.0), Finite(100.0)), bot => 100.0), bot => 100.0)
  {
    var l := Ledger(100.0, None, map[], map[owner := 100.0], 0.0, []);
    var l' := Step(l, Fill(owner, Finite(200.0), Finite(100.0)), bot => 100.0);
    TotalRemove(l.reserved, owner);
    assert l.reserved - {owner} == map[];
    forall bot ensures BotWithinCap(l, bot, 100.0) {
      assert Where(l.open, OfBot(bot)) == map[];
      TotalSplit(l.reserved, OfBot(bot));
      TotalNonNegative(Where(l.reserved, Not(OfBot(bot))));
    }
    assert l'.reserved == map[] && l'.open == map[owner := 200.0];
    TotalRemove(l'.open, owner);
    assert l'.open - {owner} == map[];
  }

  /** While any blocking exception stands, no owner's reservation grows. */
  lemma {:induction false} BlockedRunReservesNothing(l: Ledger, ops: seq<Op>, pct: string -> real, owner: Owner)
    requires Sound(l) && Blocked(l)
    requires forall i :: 0 <= i < |ops| ==> !ops[i].Except?
    ensures Blocked(Run(l, ops, pct))
    ensures Get(Run(l, ops, pct).reserved, owner) <= Get(l.reserved, owner)
    decreases |ops|
  {
    if ops != [] {
      StepKeepsSound(l, ops[0], pct);
      assert Step(l, ops[0], pct).exceptions == l.exceptions;
      BlockedRunReservesNothing(Step(l, ops[0], pct), ops[1..], pct, owner);
    }
  }

  // ----------------------------------------------- per-bot books add up

  ghost function SumBots(l: Ledger, bots: set<string>): real
    decreases |bots|
  {
    if bots == {} then 0.0
    else
      var b :| b in bots;
      BotCommitted(l, b) + SumBots(l, bots - {b})
  }

  lemma {:induction false} SumBotsCongruent(l: Ledger, k: Ledger, bots: set<string>)
    requires forall b :: b in bots ==> BotCommitted(l, b) == BotCommitted(k, b)
    ensures SumBots(l, bots) == SumBots(k, bots)
    decreases |bots|
  {
    if bots != {} {
      var b :| b in bots && SumBots(l, bots) == BotCommitted(l, b) + SumBots(l, bots - {b});
      var c :| c in bots && SumBots(k, bots) == BotCommitted(k, c) + SumBots(k, bots - {c});
      SumBotsRemove(l, bots, c);
      SumBotsCongruent(l, k, bots - {c});
    }
  }

  lemma {:induction false} SumBotsRemove(l: Ledger, bots: set<string>, b: string)
    requires b in bots
    ensures SumBots(l, bots) == BotCommitted(l, b) + SumBots(l, bots - {b})
    decreases |bots|
  {
    var c :| c in bots && SumBots(l, bots) == BotCommitted(l, c) + SumBots(l, bots - {c});
    if c != b {
      SumBotsRemove(l, bots - {c}, b);
      SumBotsRemove(l, bots - {b}, c);
      assert bots - {c} - {b} == bots - {b} - {c};
    }
  }

  /** Setting one bot's entries aside leaves every other bot's commitments alone. */
  ghost function Without(l: Ledger, bot: string): Ledger {
    l.(open := Where(l.open, Not(OfBot(bot))),
       reserved := Where(l.reserved, Not(OfBot(bot))))
  }

  lemma WithoutKeepsOthers(l: Ledger, bot: string, other: string)
    requires bot != other
    ensures BotCommitted(Without(l, bot), other) == BotCommitted(l, other)
  {
    var k := Without(l, bot);
    assert forall o: Owner :: OfBot(other)(o) ==> Not(OfBot(bot))(o);
    assert Where(l.open, OfBot(other)) == Where(k.open, OfBot(other));
    assert Where(l.reserved, OfBot(other)) == Where(k.reserved, OfBot(other));
  }

  lemma WithoutCommitted(l: Ledger, bot: string)
    ensures Committed(l) == BotCommitted(l, bot) + Committed(Without(l, bot))
  {
    TotalSplit(l.open, OfBot(bot));
    TotalSplit(l.reserved, OfBot(bot));
  }

  /** Per-bot commitments plus unattributed notional are the account total. */
  lemma {:induction false} BotsAddUp(l: Ledger, bots: set<string>)
    requires forall o :: o in l.open || o in l.reserved ==> o.bot in bots
    ensures SumBots(l, bots) + l.unattributed == Committed(l)
    decreases |bots|
  {
    if bots == {} {
      assert l.open == map[] && l.reserved == map[];
    } else {
      var b :| b in bots;
      SumBotsRemove(l, bots, b);
      WithoutCommitted(l, b);
      forall c | c in bots - {b} ensures BotCommitted(l, c) == BotCommitted(Without(l, b), c) {
        WithoutKeepsOthers(l, b, c);
      }
      SumBotsCongruent(l, Without(l, b), bots - {b});
      BotsAddUp(Without(l, b), bots - {b});
    }
  }
}
