/**
 * The ledger's limits in plain figures: what may be committed under the declared total and
 * the live balance, what a reservation, a release and a fill do to each owner's entry.
 */
module LedgerLimits {
  import opened Options
  import opened Floats
  import opened Arithmetic
  import opened Sums
  import opened Ledgers

  /** `x` is within `share` of the declared total, and of the live balance where one is known. */
  predicate Under(l: Ledger, x: real, share: real) {
    x <= l.declared * share + TOLERANCE && (l.live.Some? ==> x <= l.live.value * share + TOLERANCE)
  }

  /** Everything committed on the account: open, not attributed to any lane, and reserved. */
  ghost function InUse(l: Ledger): real { Total(l.open) + l.unattributed + Total(l.reserved) }

  /** The part of it that is a bot's. */
  ghost function InUseBy(l: Ledger, bot: string): real {
    Total(Where(l.open, (o: Owner) => o.bot == bot)) + Total(Where(l.reserved, (o: Owner) => o.bot == bot))
  }

  predicate NothingBlocks(l: Ledger) { forall e :: e in l.exceptions ==> !e.blocksNewOpens }

  lemma InUseIsCommitted(l: Ledger, bot: string)
    ensures InUse(l) == Committed(l) && InUseBy(l, bot) == BotCommitted(l, bot)
    ensures NothingBlocks(l) <==> !Blocked(l)
  {
    assert forall m: map<Owner, real> :: Where(m, (o: Owner) => o.bot == bot) == Where(m, OfBot(bot));
    if !NothingBlocks(l) {
      var e :| e in l.exceptions && e.blocksNewOpens;
      var i :| 0 <= i < |l.exceptions| && l.exceptions[i] == e;
      assert Blocked(l);
    }
  }

  /** A positive amount is under the effective cap exactly when it is under both figures. */
  lemma CapIsBoth(l: Ledger, x: real)
    requires Sound(l)
    ensures x <= EffectiveCap(l) + TOLERANCE <==> Under(l, x, 1.0)
  {
  }

  lemma ShareIsBoth(l: Ledger, x: real, pct: real)
    requires Sound(l) && pct >= 0.0
    ensures x <= BotAllocated(l, pct) + TOLERANCE <==> Under(l, x, pct / 100.0)
  {
    var share := pct / 100.0;
    assert EffectiveCap(l) * pct / 100.0 == EffectiveCap(l) * share;
    MulNonNegative(EffectiveCap(l), share);
    if l.live.Some? {
      if l.declared <= l.live.value {
        ScaleUp(l.declared, l.live.value, share);
      } else {
        ScaleUp(l.live.value, l.declared, share);
      }
    }
  }

  // ----- Reserving -----

  /** Nothing blocks, and with `amount` on top account and bot stay under both figures. */
  ghost predicate Affordable(l: Ledger, owner: Owner, amount: real, pct: real) {
    && NothingBlocks(l)
    && Under(l, InUse(l) + amount, 1.0)
    && pct >= 0.0 && Under(l, InUseBy(l, owner.bot) + amount, pct / 100.0)
  }

  /** The bot's own share, of either figure, has no more than the tolerance left. */
  ghost predicate ShareUsedUp(l: Ledger, bot: string, pct: real) {
    || pct <= 0.0
    || l.declared * (pct / 100.0) - InUseBy(l, bot) <= TOLERANCE
    || (l.live.Some? && l.live.value * (pct / 100.0) - InUseBy(l, bot) <= TOLERANCE)
  }

  lemma BotRoom(l: Ledger, bot: string, pct: real, x: real)
    requires Sound(l) && x > TOLERANCE
    ensures x <= BotAvailableRoom(l, bot, pct) + TOLERANCE <==> pct >= 0.0 && Under(l, InUseBy(l, bot) + x, pct / 100.0)
    ensures BotAvailableRoom(l, bot, pct) <= TOLERANCE <==> ShareUsedUp(l, bot, pct)
  {
    InUseIsCommitted(l, bot);
    var used := BotCommitted(l, bot);
    assert used >= 0.0 by {
      TotalNonNegative(Where(l.open, OfBot(bot)));
      TotalNonNegative(Where(l.reserved, OfBot(bot)));
    }
    hide BotCommitted, InUseBy, Total, Where, Under, BotAllocated, EffectiveCap, Sound;
    if pct > 0.0 {
      ShareIsBoth(l, used + x, pct);
      RoomOfShare(l, used, pct);
    } else {
      NoShare(l, pct);
      if pct == 0.0 {
        ShareIsBoth(l, used + x, pct);
      }
    }
  }

  lemma NoShare(l: Ledger, pct: real)
    requires Sound(l) && pct <= 0.0
    ensures BotAllocated(l, pct) == 0.0
  {
    MulNonNegative(EffectiveCap(l), -pct);
    assert EffectiveCap(l) * pct <= 0.0;
  }

  lemma RoomOfShare(l: Ledger, used: real, pct: real)
    requires Sound(l) && pct > 0.0
    ensures BotAllocated(l, pct) - used <= TOLERANCE <==>
            l.declared * (pct / 100.0) - used <= TOLERANCE || (l.live.Some? && l.live.value * (pct / 100.0) - used <= TOLERANCE)
  {
    var share := pct / 100.0;
    assert EffectiveCap(l) * pct / 100.0 == EffectiveCap(l) * share;
    MulNonNegative(EffectiveCap(l), share);
    if l.live.Some? {
      if l.declared <= l.live.value {
        ScaleUp(l.declared, l.live.value, share);
      } else {
        ScaleUp(l.live.value, l.declared, share);
      }
    }
  }

  lemma AccountRoom(l: Ledger, amount: real)
    requires Sound(l) && amount > TOLERANCE
    ensures amount <= TradeableRoom(l) + TOLERANCE <==> NothingBlocks(l) && Under(l, InUse(l) + amount, 1.0)
  {
    InUseIsCommitted(l, "");
    CapIsBoth(l, InUse(l) + amount);
    hide InUse, Committed, Blocked, NothingBlocks, EffectiveCap, Under;
  }

  /**
   * An amount above the tolerance is reserved, in full, if and only if nothing blocks and account and bot
   * stay under the declared total and the live balance with it; a refusal names the bot when the bot's
   * own share is used up, and the account otherwise.
   */
  lemma ReservationOnInputs(l: Ledger, owner: Owner, amount: real, pct: real)
    requires Sound(l) && amount > TOLERANCE
    ensures ReserveRefusal(l, owner, Finite(amount), pct) ==
            if Affordable(l, owner, amount, pct) then None
            else Some(if ShareUsedUp(l, owner.bot, pct) then BotCapacityExceeded else AccountCapacityExceeded)
    ensures Reserved(l, owner, Finite(amount), pct) ==
            if Affordable(l, owner, amount, pct)
            then l.(reserved := l.reserved[owner := Get(l.reserved, owner) + amount]) else l
  {
    BotRoom(l, owner.bot, pct, amount);
    AccountRoom(l, amount);
    hide BotAvailableRoom, TradeableRoom, Under, InUse, InUseBy, NothingBlocks, ShareUsedUp, Sound;
  }

  /** Anything else asks for nothing: it is granted and leaves no trace. */
  lemma NegligibleReservation(l: Ledger, owner: Owner, amount: Float, pct: real)
    requires !amount.Finite? || amount.value <= TOLERANCE
    ensures ReserveRefusal(l, owner, amount, pct) == None && Reserved(l, owner, amount, pct) == l
  {
  }

  /** Right after a reservation account and bot are under both figures, whatever the ledger looked like before. */
  lemma ReservedStaysUnder(l: Ledger, owner: Owner, amount: real, pct: real)
    requires Sound(l) && amount > TOLERANCE && ReserveRefusal(l, owner, Finite(amount), pct).None?
    ensures var l' := Reserved(l, owner, Finite(amount), pct);
            Under(l', InUse(l'), 1.0) && Under(l', InUseBy(l', owner.bot), pct / 100.0)
  {
    ReservationOnInputs(l, owner, amount, pct);
    GrantedReservationAdds(l, owner, Finite(amount), pct);
    var l' := Reserved(l, owner, Finite(amount), pct);
    InUseIsCommitted(l, owner.bot);
    InUseIsCommitted(l', owner.bot);
    assert l'.declared == l.declared && l'.live == l.live;
    hide *;
    UnderIsFigures(l, l', InUse(l'), 1.0);
    UnderIsFigures(l, l', InUseBy(l', owner.bot), pct / 100.0);
    AffordableFigures(l, owner, amount, pct);
  }

  lemma AffordableFigures(l: Ledger, owner: Owner, amount: real, pct: real)
    requires Affordable(l, owner, amount, pct)
    ensures Under(l, InUse(l) + amount, 1.0) && Under(l, InUseBy(l, owner.bot) + amount, pct / 100.0)
  {
  }

  lemma UnderIsFigures(l: Ledger, k: Ledger, x: real, share: real)
    requires l.declared == k.declared && l.live == k.live
    ensures Under(l, x, share) == Under(k, x, share)
  {
  }

  // ----- Whole runs -----

  ghost predicate AllUnder(l: Ledger, pct: string -> real) {
    && Under(l, InUse(l), 1.0)
    && forall bot :: Under(l, InUseBy(l, bot), if pct(bot) < 0.0 then 0.0 else pct(bot) / 100.0)
  }

  /** The caps are the two figures: no more and no less. */
  lemma CapsAreFigures(l: Ledger, pct: string -> real)
    requires Sound(l)
    ensures WithinCaps(l, pct) <==> AllUnder(l, pct)
  {
    InUseIsCommitted(l, "");
    CapIsBoth(l, InUse(l));
    forall bot ensures BotWithinCap(l, bot, pct(bot)) <==>
        Under(l, InUseBy(l, bot), if pct(bot) < 0.0 then 0.0 else pct(bot) / 100.0)
    {
      InUseIsCommitted(l, bot);
      hide BotCommitted, InUseBy;
      if pct(bot) < 0.0 {
        NoShare(l, pct(bot));
      } else {
        ShareIsBoth(l, InUseBy(l, bot), pct(bot));
      }
    }
    hide BotWithinCap, Under, InUse, InUseBy, Committed;
  }

  /** Over any run, account and bots stay under the declared total and the live balance of its start. */
  lemma RunStaysUnder(l: Ledger, ops: seq<Op>, pct: string -> real)
    requires Sound(l) && AllUnder(l, pct) && AllCovered(l, ops, pct)
    ensures AllUnder(Run(l, ops, pct), pct)
    ensures Run(l, ops, pct).declared == l.declared && Run(l, ops, pct).live == l.live
  {
    CapsAreFigures(l, pct);
    RunStaysWithinCaps(l, ops, pct);
    RunKeepsFigures(l, ops, pct);
    CapsAreFigures(Run(l, ops, pct), pct);
    hide AllUnder, WithinCaps, Run;
  }

  lemma {:induction false} RunKeepsFigures(l: Ledger, ops: seq<Op>, pct: string -> real)
    ensures Run(l, ops, pct).declared == l.declared && Run(l, ops, pct).live == l.live
    decreases |ops|
  {
    if ops != [] {
      RunKeepsFigures(Step(l, ops[0], pct), ops[1..], pct);
    }
  }

  // ----- Releasing and filling, owner by owner -----

  /** `m'` is `m` with `owner` holding `x`, or no entry when that is within the tolerance. */
  ghost predicate Holds(m: map<Owner, real>, m': map<Owner, real>, owner: Owner, x: real) {
    && (forall o :: o != owner ==> (o in m <==> o in m') && (o in m ==> m'[o] == m[o]))
    && (owner in m' <==> x > TOLERANCE) && (owner in m' ==> m'[owner] == x)
  }

  /** A release takes a positive finite amount off one owner's entry, and drops what is left within the tolerance. */
  lemma ReleaseOnInputs(l: Ledger, owner: Owner, amount: Float)
    ensures var l' := Released(l, owner, amount);
            if amount.Finite? && amount.value > 0.0 then
              l' == l.(reserved := l'.reserved) && Holds(l.reserved, l'.reserved, owner, Get(l.reserved, owner) - amount.value)
            else l' == l
    ensures var l' := PositionReleased(l, owner, amount);
            if amount.Finite? && amount.value > 0.0 then
              l' == l.(open := l'.open) && Holds(l.open, l'.open, owner, Get(l.open, owner) - amount.value)
            else l' == l
  {
  }

  /** A fill turns the reservation it was made under into open notional of the same owner. */
  lemma FillOnInputs(l: Ledger, owner: Owner, filled: real, reservation: real)
    requires Sound(l)
    ensures var l' := Reconciled(l, owner, Finite(filled), Finite(reservation));
            && l' == l.(open := l'.open, reserved := l'.reserved)
            && (if reservation > TOLERANCE
                then Holds(l.reserved, l'.reserved, owner, Get(l.reserved, owner) - reservation) else l'.reserved == l.reserved)
            && (if filled > TOLERANCE
                then Holds(l.open, l'.open, owner, Get(l.open, owner) + filled) else l'.open == l.open)
  {
  }

  /** Rebuilding the open map keeps, for each owner, the last of its amounts above the tolerance. */
  lemma {:induction false} RebuiltMap(entries: seq<(Owner, Float)>, owner: Owner)
    ensures var m := OpenEntries(entries);
            if owner in m then
              exists i :: 0 <= i < |entries| && entries[i] == (owner, Finite(m[owner])) && m[owner] > TOLERANCE &&
                          forall j :: i < j < |entries| && entries[j].0 == owner ==> Negligible(entries[j].1)
            else forall i :: 0 <= i < |entries| && entries[i].0 == owner ==> Negligible(entries[i].1)
    decreases |entries|
  {
    if entries != [] {
      var n := |entries| - 1;
      var front := entries[..n];
      RebuiltMap(front, owner);
      assert forall i :: 0 <= i < n ==> front[i] == entries[i];
      var m := OpenEntries(entries);
      if entries[n].0 == owner && !Negligible(entries[n].1) {
        assert entries[n] == (owner, Finite(m[owner]));
      } else if owner in m {
        var i :| 0 <= i < n && front[i] == (owner, Finite(m[owner])) &&
                 forall j :: i < j < n && front[j].0 == owner ==> Negligible(front[j].1);
        assert entries[i] == (owner, Finite(m[owner]));
      }
    }
  }

  predicate Negligible(x: Float) { !x.Finite? || x.value <= TOLERANCE }
}
