/**
 * Classification of the open orders a connector reports against the local order
 * book, and the blocking ledger exceptions that unsafe orders become.
 */
module RemoteOrders {
  import opened Options
  import opened Orders
  import opened Floats
  import opened Ledgers
  import opened Feeds

  datatype Identity = Identity(bot: string, symbol: Option<string>)

  datatype RemoteOrder = RemoteOrder(clientId: string, symbol: string, status: string, quantity: real)

  datatype ManagedOrder = ManagedOrder(bot: string, order: RemoteOrder)

  datatype Why = ManyMatches | WrongSymbol | IneligibleBot
  datatype UnsafeReason = UnsafeReason(clientId: string, why: Why)

  datatype Classified = Classified(
    managed: seq<ManagedOrder>,
    external: seq<RemoteOrder>,
    unsafe: seq<UnsafeReason>)

  type Matches = map<string, seq<Identity>>

  // ----- The derived order of identities -----

  predicate SymbolLe(a: Option<string>, b: Option<string>) {
    a.None? || (b.Some? && StringLe(a.value, b.value))
  }

  predicate IdentityLe(a: Identity, b: Identity) {
    if a.bot == b.bot then SymbolLe(a.symbol, b.symbol) else StringLe(a.bot, b.bot)
  }

  lemma IdentityLeTransitive(a: Identity, b: Identity, c: Identity)
    requires IdentityLe(a, b) && IdentityLe(b, c)
    ensures IdentityLe(a, c)
  {
    if a.bot == b.bot && b.bot == c.bot {
      if a.symbol.Some? {
        StringLeTransitive(a.symbol.value, b.symbol.value, c.symbol.value);
      }
    } else if a.bot != b.bot && b.bot != c.bot {
      StringLeTransitive(a.bot, b.bot, c.bot);
      if a.bot == c.bot {
        StringLeAntisymmetric(a.bot, b.bot);
      }
    }
  }

  lemma IdentityOrderIsTotal()
    ensures TotalOrder(IdentityLe)
  {
    forall a: string ensures StringLe(a, a) { StringLeReflexive(a); }
    forall a, b ensures IdentityLe(a, b) || IdentityLe(b, a) {
      StringLeTotal(a.bot, b.bot);
      if a.symbol.Some? && b.symbol.Some? {
        StringLeTotal(a.symbol.value, b.symbol.value);
      }
    }
    forall a, b | IdentityLe(a, b) && IdentityLe(b, a) ensures a == b {
      if a.bot != b.bot {
        StringLeAntisymmetric(a.bot, b.bot);
      } else if a.symbol.Some? {
        StringLeAntisymmetric(a.symbol.value, b.symbol.value);
      }
    }
    forall a, b, c | IdentityLe(a, b) && IdentityLe(b, c) ensures IdentityLe(a, c) {
      IdentityLeTransitive(a, b, c);
    }
  }

  /** Drops consecutive repeats. */
  function Dedup(s: seq<Identity>): seq<Identity>
    decreases |s|
  {
    if |s| < 2 then s
    else if s[0] == s[1] then Dedup(s[1..])
    else [s[0]] + Dedup(s[1..])
  }

  lemma {:induction false} DedupKeepsMembers(s: seq<Identity>)
    ensures forall x :: x in Dedup(s) <==> x in s
    decreases |s|
  {
    if |s| >= 2 {
      DedupKeepsMembers(s[1..]);
      assert s == [s[0]] + s[1..];
      assert s[0] == s[1] ==> s[0] in s[1..] by {
        assert s[1..][0] == s[1];
      }
    }
  }

  lemma {:induction false} OnlyValueDedups(s: seq<Identity>, x: Identity)
    requires s != [] && forall i :: 0 <= i < |s| ==> s[i] == x
    ensures |Dedup(s)| == 1
    decreases |s|
  {
    if |s| >= 2 {
      OnlyValueDedups(s[1..], x);
    }
  }

  lemma SortKeepsMembers(s: seq<Identity>)
    ensures forall x :: x in Sort(s, IdentityLe) <==> x in s
  {
    IdentityOrderIsTotal();
    SortWorks(s, IdentityLe);
    hide *;
    forall x ensures x in Sort(s, IdentityLe) <==> x in s {
      assert x in s <==> x in multiset(s);
      assert x in Sort(s, IdentityLe) <==> x in multiset(Sort(s, IdentityLe));
    }
  }

  /** Sorting and removing repeats leaves one identity exactly when the matches form a one-element set. */
  lemma OneIdentityLeft(s: seq<Identity>)
    ensures var ids := Dedup(Sort(s, IdentityLe));
            |ids| == 1 <==> exists x :: (set y | y in s) == {x}
    ensures var ids := Dedup(Sort(s, IdentityLe));
            |ids| == 1 ==> (set y | y in s) == {ids[0]}
  {
    SortKeepsMembers(s);
    hide *;
    var sorted := Sort(s, IdentityLe);
    DedupKeepsMembers(sorted);
    var ids, all := Dedup(sorted), set y | y in s;
    if |ids| == 1 {
      assert ids == [ids[0]];
      assert all == {ids[0]};
    }
    if x :| all == {x} {
      assert x in s;
      forall i | 0 <= i < |sorted| ensures sorted[i] == x {
        assert sorted[i] in s;
        assert sorted[i] in all;
      }
      OnlyValueDedups(sorted, x);
    }
  }

  // ----- The verdict on one order, from the set of its local identities -----

  datatype Verdict = Managed(bot: string) | External | Unsafe(why: Why)

  function IdentitySet(matches: Matches, clientId: string): set<Identity> {
    if clientId in matches then set x | x in matches[clientId] else {}
  }

  /** The only reading of a set of identities under which an order is ours. */
  ghost predicate Mine(ids: set<Identity>, symbol: string, eligible: set<string>, bot: string) {
    ids == {Identity(bot, Some(symbol))} && bot in eligible
  }

  ghost function VerdictOf(ids: set<Identity>, symbol: string, eligible: set<string>): Verdict {
    if ids == {} then External
    else if exists x :: ids == {x} && x.symbol.Some? then
      var x :| ids == {x} && x.symbol.Some?;
      if x.symbol.value != symbol then Unsafe(WrongSymbol)
      else if x.bot !in eligible then Unsafe(IneligibleBot)
      else Managed(x.bot)
    else Unsafe(ManyMatches)
  }

  /** An order is managed exactly when one eligible bot owns it on this symbol, external exactly when nobody does. */
  lemma FailClosed(ids: set<Identity>, symbol: string, eligible: set<string>, bot: string)
    ensures VerdictOf(ids, symbol, eligible) == Managed(bot) <==> Mine(ids, symbol, eligible, bot)
    ensures VerdictOf(ids, symbol, eligible) == External <==> ids == {}
  {
    var own := Identity(bot, Some(symbol));
    if ids == {own} {
      assert own in ids;
      assert own.symbol.Some?;
      assert forall x :: ids == {x} ==> x == own by {
        forall x | ids == {x} ensures x == own { assert x in ids; }
      }
    }
  }

  /** Why an order is unsafe: on another symbol, by a bot that may not trade it, or claimed in no single way. */
  lemma UnsafeOnInputs(ids: set<Identity>, symbol: string, eligible: set<string>)
    ensures VerdictOf(ids, symbol, eligible) == Unsafe(WrongSymbol) <==>
            exists bot, other :: ids == {Identity(bot, Some(other))} && other != symbol
    ensures VerdictOf(ids, symbol, eligible) == Unsafe(IneligibleBot) <==>
            exists bot :: ids == {Identity(bot, Some(symbol))} && bot !in eligible
    ensures VerdictOf(ids, symbol, eligible) == Unsafe(ManyMatches) <==>
            ids != {} && !exists bot, other :: ids == {Identity(bot, Some(other))}
  {
    if x :| ids == {x} && x.symbol.Some? {
      assert x == Identity(x.bot, Some(x.symbol.value));
      assert ids == {Identity(x.bot, Some(x.symbol.value))};
      forall y | ids == {y} ensures y == x { assert y in ids; }
    } else {
      forall bot, other ensures ids != {Identity(bot, Some(other))} {
        var x := Identity(bot, Some(other));
        assert !(ids == {x} && x.symbol.Some?);
      }
    }
  }

  // ----- Classifying a list -----

  ghost function ManagedOf(orders: seq<RemoteOrder>, m: Matches, symbol: string, eligible: set<string>): seq<ManagedOrder> {
    if orders == [] then []
    else
      var o := orders[|orders| - 1];
      var v := VerdictOf(IdentitySet(m, o.clientId), symbol, eligible);
      ManagedOf(orders[..|orders| - 1], m, symbol, eligible) + if v.Managed? then [ManagedOrder(v.bot, o)] else []
  }

  ghost function ExternalOf(orders: seq<RemoteOrder>, m: Matches, symbol: string, eligible: set<string>): seq<RemoteOrder> {
    if orders == [] then []
    else
      var o := orders[|orders| - 1];
      var v := VerdictOf(IdentitySet(m, o.clientId), symbol, eligible);
      ExternalOf(orders[..|orders| - 1], m, symbol, eligible) + if v.External? then [o] else []
  }

  ghost function UnsafeOf(orders: seq<RemoteOrder>, m: Matches, symbol: string, eligible: set<string>): seq<UnsafeReason> {
    if orders == [] then []
    else
      var o := orders[|orders| - 1];
      var v := VerdictOf(IdentitySet(m, o.clientId), symbol, eligible);
      UnsafeOf(orders[..|orders| - 1], m, symbol, eligible) + if v.Unsafe? then [UnsafeReason(o.clientId, v.why)] else []
  }

  ghost function Classification(orders: seq<RemoteOrder>, m: Matches, symbol: string, eligible: set<string>): Classified {
    Classified(ManagedOf(orders, m, symbol, eligible),
               ExternalOf(orders, m, symbol, eligible),
               UnsafeOf(orders, m, symbol, eligible))
  }

  /** The verdict as the code reaches it: sort, remove repeats, look at what is left. */
  method ClassifyOne(order: RemoteOrder, matches: Matches, symbol: string, eligible: set<string>) returns (v: Verdict)
    ensures v == VerdictOf(IdentitySet(matches, order.clientId), symbol, eligible)
  {
    if order.clientId !in matches || matches[order.clientId] == [] {
      return External;
    }
    var found := matches[order.clientId];
    ghost var ids := IdentitySet(matches, order.clientId);
    assert found[0] in ids;
    var identities := Dedup(Sort(found, IdentityLe));
    OneIdentityLeft(found);
    hide Dedup, Sort, IdentityLe;
    if |identities| == 1 {
      assert ids == {identities[0]};
      forall x | ids == {x} ensures x == identities[0] { assert x in ids; }
    }
    if |identities| != 1 || identities[0].symbol.None? {
      return Unsafe(ManyMatches);
    }
    var identity := identities[0];
    if identity.symbol.value != symbol {
      return Unsafe(WrongSymbol);
    }
    if identity.bot !in eligible {
      return Unsafe(IneligibleBot);
    }
    return Managed(identity.bot);
  }

  method ClassifyRemoteOpenOrders(orders: seq<RemoteOrder>, matches: Matches, symbol: string, eligible: set<string>)
    returns (classified: Classified)
    ensures classified == Classification(orders, matches, symbol, eligible)
  {
    hide VerdictOf, IdentitySet;
    classified := Classified([], [], []);
    for k := 0 to |orders|
      invariant classified == Classification(orders[..k], matches, symbol, eligible)
    {
      assert orders[..k + 1][..k] == orders[..k];
      var verdict := ClassifyOne(orders[k], matches, symbol, eligible);
      match verdict {
        case External => classified := classified.(external := classified.external + [orders[k]]);
        case Unsafe(why) =>
          classified := classified.(unsafe := classified.unsafe + [UnsafeReason(orders[k].clientId, why)]);
        case Managed(bot) =>
          classified := classified.(managed := classified.managed + [ManagedOrder(bot, orders[k])]);
      }
    }
    assert orders[..|orders|] == orders;
  }

  // ----- A partition -----

  ghost function ManagedIds(s: seq<ManagedOrder>): multiset<string> {
    if s == [] then multiset{} else ManagedIds(s[..|s| - 1]) + multiset{s[|s| - 1].order.clientId}
  }

  ghost function OrderIds(s: seq<RemoteOrder>): multiset<string> {
    if s == [] then multiset{} else OrderIds(s[..|s| - 1]) + multiset{s[|s| - 1].clientId}
  }

  ghost function UnsafeIds(s: seq<UnsafeReason>): multiset<string> {
    if s == [] then multiset{} else UnsafeIds(s[..|s| - 1]) + multiset{s[|s| - 1].clientId}
  }

  lemma IdsSnoc(m: seq<ManagedOrder>, x: ManagedOrder, e: seq<RemoteOrder>, o: RemoteOrder, u: seq<UnsafeReason>, w: UnsafeReason)
    ensures ManagedIds(m + [x]) == ManagedIds(m) + multiset{x.order.clientId}
    ensures OrderIds(e + [o]) == OrderIds(e) + multiset{o.clientId}
    ensures UnsafeIds(u + [w]) == UnsafeIds(u) + multiset{w.clientId}
  {
    assert (m + [x])[..|m|] == m && (e + [o])[..|e|] == e && (u + [w])[..|u|] == u;
  }

  lemma AddToOnePart(a: multiset<string>, b: multiset<string>, c: multiset<string>, x: multiset<string>)
    ensures (a + x) + b + c == (a + b + c) + x
    ensures a + (b + x) + c == (a + b + c) + x
    ensures a + b + (c + x) == (a + b + c) + x
  {
  }

  /** Every order lands in exactly one of the three lists, with its multiplicity. */
  lemma {:induction false} EveryOrderLandsOnce(orders: seq<RemoteOrder>, m: Matches, symbol: string, eligible: set<string>)
    ensures var c := Classification(orders, m, symbol, eligible);
            && ManagedIds(c.managed) + OrderIds(c.external) + UnsafeIds(c.unsafe) == OrderIds(orders)
            && |c.managed| + |c.external| + |c.unsafe| == |orders|
    decreases |orders|
  {
    hide VerdictOf, IdentitySet, ManagedIds, UnsafeIds, OrderIds;
    if orders == [] {
      assert ManagedIds([]) + OrderIds([]) + UnsafeIds([]) == OrderIds([]) by { EmptyIds(); }
    } else {
      var n := |orders| - 1;
      var o, earlier := orders[n], Classification(orders[..n], m, symbol, eligible);
      EveryOrderLandsOnce(orders[..n], m, symbol, eligible);
      var v := VerdictOf(IdentitySet(m, o.clientId), symbol, eligible);
      var x := ManagedOrder(if v.Managed? then v.bot else "", o);
      var w := UnsafeReason(o.clientId, if v.Unsafe? then v.why else ManyMatches);
      IdsSnoc(earlier.managed, x, earlier.external, o, earlier.unsafe, w);
      IdsSnoc(earlier.managed, x, orders[..n], o, earlier.unsafe, w);
      assert orders == orders[..n] + [o];
      assert earlier.managed + [] == earlier.managed && earlier.unsafe + [] == earlier.unsafe;
      assert earlier.external + [] == earlier.external;
      AddToOnePart(ManagedIds(earlier.managed), OrderIds(earlier.external), UnsafeIds(earlier.unsafe), multiset{o.clientId});
    }
  }

  lemma EmptyIds()
    ensures ManagedIds([]) == OrderIds([]) == UnsafeIds([]) == multiset{}
  {
  }

  ghost function IsManaged(m: Matches, symbol: string, eligible: set<string>): RemoteOrder -> bool {
    (o: RemoteOrder) => VerdictOf(IdentitySet(m, o.clientId), symbol, eligible).Managed?
  }

  ghost function IsExternal(m: Matches): RemoteOrder -> bool {
    (o: RemoteOrder) => IdentitySet(m, o.clientId) == {}
  }

  ghost function IsUnsafe(m: Matches, symbol: string, eligible: set<string>): RemoteOrder -> bool {
    (o: RemoteOrder) => VerdictOf(IdentitySet(m, o.clientId), symbol, eligible).Unsafe?
  }

  /** Each list holds its orders in the order they came: managed ones with the one bot that owns them, external
      ones as they are, unsafe ones by client id with the reason. */
  lemma {:induction false} ListsOnInputs(orders: seq<RemoteOrder>, m: Matches, symbol: string, eligible: set<string>)
    ensures var c := Classification(orders, m, symbol, eligible);
            var mine, suspect := Filter(orders, IsManaged(m, symbol, eligible)), Filter(orders, IsUnsafe(m, symbol, eligible));
            && c.external == Filter(orders, IsExternal(m))
            && |c.managed| == |mine| && |c.unsafe| == |suspect|
            && (forall k :: 0 <= k < |mine| ==>
                  c.managed[k].order == mine[k] && Mine(IdentitySet(m, mine[k].clientId), symbol, eligible, c.managed[k].bot))
            && (forall k :: 0 <= k < |suspect| ==>
                  && c.unsafe[k].clientId == suspect[k].clientId
                  && VerdictOf(IdentitySet(m, suspect[k].clientId), symbol, eligible) == Unsafe(c.unsafe[k].why))
    decreases |orders|
  {
    if orders != [] {
      var n := |orders| - 1;
      ListsOnInputs(orders[..n], m, symbol, eligible);
      var ids := IdentitySet(m, orders[n].clientId);
      var v := VerdictOf(ids, symbol, eligible);
      FailClosed(ids, symbol, eligible, if v.Managed? then v.bot else "");
      hide VerdictOf, IdentitySet, Mine;
    }
  }

  /** Only the set of local identities behind each client order id matters. */
  lemma {:induction false} OnlyIdentitySetsMatter(
    orders: seq<RemoteOrder>, m: Matches, n: Matches, symbol: string, eligible: set<string>)
    requires forall id :: IdentitySet(m, id) == IdentitySet(n, id)
    ensures Classification(orders, m, symbol, eligible) == Classification(orders, n, symbol, eligible)
    decreases |orders|
  {
    if orders != [] {
      OnlyIdentitySetsMatter(orders[..|orders| - 1], m, n, symbol, eligible);
    }
  }

  // ----- From unsafe orders to a blocked ledger -----

  predicate Terminal(status: string) {
    status in {"filled", "cancelled", "rejected", "expired", "done", "cancel_requested"}
  }

  function OpenOrdersForSymbol(orders: seq<RemoteOrder>, symbol: string): seq<RemoteOrder>
    decreases |orders|
  {
    if orders == [] then []
    else
      var o := orders[|orders| - 1];
      OpenOrdersForSymbol(orders[..|orders| - 1], symbol)
        + if o.symbol == symbol && !Terminal(o.status) then [o] else []
  }

  function UnmappedExceptions(symbol: string, unsafe: seq<UnsafeReason>): seq<LedgerException> {
    seq(|unsafe|, i requires 0 <= i < |unsafe| =>
      LedgerException(UnmappedManagedOpenOrder, None, Some(symbol), unsafe[i].clientId, true))
  }

  /** The exceptions of a whole snapshot, symbol by symbol. */
  ghost function SnapshotExceptions(
    symbols: seq<string>, orders: seq<RemoteOrder>, m: Matches, eligible: string -> set<string>): seq<LedgerException>
    decreases |symbols|
  {
    if symbols == [] then []
    else
      var s := symbols[|symbols| - 1];
      var open := OpenOrdersForSymbol(orders, s);
      SnapshotExceptions(symbols[..|symbols| - 1], orders, m, eligible)
        + UnmappedExceptions(s, UnsafeOf(open, m, s, eligible(s)))
  }

  /** A live remote order on a tracked symbol that some local record claims, but not one eligible bot on that symbol. */
  ghost predicate Suspicious(o: RemoteOrder, symbols: seq<string>, m: Matches, eligible: string -> set<string>) {
    && o.symbol in symbols
    && !Terminal(o.status)
    && IdentitySet(m, o.clientId) != {}
    && !exists bot :: Mine(IdentitySet(m, o.clientId), o.symbol, eligible(o.symbol), bot)
  }

  lemma SuspiciousIsUnsafe(o: RemoteOrder, symbols: seq<string>, m: Matches, eligible: string -> set<string>)
    requires Suspicious(o, symbols, m, eligible)
    ensures VerdictOf(IdentitySet(m, o.clientId), o.symbol, eligible(o.symbol)).Unsafe?
  {
    var ids := IdentitySet(m, o.clientId);
    var v := VerdictOf(ids, o.symbol, eligible(o.symbol));
    FailClosed(ids, o.symbol, eligible(o.symbol), if v.Managed? then v.bot else "");
  }

  lemma {:induction false} OpenOrdersKeep(orders: seq<RemoteOrder>, o: RemoteOrder)
    requires o in orders && !Terminal(o.status)
    ensures o in OpenOrdersForSymbol(orders, o.symbol)
    decreases |orders|
  {
    var n := |orders| - 1;
    if orders[n] != o {
      assert orders == orders[..n] + [orders[n]];
      OpenOrdersKeep(orders[..n], o);
    }
  }

  lemma {:induction false} UnsafeIsListed(orders: seq<RemoteOrder>, o: RemoteOrder, m: Matches, symbol: string, eligible: set<string>)
    requires o in orders && VerdictOf(IdentitySet(m, o.clientId), symbol, eligible).Unsafe?
    ensures UnsafeOf(orders, m, symbol, eligible) != []
    decreases |orders|
  {
    var n := |orders| - 1;
    if orders[n] != o {
      assert orders == orders[..n] + [orders[n]];
      UnsafeIsListed(orders[..n], o, m, symbol, eligible);
    }
  }

  lemma {:induction false} SuspiciousRaisesException(
    symbols: seq<string>, orders: seq<RemoteOrder>, m: Matches, eligible: string -> set<string>, o: RemoteOrder)
    requires o in orders && Suspicious(o, symbols, m, eligible)
    ensures exists i :: 0 <= i < |SnapshotExceptions(symbols, orders, m, eligible)|
                        && SnapshotExceptions(symbols, orders, m, eligible)[i].blocksNewOpens
    decreases |symbols|
  {
    var n := |symbols| - 1;
    var earlier, all := SnapshotExceptions(symbols[..n], orders, m, eligible), SnapshotExceptions(symbols, orders, m, eligible);
    if symbols[n] == o.symbol {
      SuspiciousIsUnsafe(o, symbols, m, eligible);
      OpenOrdersKeep(orders, o);
      UnsafeIsListed(OpenOrdersForSymbol(orders, o.symbol), o, m, o.symbol, eligible(o.symbol));
      hide VerdictOf, IdentitySet, UnsafeOf, OpenOrdersForSymbol, Mine, Suspicious;
      assert all[|earlier|].blocksNewOpens;
    } else {
      assert symbols == symbols[..n] + [symbols[n]];
      SuspiciousRaisesException(symbols[..n], orders, m, eligible, o);
      var i :| 0 <= i < |earlier| && earlier[i].blocksNewOpens;
      assert all[i] == earlier[i];
    }
  }

  lemma {:induction false} OpenOrdersAreLive(orders: seq<RemoteOrder>, symbol: string, o: RemoteOrder)
    requires o in OpenOrdersForSymbol(orders, symbol)
    ensures o in orders && o.symbol == symbol && !Terminal(o.status)
    decreases |orders|
  {
    var n := |orders| - 1;
    assert orders == orders[..n] + [orders[n]];
    if o in OpenOrdersForSymbol(orders[..n], symbol) {
      OpenOrdersAreLive(orders[..n], symbol, o);
    }
  }

  lemma {:induction false} UnsafeIsUnsafe(orders: seq<RemoteOrder>, m: Matches, symbol: string, eligible: set<string>, k: nat)
    requires k < |UnsafeOf(orders, m, symbol, eligible)|
    ensures exists o :: o in orders && o.clientId == UnsafeOf(orders, m, symbol, eligible)[k].clientId &&
                        VerdictOf(IdentitySet(m, o.clientId), symbol, eligible).Unsafe?
    decreases |orders|
  {
    var n := |orders| - 1;
    assert orders == orders[..n] + [orders[n]];
    if k < |UnsafeOf(orders[..n], m, symbol, eligible)| {
      UnsafeIsUnsafe(orders[..n], m, symbol, eligible, k);
    } else {
      assert orders[n] in orders;
    }
  }

  /** An exception of the snapshot names a suspicious order, by its symbol and client id, and blocks opens. */
  ghost predicate NamesSuspicious(
    e: LedgerException, symbols: seq<string>, orders: seq<RemoteOrder>, m: Matches, eligible: string -> set<string>)
  {
    exists o :: o in orders && Suspicious(o, symbols, m, eligible) &&
      e == LedgerException(UnmappedManagedOpenOrder, None, Some(o.symbol), o.clientId, true)
  }

  lemma {:induction false} ExceptionsNameSuspicious(
    symbols: seq<string>, all: seq<string>, orders: seq<RemoteOrder>, m: Matches, eligible: string -> set<string>, e: LedgerException)
    requires e in SnapshotExceptions(symbols, orders, m, eligible) && forall s :: s in symbols ==> s in all
    ensures NamesSuspicious(e, all, orders, m, eligible)
    decreases |symbols|
  {
    var n := |symbols| - 1;
    var s, open := symbols[n], OpenOrdersForSymbol(orders, symbols[n]);
    assert symbols == symbols[..n] + [s];
    if e in SnapshotExceptions(symbols[..n], orders, m, eligible) {
      ExceptionsNameSuspicious(symbols[..n], all, orders, m, eligible, e);
    } else {
      var unsafe := UnsafeOf(open, m, s, eligible(s));
      assert e in UnmappedExceptions(s, unsafe);
      var k :| 0 <= k < |unsafe| && e == UnmappedExceptions(s, unsafe)[k];
      UnsafeIsUnsafe(open, m, s, eligible(s), k);
      var o :| o in open && o.clientId == unsafe[k].clientId && VerdictOf(IdentitySet(m, o.clientId), s, eligible(s)).Unsafe?;
      OpenOrdersAreLive(orders, s, o);
      UnsafeIsSuspicious(o, all, m, eligible);
    }
  }

  lemma UnsafeIsSuspicious(o: RemoteOrder, symbols: seq<string>, m: Matches, eligible: string -> set<string>)
    requires o.symbol in symbols && !Terminal(o.status)
    requires VerdictOf(IdentitySet(m, o.clientId), o.symbol, eligible(o.symbol)).Unsafe?
    ensures Suspicious(o, symbols, m, eligible)
  {
    var ids := IdentitySet(m, o.clientId);
    forall bot ensures !Mine(ids, o.symbol, eligible(o.symbol), bot) { FailClosed(ids, o.symbol, eligible(o.symbol), bot); }
    FailClosed(ids, o.symbol, eligible(o.symbol), "");
  }

  predicate Live(status: string) {
    && status != "filled" && status != "cancelled" && status != "rejected" && status != "expired"
    && status != "done" && status != "cancel_requested"
  }

  /** A snapshot blocks opens exactly when it holds a suspicious order, and every exception names one. */
  lemma SnapshotBlocksIff(symbols: seq<string>, orders: seq<RemoteOrder>, m: Matches, eligible: string -> set<string>)
    ensures SnapshotExceptions(symbols, orders, m, eligible) != [] <==>
            exists o :: o in orders && Suspicious(o, symbols, m, eligible)
    ensures forall e :: e in SnapshotExceptions(symbols, orders, m, eligible) ==> NamesSuspicious(e, symbols, orders, m, eligible)
    ensures forall status :: Terminal(status) <==> !Live(status)
  {
    var found := SnapshotExceptions(symbols, orders, m, eligible);
    forall e | e in found ensures NamesSuspicious(e, symbols, orders, m, eligible) {
      ExceptionsNameSuspicious(symbols, symbols, orders, m, eligible, e);
    }
    if found != [] {
      assert found[0] in found;
    }
    if o :| o in orders && Suspicious(o, symbols, m, eligible) {
      SuspiciousRaisesException(symbols, orders, m, eligible, o);
    }
  }

  /**
   * One suspicious order anywhere in the snapshot closes the account: whatever
   * other exceptions were found, no open above the tolerance can be reserved.
   */
  lemma SuspiciousOrderClosesAccount(
    l: Ledger, others: seq<LedgerException>, symbols: seq<string>, orders: seq<RemoteOrder>, m: Matches,
    eligible: string -> set<string>, o: RemoteOrder, owner: Owner, amount: Float, pct: real)
    requires o in orders && Suspicious(o, symbols, m, eligible)
    ensures var closed := l.(exceptions := others + SnapshotExceptions(symbols, orders, m, eligible));
            && TradeableRoom(closed) == 0.0
            && (Sanitize(amount) > TOLERANCE ==> ReserveRefusal(closed, owner, amount, pct).Some?)
            && Reserved(closed, owner, amount, pct) == closed
  {
    var mine := SnapshotExceptions(symbols, orders, m, eligible);
    var closed := l.(exceptions := others + mine);
    SuspiciousRaisesException(symbols, orders, m, eligible, o);
    var i :| 0 <= i < |mine| && mine[i].blocksNewOpens;
    assert closed.exceptions[|others| + i] == mine[i];
    assert Blocked(closed);
    hide SnapshotExceptions, Suspicious, Blocked;
  }
}
