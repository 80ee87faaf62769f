/**
 * How the four configuration entities are written to values of their schemas and
 * read from them, field by field.
 */
module ConfigFormats {
  import opened Options
  import opened Market
  import opened DocumentPatch
  import opened ConfigSchemas
  import opened ChangeSets

  /** How one kind of entity is described, written to a value, and read from one. */
  datatype Format<!T> = Format(schema: Schema, write: T -> Value, read: Value -> Option<T>)

  /** The schema reads what is written as itself, and what is written reads as the same entity. */
  ghost predicate RoundTrips<T(!new)>(f: Format<T>) {
    forall v :: f.write(v).Tbl? && Saturated(f.schema, f.write(v)) && f.read(f.write(v)) == Some(v)
  }

  // ----- Scalars -----

  function TextOf(v: Option<Value>): string { if v.Some? && v.value.Leaf? && v.value.scalar.Text? then v.value.scalar.text else "" }

  function FlagOf(v: Option<Value>): bool { v == Some(Bool(true)) }

  function NumberOf(v: Option<Value>): int {
    if v.Some? && v.value.Leaf? && v.value.scalar.Integer? then v.value.scalar.number else 0
  }

  function Real(x: real): Value { Leaf(Decimal(x)) }

  function RealOf(v: Option<Value>): real {
    if v.Some? && v.value.Leaf? && v.value.scalar.Decimal? then v.value.scalar.amount else 0.0
  }

  function MaybeText(x: Option<string>): Option<Value> { if x.Some? then Some(T(x.value)) else None }

  function MaybeTextOf(v: Option<Value>): Option<string> { if v.Some? then Some(TextOf(v)) else None }

  function MaybeReal(x: Option<real>): Option<Value> { if x.Some? then Some(Real(x.value)) else None }

  function MaybeRealOf(v: Option<Value>): Option<real> { if v.Some? then Some(RealOf(v)) else None }

  function MaybeFlag(x: Option<bool>): Option<Value> { if x.Some? then Some(Bool(x.value)) else None }

  function MaybeFlagOf(v: Option<Value>): Option<bool> { if v.Some? then Some(FlagOf(v)) else None }

  function Texts(items: seq<string>): Value { Arr(seq(|items|, i requires 0 <= i < |items| => T(items[i]))) }

  function TextsOf(v: Option<Value>): seq<string> {
    if v.Some? && v.value.Arr? then seq(|v.value.items|, i requires 0 <= i < |v.value.items| => TextOf(Some(v.value.items[i])))
    else []
  }

  lemma TextsRoundTrip(items: seq<string>)
    ensures TextsOf(Some(Texts(items))) == items && Saturated(ListOf(TEXT), Texts(items))
  {
    var v := Texts(items);
    assert forall i :: 0 <= i < |items| ==> Normal(TEXT, v.items[i]) == Some(v.items[i]);
    assert Normal(ListOf(TEXT), v).value.items == v.items;
  }

  function TimeframeOf(s: string): Timeframe {
    if |s| == 2 && s[1] == 'm' then (if s[0] == '1' then M1 else M5)
    else if |s| == 3 then (if s[0] == '1' then M15 else M30)
    else if |s| == 2 && s[1] == 'h' then (if s[0] == '1' then H1 else H4)
    else D1
  }

  lemma TimeframeRoundTrips(tf: Timeframe)
    ensures TimeframeOf(tf.AsStr()) == tf && Saturated(TIMEFRAME, T(tf.AsStr()))
  {
  }

  /** Scalars of every kind are saturated. */
  lemma ScalarsAreSaturated()
    ensures (forall s :: Saturated(TEXT, T(s))) && (forall b :: Saturated(FLAG, Bool(b))) && (forall x :: Saturated(FLOAT, Real(x)))
    ensures (forall n: Nat63 :: Saturated(U64, Num(n))) && (forall n: Nat32 :: Saturated(U32, Num(n)))
  {
  }

  // ----- Risk profiles -----

  function RiskValues(r: RiskProfile): seq<Option<Value>> {
    [Some(T(r.id)), Some(Real(r.maxDailyLossPct)), Some(Num(r.maxOpenPositions)), MaybeReal(r.targetOrderNotional),
     Some(Real(r.maxOrderNotional)), Some(Num(r.maxSpreadBps)), Some(Num(r.maxSlippageBps)), Some(Num(r.staleDataMs)),
     Some(Num(r.cooldownMs))]
  }

  function WriteRisk(r: RiskProfile): Value { Tbl(Entries(RISK, RiskValues(r))) }

  function ReadRisk(v: Value): Option<RiskProfile> {
    var t := Decode(RISK, v);
    var open, spread, slippage, stale, cooldown :=
      NumberOf(t[2]), NumberOf(t[5]), NumberOf(t[6]), NumberOf(t[7]), NumberOf(t[8]);
    if 0 <= open <= 0xFFFF_FFFF && 0 <= spread <= 0xFFFF_FFFF && 0 <= slippage <= 0xFFFF_FFFF &&
       0 <= stale <= 0x7FFF_FFFF_FFFF_FFFF && 0 <= cooldown <= 0x7FFF_FFFF_FFFF_FFFF
    then
      Some(RiskProfile(TextOf(t[0]), RealOf(t[1]), open, MaybeRealOf(t[3]), RealOf(t[4]), spread, slippage, stale, cooldown))
    else None
  }

  lemma RiskFits(r: RiskProfile)
    ensures forall i :: 0 <= i < |RISK| ==> FitsField(RISK[i].1, RiskValues(r)[i])
  {
  }

  lemma RiskRoundTrips(r: RiskProfile)
    ensures WriteRisk(r).Tbl? && Saturated(StructOf(RISK), WriteRisk(r)) && ReadRisk(WriteRisk(r)) == Some(r)
  {
    RiskFits(r);
    RiskNames();
    hide FitsField, DistinctNames, StructOf, Entries;
    SerialisedIsSaturated(RISK, RiskValues(r));
    DecodeEntries(RISK, RiskValues(r));
    hide Decode, Saturated;
  }

  // ----- Accounts -----

  function AccountValues(a: Account): seq<Option<Value>> {
    [Some(T(a.id)), Some(T(a.kind)), Some(T(if a.mode.Live? then "live" else "paper")), MaybeText(a.apiKeyEnv),
     MaybeText(a.apiSecretEnv), MaybeText(a.passphraseEnv), Some(Bool(a.useDemoMode)), Some(Bool(a.remoteSnapshot)),
     MaybeFlag(a.remoteSubmission), MaybeText(a.baseUrl), Some(Texts(a.cashAssets)), Some(Real(a.budget))]
  }

  function WriteAccount(a: Account): Value { Tbl(Entries(ACCOUNT, AccountValues(a))) }

  function ReadAccount(v: Value): Option<Account> {
    var t := Decode(ACCOUNT, v);
    Some(Account(TextOf(t[0]), TextOf(t[1]), if |TextOf(t[2])| == 4 then Live else Paper, FlagOf(t[6]), FlagOf(t[7]),
                 MaybeFlagOf(t[8]), MaybeTextOf(t[9]), MaybeTextOf(t[3]), MaybeTextOf(t[4]), MaybeTextOf(t[5]),
                 RealOf(t[11]), TextsOf(t[10])))
  }

  lemma AccountFits(a: Account)
    ensures forall i :: 0 <= i < |ACCOUNT| ==> FitsField(ACCOUNT[i].1, AccountValues(a)[i])
  {
    TextsRoundTrip(a.cashAssets);
    ScalarsAreSaturated();
    assert Saturated(OneOf({"paper", "live"}), T(if a.mode.Live? then "live" else "paper"));
    hide Texts, Saturated, T, Bool, Real, OneOf;
  }

  lemma AccountRoundTrips(a: Account)
    ensures WriteAccount(a).Tbl? && Saturated(StructOf(ACCOUNT), WriteAccount(a)) && ReadAccount(WriteAccount(a)) == Some(a)
  {
    AccountFits(a);
    AccountNames();
    TextsRoundTrip(a.cashAssets);
    hide FitsField, DistinctNames, StructOf, Entries, Texts, TextsOf;
    SerialisedIsSaturated(ACCOUNT, AccountValues(a));
    DecodeEntries(ACCOUNT, AccountValues(a));
    hide Decode, Saturated;
  }

  // ----- The global document -----

  function ServiceValues(g: Global): seq<Option<Value>> { [Some(T(g.environment)), Some(T(g.dataDir)), Some(T(g.botDir))] }

  function StorageValues(g: Global): seq<Option<Value>> {
    [Some(T(g.storageKind)), Some(T(g.storagePath)), Some(Num(g.busyTimeoutMs)), Some(Bool(g.pruneRemovedBots))]
  }

  function GlobalValues(g: Global): seq<Option<Value>> {
    [Some(Tbl(Entries(SERVICE, ServiceValues(g)))), Some(g.http), Some(Tbl(Entries(STORAGE, StorageValues(g)))),
     Some(g.observability), Some(g.safety), Some(g.dataPlane)]
  }

  function WriteGlobal(g: Global): Value { Tbl(Entries(GLOBAL, GlobalValues(g))) }

  ghost function ReadGlobal(v: Value): Option<Global> {
    var t := Decode(GLOBAL, v);
    if !(forall i :: 0 <= i < 6 ==> t[i].Some?) then None else
    var service, storage := Decode(SERVICE, t[0].value), Decode(STORAGE, t[2].value);
    var timeout := NumberOf(storage[2]);
    if IsSection(HTTP, t[1].value) && IsSection(OBSERVABILITY, t[3].value) && IsSection(SAFETY, t[4].value) &&
       IsSection(DATA_PLANE, t[5].value) && 0 <= timeout <= 0x7FFF_FFFF_FFFF_FFFF
    then
      Some(Global(TextOf(storage[0]), TextOf(storage[1]), TextOf(service[2]), TextOf(service[0]), TextOf(service[1]),
                  timeout, FlagOf(storage[3]), t[1].value, t[3].value, t[4].value, t[5].value))
    else None
  }

  lemma ServiceRoundTrips(g: Global)
    ensures IsSection(SERVICE, Tbl(Entries(SERVICE, ServiceValues(g))))
    ensures Decode(SERVICE, Tbl(Entries(SERVICE, ServiceValues(g)))) == ServiceValues(g)
  {
    assert forall i :: 0 <= i < |SERVICE| ==> FitsField(SERVICE[i].1, ServiceValues(g)[i]);
    ServiceNames();
    hide FitsField, DistinctNames, StructOf, Entries;
    SerialisedIsSaturated(SERVICE, ServiceValues(g));
    DecodeEntries(SERVICE, ServiceValues(g));
  }

  lemma StorageRoundTrips(g: Global)
    ensures IsSection(STORAGE, Tbl(Entries(STORAGE, StorageValues(g))))
    ensures Decode(STORAGE, Tbl(Entries(STORAGE, StorageValues(g)))) == StorageValues(g)
  {
    assert forall i :: 0 <= i < |STORAGE| ==> FitsField(STORAGE[i].1, StorageValues(g)[i]);
    StorageNames();
    hide FitsField, DistinctNames, StructOf, Entries;
    SerialisedIsSaturated(STORAGE, StorageValues(g));
    DecodeEntries(STORAGE, StorageValues(g));
  }

  lemma GlobalFits(g: Global)
    ensures forall i :: 0 <= i < |GLOBAL| ==> FitsField(GLOBAL[i].1, GlobalValues(g)[i])
  {
    ServiceRoundTrips(g);
    StorageRoundTrips(g);
    hide StructOf, Entries, Saturated, Decode;
  }

  lemma GlobalRoundTrips(g: Global)
    ensures WriteGlobal(g).Tbl? && Saturated(StructOf(GLOBAL), WriteGlobal(g)) && ReadGlobal(WriteGlobal(g)) == Some(g)
  {
    GlobalFits(g);
    GlobalNames();
    ServiceRoundTrips(g);
    StorageRoundTrips(g);
    hide FitsField, DistinctNames, StructOf, Entries, Saturated;
    SerialisedIsSaturated(GLOBAL, GlobalValues(g));
    DecodeEntries(GLOBAL, GlobalValues(g));
    hide Decode;
  }

  // ----- Bots -----

  function BotValues(b: Bot): (t: seq<Option<Value>>)
    ensures |t| == 18
  {
    [Some(T(b.id)), Some(Bool(b.enabled)), Some(T(if b.market.Crypto? then "crypto" else "equities")), Some(Texts(b.symbols)),
     Some(T(b.timeframe.AsStr())), Some(T(b.account)), Some(T(b.dataConnector)), Some(T(b.executionConnector)),
     Some(T(b.strategy)), Some(T(if b.signalMode.Intrabar? then "intrabar" else "confirmed_only")),
     Some(Bool(b.pollingEnabled)), Some(Num(b.pollingIntervalMs)), Some(b.indicators), Some(b.constraints),
     Some(Tbl(Entries(PCT, [Some(Real(b.budgetPct))]))), Some(b.risk),
     if b.warmupTargetBars.Some? then Some(Num(b.warmupTargetBars.value)) else None, Some(Bool(b.allowLive))]
  }

  function WriteBot(b: Bot): Value { Tbl(Entries(BOT, BotValues(b))) }

  /** The bot whose fields hold the values `t`. */
  ghost function BotOf(t: seq<Option<Value>>): Option<Bot>
    requires |t| == 18
  {
    if t[12].None? || t[13].None? || t[14].None? || t[15].None? then None else
    var polling, warmup := NumberOf(t[11]), NumberOf(t[16]);
    if Saturated(ListOf(StructOf(INDICATOR)), t[12].value) && IsSection(CONSTRAINTS, t[13].value) &&
       IsSection(BOT_RISK, t[15].value) && 0 <= polling <= 0x7FFF_FFFF_FFFF_FFFF && 0 <= warmup <= 0x7FFF_FFFF_FFFF_FFFF
    then
      Some(Bot(TextOf(t[0]), TimeframeOf(TextOf(t[4])), TextsOf(t[3]), TextOf(t[5]), TextOf(t[6]), TextOf(t[7]),
               if |TextOf(t[2])| == 6 then Crypto else Equities, FlagOf(t[1]), TextOf(t[8]),
               if |TextOf(t[9])| == 8 then Intrabar else ConfirmedOnly, FlagOf(t[10]), polling, t[12].value, t[13].value,
               RealOf(Decode(PCT, t[14].value)[0]), t[15].value, if t[16].Some? then Some(warmup) else None, FlagOf(t[17])))
    else None
  }

  ghost function ReadBot(v: Value): Option<Bot> { BotOf(Decode(BOT, v)) }

  lemma SectionsOfBot(b: Bot)
    ensures Saturated(ListOf(StructOf(INDICATOR)), b.indicators)
    ensures Saturated(StructOf(CONSTRAINTS), b.constraints) && Saturated(StructOf(BOT_RISK), b.risk)
    ensures IsSection(CONSTRAINTS, b.constraints) && IsSection(BOT_RISK, b.risk)
  {
  }

  lemma BotLists(b: Bot)
    ensures var t := BotValues(b); TimeframeOf(TextOf(t[4])) == b.timeframe && TextsOf(t[3]) == b.symbols
  {
    TextsRoundTrip(b.symbols);
    TimeframeRoundTrips(b.timeframe);
    var t, frame := BotValues(b), b.timeframe.AsStr();
    assert t[3] == Some(Texts(b.symbols)) && t[4] == Some(T(frame));
    hide BotValues, Texts, TextsOf, TimeframeOf;
  }

  lemma BotTexts(b: Bot)
    ensures var t := BotValues(b);
            && TextOf(t[0]) == b.id && TextOf(t[5]) == b.account && TextOf(t[6]) == b.dataConnector
            && TextOf(t[7]) == b.executionConnector && TextOf(t[8]) == b.strategy
  {
    hide Entries, Texts, Decode, StructOf, Saturated;
    var t := BotValues(b);
    assert t[0] == Some(T(b.id)) && t[5] == Some(T(b.account)) && t[6] == Some(T(b.dataConnector));
    assert t[7] == Some(T(b.executionConnector)) && t[8] == Some(T(b.strategy));
    hide BotValues;
  }

  lemma BotChoices(b: Bot)
    ensures var t := BotValues(b);
            && (|TextOf(t[2])| == 6 <==> b.market.Crypto?) && (|TextOf(t[9])| == 8 <==> b.signalMode.Intrabar?)
            && FlagOf(t[1]) == b.enabled && FlagOf(t[10]) == b.pollingEnabled && FlagOf(t[17]) == b.allowLive
  {
    hide Entries, Texts, Decode, StructOf, Saturated;
  }

  lemma BotNumbers(b: Bot)
    ensures var t := BotValues(b);
            && NumberOf(t[11]) == b.pollingIntervalMs
            && (t[16].Some? <==> b.warmupTargetBars.Some?)
            && NumberOf(t[16]) == (if b.warmupTargetBars.Some? then b.warmupTargetBars.value else 0)
            && t[12] == Some(b.indicators) && t[13] == Some(b.constraints) && t[15] == Some(b.risk)
            && t[14].Some? && RealOf(Decode(PCT, t[14].value)[0]) == b.budgetPct
  {
    BudgetRoundTrips(b.budgetPct);
    hide Entries, Texts, Decode;
  }

  lemma BotOfValues(b: Bot)
    ensures BotOf(BotValues(b)) == Some(b)
  {
    BotLists(b);
    BotTexts(b);
    BotChoices(b);
    BotNumbers(b);
    SectionsOfBot(b);
    hide BotValues, TextOf, TextsOf, FlagOf, NumberOf, RealOf, TimeframeOf, Decode, StructOf, Saturated, IsSection;
  }

  lemma BudgetRoundTrips(x: real)
    ensures IsSection(PCT, Tbl(Entries(PCT, [Some(Real(x))]))) && Saturated(StructOf(PCT), Tbl(Entries(PCT, [Some(Real(x))])))
    ensures Decode(PCT, Tbl(Entries(PCT, [Some(Real(x))]))) == [Some(Real(x))]
  {
    assert FitsField(PCT[0].1, Some(Real(x)));
    hide FitsField, StructOf, Entries;
    SerialisedIsSaturated(PCT, [Some(Real(x))]);
    DecodeEntries(PCT, [Some(Real(x))]);
  }

  lemma MarketIsSaturated(crypto: bool)
    ensures Saturated(OneOf({"equities", "crypto"}), T(if crypto then "crypto" else "equities"))
  {
  }

  lemma SignalModeIsSaturated(intrabar: bool)
    ensures Saturated(OneOf({"intrabar", "confirmed_only"}), T(if intrabar then "intrabar" else "confirmed_only"))
  {
  }

  lemma BotFitsName(b: Bot)
    ensures forall i :: 0 <= i < 3 ==> FitsField(BOT[i].1, BotValues(b)[i])
  {
    ScalarsAreSaturated();
    MarketIsSaturated(b.market.Crypto?);
    hide StructOf, Entries, Texts, Decode, Saturated, T, Bool, Real, Num, OneOf, Unsigned, IsSection;
  }

  lemma BotFitsSymbols(b: Bot)
    ensures forall i :: 3 <= i < 5 ==> FitsField(BOT[i].1, BotValues(b)[i])
  {
    TextsRoundTrip(b.symbols);
    TimeframeRoundTrips(b.timeframe);
    hide StructOf, Entries, Texts, Decode, Saturated, T, Bool, Real, Num, OneOf, Unsigned, IsSection;
  }

  lemma BotFitsMode(b: Bot)
    ensures forall i :: 5 <= i < 10 ==> FitsField(BOT[i].1, BotValues(b)[i])
  {
    ScalarsAreSaturated();
    SignalModeIsSaturated(b.signalMode.Intrabar?);
    hide StructOf, Entries, Texts, Decode, Saturated, T, Bool, Real, Num, OneOf, Unsigned, IsSection;
  }

  lemma BotFitsPolling(b: Bot)
    ensures forall i :: 10 <= i < 14 ==> FitsField(BOT[i].1, BotValues(b)[i])
  {
    ScalarsAreSaturated();
    SectionsOfBot(b);
    hide StructOf, Entries, Texts, Decode, Saturated, T, Bool, Real, Num, OneOf, Unsigned, IsSection;
  }

  lemma BotFitsBudget(b: Bot)
    ensures forall i :: 14 <= i < 18 ==> FitsField(BOT[i].1, BotValues(b)[i])
  {
    BudgetRoundTrips(b.budgetPct);
    ScalarsAreSaturated();
    SectionsOfBot(b);
    hide StructOf, Entries, Texts, Decode, Saturated, T, Bool, Real, Num, OneOf, Unsigned, IsSection;
  }

  lemma BotFits(b: Bot)
    ensures forall i :: 0 <= i < |BOT| ==> FitsField(BOT[i].1, BotValues(b)[i])
  {
    assert |BOT| == 18;
    hide FitsField, BotValues;
    BotFitsName(b);
    BotFitsSymbols(b);
    BotFitsMode(b);
    BotFitsPolling(b);
    BotFitsBudget(b);
  }

  lemma BotRoundTrips(b: Bot)
    ensures WriteBot(b).Tbl? && Saturated(StructOf(BOT), WriteBot(b)) && ReadBot(WriteBot(b)) == Some(b)
  {
    BotFits(b);
    BotNames();
    BotOfValues(b);
    hide FitsField, DistinctNames, StructOf, Entries, Saturated, BotOf, BotValues, Decode;
    SerialisedIsSaturated(BOT, BotValues(b));
    DecodeEntries(BOT, BotValues(b));
  }

  // ----- What a document says under each name -----

  /** `v` is a table that holds `x` under `name`, or nothing there when `x` is none. */
  predicate Says(v: Value, name: string, x: Option<Value>) {
    v.Tbl? && x == if name in v.entries then Some(v.entries[name]) else None
  }

  lemma FieldIsSaid(rows: seq<Row>, values: seq<Option<Value>>, i: nat)
    requires |rows| == |values| && DistinctNames(rows) && i < |rows|
    ensures Says(Tbl(Entries(rows, values)), rows[i].0, values[i])
  {
    EntryOfField(rows, values, i);
  }

  lemma FieldsAreSaid(rows: seq<Row>, values: seq<Option<Value>>)
    requires |rows| == |values| && DistinctNames(rows)
    ensures forall i :: 0 <= i < |rows| ==> Says(Tbl(Entries(rows, values)), rows[i].0, values[i])
  {
    forall i | 0 <= i < |rows| ensures Says(Tbl(Entries(rows, values)), rows[i].0, values[i]) {
      FieldIsSaid(rows, values, i);
    }
  }

  /** A risk profile's document says its fields under their names. */
  lemma RiskDocumentSays(r: RiskProfile)
    ensures var v := WriteRisk(r);
            && Says(v, "id", Some(Leaf(Text(r.id)))) && Says(v, "max_daily_loss_pct", Some(Leaf(Decimal(r.maxDailyLossPct))))
            && Says(v, "max_open_positions", Some(Leaf(Integer(r.maxOpenPositions))))
            && Says(v, "target_order_notional_usd",
                    if r.targetOrderNotional.Some? then Some(Leaf(Decimal(r.targetOrderNotional.value))) else None)
            && Says(v, "max_order_notional_usd", Some(Leaf(Decimal(r.maxOrderNotional))))
            && Says(v, "max_spread_bps", Some(Leaf(Integer(r.maxSpreadBps))))
            && Says(v, "max_slippage_bps", Some(Leaf(Integer(r.maxSlippageBps))))
            && Says(v, "stale_data_ms", Some(Leaf(Integer(r.staleDataMs))))
            && Says(v, "cooldown_after_reject_ms", Some(Leaf(Integer(r.cooldownMs))))
  {
    RiskNames();
    var v, t := WriteRisk(r), RiskValues(r);
    FieldsAreSaid(RISK, t);
    hide Says, Entries, DistinctNames, WriteRisk, Unsigned;
    assert Says(v, RISK[0].0, t[0]) && Says(v, RISK[1].0, t[1]) && Says(v, RISK[2].0, t[2]);
    assert Says(v, RISK[3].0, t[3]) && Says(v, RISK[4].0, t[4]) && Says(v, RISK[5].0, t[5]);
    assert Says(v, RISK[6].0, t[6]) && Says(v, RISK[7].0, t[7]) && Says(v, RISK[8].0, t[8]);
  }

  /** An account's document says its fields under their names, absent ones not at all. */
  lemma AccountDocumentSays(a: Account)
    ensures var v := WriteAccount(a);
            && Says(v, "id", Some(Leaf(Text(a.id)))) && Says(v, "kind", Some(Leaf(Text(a.kind))))
            && Says(v, "mode", Some(Leaf(Text(if a.mode == Live then "live" else "paper"))))
            && Says(v, "api_key_env", if a.apiKeyEnv.Some? then Some(Leaf(Text(a.apiKeyEnv.value))) else None)
            && Says(v, "api_secret_env", if a.apiSecretEnv.Some? then Some(Leaf(Text(a.apiSecretEnv.value))) else None)
            && Says(v, "passphrase_env", if a.passphraseEnv.Some? then Some(Leaf(Text(a.passphraseEnv.value))) else None)
            && Says(v, "use_demo_mode", Some(Leaf(Boolean(a.useDemoMode))))
            && Says(v, "reconciliation_remote_snapshot", Some(Leaf(Boolean(a.remoteSnapshot))))
            && Says(v, "execution_remote_submission",
                    if a.remoteSubmission.Some? then Some(Leaf(Boolean(a.remoteSubmission.value))) else None)
            && Says(v, "reconciliation_base_url", if a.baseUrl.Some? then Some(Leaf(Text(a.baseUrl.value))) else None)
            && Says(v, "total_budget_usd", Some(Leaf(Decimal(a.budget))))
            && SaysTexts(v, "cash_balance_assets", a.cashAssets)
  {
    AccountNames();
    var v, t := WriteAccount(a), AccountValues(a);
    FieldsAreSaid(ACCOUNT, t);
    TextsAreSaid(v, "cash_balance_assets", a.cashAssets);
    hide Says, Entries, DistinctNames, WriteAccount, OneOf, Texts;
    assert Says(v, ACCOUNT[0].0, t[0]) && Says(v, ACCOUNT[1].0, t[1]) && Says(v, ACCOUNT[2].0, t[2]);
    assert Says(v, ACCOUNT[3].0, t[3]) && Says(v, ACCOUNT[4].0, t[4]) && Says(v, ACCOUNT[5].0, t[5]);
    assert Says(v, ACCOUNT[6].0, t[6]) && Says(v, ACCOUNT[7].0, t[7]) && Says(v, ACCOUNT[8].0, t[8]);
    assert Says(v, ACCOUNT[9].0, t[9]) && Says(v, ACCOUNT[10].0, t[10]) && Says(v, ACCOUNT[11].0, t[11]);
  }

  /** `v` lists exactly these texts under `name`. */
  predicate SaysTexts(v: Value, name: string, items: seq<string>) {
    && v.Tbl? && name in v.entries && v.entries[name].Arr? && |v.entries[name].items| == |items|
    && forall i :: 0 <= i < |items| ==> v.entries[name].items[i] == Leaf(Text(items[i]))
  }

  lemma TextsAreSaid(v: Value, name: string, items: seq<string>)
    ensures Says(v, name, Some(Texts(items))) ==> SaysTexts(v, name, items)
  {
  }

  lemma BudgetIsSaid(x: real)
    ensures Tbl(Entries(PCT, [Some(Real(x))])) == Tbl(map["pct" := Leaf(Decimal(x))])
  {
    assert PCT[..0] == [] && [Some(Real(x))][..0] == [];
    assert Entries(PCT[..0], [Some(Real(x))][..0]) == map[];
  }

  /** A bot's document says its fields under their names. */
  lemma BotDocumentSays(b: Bot)
    ensures var v := WriteBot(b);
            && Says(v, "id", Some(Leaf(Text(b.id)))) && Says(v, "enabled", Some(Leaf(Boolean(b.enabled))))
            && Says(v, "market", Some(Leaf(Text(if b.market == Crypto then "crypto" else "equities"))))
            && SaysTexts(v, "symbols", b.symbols)
            && Says(v, "timeframe", Some(Leaf(Text(b.timeframe.AsStr())))) && Says(v, "account", Some(Leaf(Text(b.account))))
            && Says(v, "data_connector", Some(Leaf(Text(b.dataConnector))))
            && Says(v, "execution_connector", Some(Leaf(Text(b.executionConnector))))
            && Says(v, "strategy", Some(Leaf(Text(b.strategy))))
            && Says(v, "signal_mode", Some(Leaf(Text(if b.signalMode == Intrabar then "intrabar" else "confirmed_only"))))
            && Says(v, "polling_enabled", Some(Leaf(Boolean(b.pollingEnabled))))
            && Says(v, "polling_interval_ms", Some(Leaf(Integer(b.pollingIntervalMs))))
            && Says(v, "indicators", Some(b.indicators)) && Says(v, "execution_constraints", Some(b.constraints))
            && Says(v, "budget", Some(Tbl(map["pct" := Leaf(Decimal(b.budgetPct))])))
            && Says(v, "risk", Some(b.risk)) && Says(v, "allow_live", Some(Leaf(Boolean(b.allowLive))))
            && Says(v, "warmup_target_bars",
                    if b.warmupTargetBars.Some? then Some(Leaf(Integer(b.warmupTargetBars.value))) else None)
  {
    BotNames();
    var v, t := WriteBot(b), BotValues(b);
    FieldsAreSaid(BOT, t);
    TextsAreSaid(v, "symbols", b.symbols);
    BudgetIsSaid(b.budgetPct);
    hide Says, Entries, DistinctNames, WriteBot, OneOf, Unsigned, Texts, StructOf, SaysTexts;
    assert Says(v, BOT[0].0, t[0]) && Says(v, BOT[1].0, t[1]) && Says(v, BOT[2].0, t[2]) && Says(v, BOT[3].0, t[3]);
    assert Says(v, BOT[4].0, t[4]) && Says(v, BOT[5].0, t[5]) && Says(v, BOT[6].0, t[6]) && Says(v, BOT[7].0, t[7]);
    assert Says(v, BOT[8].0, t[8]) && Says(v, BOT[9].0, t[9]) && Says(v, BOT[10].0, t[10]) && Says(v, BOT[11].0, t[11]);
    assert Says(v, BOT[12].0, t[12]) && Says(v, BOT[13].0, t[13]) && Says(v, BOT[14].0, t[14]) && Says(v, BOT[15].0, t[15]);
    assert Says(v, BOT[16].0, t[16]) && Says(v, BOT[17].0, t[17]);
  }

  /** The global document says its settings in its sections. */
  lemma GlobalDocumentSays(g: Global)
    ensures var v := WriteGlobal(g);
            exists service, storage ::
              && Says(v, "service", Some(service)) && Says(v, "storage", Some(storage))
              && Says(service, "environment", Some(Leaf(Text(g.environment))))
              && Says(service, "data_dir", Some(Leaf(Text(g.dataDir)))) && Says(service, "bot_dir", Some(Leaf(Text(g.botDir))))
              && Says(storage, "kind", Some(Leaf(Text(g.storageKind)))) && Says(storage, "path", Some(Leaf(Text(g.storagePath))))
              && Says(storage, "busy_timeout_ms", Some(Leaf(Integer(g.busyTimeoutMs))))
              && Says(storage, "prune_removed_bots_on_startup", Some(Leaf(Boolean(g.pruneRemovedBots))))
              && Says(v, "http", Some(g.http)) && Says(v, "observability", Some(g.observability))
              && Says(v, "safety", Some(g.safety)) && Says(v, "data_plane", Some(g.dataPlane))
  {
    GlobalNames();
    ServiceNames();
    StorageNames();
    var v, t, s, u := WriteGlobal(g), GlobalValues(g), ServiceValues(g), StorageValues(g);
    var service, storage := Tbl(Entries(SERVICE, s)), Tbl(Entries(STORAGE, u));
    FieldsAreSaid(GLOBAL, t);
    FieldsAreSaid(SERVICE, s);
    FieldsAreSaid(STORAGE, u);
    hide Says, Entries, DistinctNames, WriteGlobal, Unsigned, StructOf;
    assert Says(v, GLOBAL[0].0, t[0]) && Says(v, GLOBAL[1].0, t[1]) && Says(v, GLOBAL[2].0, t[2]);
    assert Says(v, GLOBAL[3].0, t[3]) && Says(v, GLOBAL[4].0, t[4]) && Says(v, GLOBAL[5].0, t[5]);
    assert Says(service, SERVICE[0].0, s[0]) && Says(service, SERVICE[1].0, s[1]) && Says(service, SERVICE[2].0, s[2]);
    assert Says(storage, STORAGE[0].0, u[0]) && Says(storage, STORAGE[1].0, u[1]);
    assert Says(storage, STORAGE[2].0, u[2]) && Says(storage, STORAGE[3].0, u[3]);
  }

  // ----- The formats of the service -----

  ghost const GLOBAL_FORMAT: Format<Global> := Format(StructOf(GLOBAL), WriteGlobal, (v: Value) => ReadGlobal(v))
  ghost const ACCOUNT_FORMAT: Format<Account> := Format(StructOf(ACCOUNT), WriteAccount, ReadAccount)
  ghost const RISK_FORMAT: Format<RiskProfile> := Format(StructOf(RISK), WriteRisk, ReadRisk)
  ghost const BOT_FORMAT: Format<Bot> := Format(StructOf(BOT), WriteBot, (v: Value) => ReadBot(v))

  /** Every entity is written as a value of its schema and read back as itself. */
  lemma ServiceFormatsRoundTrip()
    ensures RoundTrips(GLOBAL_FORMAT) && RoundTrips(ACCOUNT_FORMAT) && RoundTrips(RISK_FORMAT) && RoundTrips(BOT_FORMAT)
  {
    hide StructOf, Saturated, WriteGlobal, WriteAccount, WriteRisk, WriteBot, ReadGlobal, ReadAccount, ReadRisk, ReadBot;
    forall g: Global ensures GLOBAL_FORMAT.write(g).Tbl? && Saturated(GLOBAL_FORMAT.schema, GLOBAL_FORMAT.write(g)) &&
                             GLOBAL_FORMAT.read(GLOBAL_FORMAT.write(g)) == Some(g) { GlobalRoundTrips(g); }
    forall a: Account ensures ACCOUNT_FORMAT.write(a).Tbl? && Saturated(ACCOUNT_FORMAT.schema, ACCOUNT_FORMAT.write(a)) &&
                              ACCOUNT_FORMAT.read(ACCOUNT_FORMAT.write(a)) == Some(a) { AccountRoundTrips(a); }
    forall r: RiskProfile ensures RISK_FORMAT.write(r).Tbl? && Saturated(RISK_FORMAT.schema, RISK_FORMAT.write(r)) &&
                                  RISK_FORMAT.read(RISK_FORMAT.write(r)) == Some(r) { RiskRoundTrips(r); }
    forall b: Bot ensures BOT_FORMAT.write(b).Tbl? && Saturated(BOT_FORMAT.schema, BOT_FORMAT.write(b)) &&
                          BOT_FORMAT.read(BOT_FORMAT.write(b)) == Some(b) { BotRoundTrips(b); }
  }
}
