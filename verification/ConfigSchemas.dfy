/**
 * The schemas of the four configuration documents, field by field, and the proof
 * that their defaults are coherent: the law of the document writer holds for every
 * configuration file without further conditions.
 */
module ConfigSchemas {
  import opened Options
  import opened DocumentPatch

  // ----- Structs as lists of fields -----

  type Row = (string, Field)

  function Fields(rows: seq<Row>): map<string, Field> {
    if rows == [] then map[] else Fields(rows[..|rows| - 1])[rows[|rows| - 1].0 := rows[|rows| - 1].1]
  }

  function StructOf(rows: seq<Row>): Schema { Struct(Fields(rows)) }

  function Req(name: string, s: Schema): Row { (name, Field(s, Required)) }
  function Opt(name: string, s: Schema): Row { (name, Field(s, Optional)) }
  function Skip(name: string, s: Schema): Row { (name, Field(s, Skippable)) }
  function Def(name: string, s: Schema, value: Value): Row { (name, Field(s, Default(value))) }

  lemma {:induction false} FieldsAreRows(rows: seq<Row>, k: string)
    requires k in Fields(rows)
    ensures exists i :: 0 <= i < |rows| && rows[i] == (k, Fields(rows)[k])
    decreases |rows|
  {
    var n := |rows| - 1;
    if rows[n].0 == k {
      assert rows[n] == (k, Fields(rows)[k]);
    } else {
      FieldsAreRows(rows[..n], k);
      var i :| 0 <= i < n && rows[..n][i] == (k, Fields(rows[..n])[k]);
      assert rows[i] == (k, Fields(rows)[k]);
    }
  }

  /** A table default is what an empty table reads as, and the field's own schema is coherent. */
  ghost predicate CoherentField(f: Field) {
    && Coherent(f.schema)
    && (f.presence.Default? && f.presence.value.Tbl? ==> Normal(f.schema, Tbl(map[])) == Some(f.presence.value))
  }

  lemma StructIsCoherent(rows: seq<Row>)
    requires forall i :: 0 <= i < |rows| ==> CoherentField(rows[i].1)
    ensures Coherent(StructOf(rows))
  {
    forall k | k in Fields(rows) ensures CoherentField(Fields(rows)[k]) {
      FieldsAreRows(rows, k);
    }
  }

  // ----- What an empty table reads as -----

  function Defaults(rows: seq<Row>): map<string, Value> {
    if rows == [] then map[]
    else
      var earlier, last := Defaults(rows[..|rows| - 1]), rows[|rows| - 1];
      if last.1.presence.Default? then earlier[last.0 := last.1.presence.value] else earlier - {last.0}
  }

  lemma {:induction false} EmptyReadsKey(rows: seq<Row>, k: string)
    requires forall i :: 0 <= i < |rows| ==> !rows[i].1.presence.Required?
    ensures ReadKey(StructOf(rows), map[], k) == At(Defaults(rows), k)
    decreases |rows|
  {
    if rows != [] {
      EmptyReadsKey(rows[..|rows| - 1], k);
    }
  }

  lemma EmptyReadsDefaults(rows: seq<Row>)
    requires forall i :: 0 <= i < |rows| ==> !rows[i].1.presence.Required?
    ensures Normal(StructOf(rows), Tbl(map[])) == Some(Tbl(Defaults(rows)))
  {
    forall k ensures ReadKey(StructOf(rows), map[], k) == At(Defaults(rows), k) { EmptyReadsKey(rows, k); }
    ReadsTo(StructOf(rows), map[], Defaults(rows));
  }

  lemma {:induction false} NoDefaults(rows: seq<Row>)
    requires forall i :: 0 <= i < |rows| ==> rows[i].1.presence.Optional? || rows[i].1.presence.Skippable?
    ensures Defaults(rows) == map[]
    decreases |rows|
  {
    if rows != [] {
      NoDefaults(rows[..|rows| - 1]);
    }
  }

  // ----- Serialised structs are saturated -----

  function Entries(rows: seq<Row>, values: seq<Option<Value>>): map<string, Value>
    requires |rows| == |values|
    decreases |rows|
  {
    if rows == [] then map[]
    else
      var n := |rows| - 1;
      var earlier := Entries(rows[..n], values[..n]);
      if values[n].Some? then earlier[rows[n].0 := values[n].value] else earlier - {rows[n].0}
  }

  /** A value a field may be serialised as. */
  ghost predicate FitsField(f: Field, v: Option<Value>) {
    if v.None? then f.presence.Optional? || f.presence.Skippable?
    else Saturated(f.schema, v.value) && !(f.presence.Skippable? && v.value == Arr([]))
  }

  lemma {:induction false} EntriesReadKey(rows: seq<Row>, values: seq<Option<Value>>, k: string)
    requires |rows| == |values| && forall i :: 0 <= i < |rows| ==> FitsField(rows[i].1, values[i])
    ensures ReadKey(StructOf(rows), Entries(rows, values), k) == At(Entries(rows, values), k)
    decreases |rows|
  {
    if rows != [] {
      var n := |rows| - 1;
      EntriesReadKey(rows[..n], values[..n], k);
      assert FitsField(rows[n].1, values[n]);
    }
  }

  /** Whatever fitting values its fields have, a serialised struct reads as itself. */
  lemma SerialisedIsSaturated(rows: seq<Row>, values: seq<Option<Value>>)
    requires |rows| == |values| && forall i :: 0 <= i < |rows| ==> FitsField(rows[i].1, values[i])
    ensures Saturated(StructOf(rows), Tbl(Entries(rows, values)))
  {
    forall k ensures ReadKey(StructOf(rows), Entries(rows, values), k) == At(Entries(rows, values), k) {
      EntriesReadKey(rows, values, k);
    }
    ReadsTo(StructOf(rows), Entries(rows, values), Entries(rows, values));
  }

  // ----- Scalars -----

  const TEXT := Typed((x: Scalar) => if x.Text? then Some(x) else None)
  const FLAG := Typed((x: Scalar) => if x.Boolean? then Some(x) else None)

  /** An unsigned integer; documents hold no more than a signed 64-bit one. */
  function Unsigned(limit: int): Schema {
    Typed((x: Scalar) => if x.Integer? && 0 <= x.number <= limit then Some(x) else None)
  }

  const U64 := Unsigned(0x7FFF_FFFF_FFFF_FFFF)
  const U32 := Unsigned(0xFFFF_FFFF)

  /** A float; integers are accepted and become floats. */
  const FLOAT := Typed((x: Scalar) =>
    if x.Decimal? then Some(x) else if x.Integer? then Some(Decimal(x.number as real)) else None)

  function OneOf(names: set<string>): Schema {
    Typed((x: Scalar) => if x.Text? && x.text in names then Some(x) else None)
  }

  function Num(n: int): Value { Leaf(Integer(n)) }
  function Bool(b: bool): Value { Leaf(Boolean(b)) }

  const TIMEFRAME := OneOf({"1m", "5m", "15m", "30m", "1h", "4h", "1d"})

  // ----- openticker.toml -----

  const SERVICE := [Req("environment", TEXT), Req("data_dir", TEXT), Req("bot_dir", TEXT)]

  const HTTP := [Req("enabled", FLAG), Req("bind", TEXT), Req("request_log", FLAG),
                 Req("openapi_enabled", FLAG), Req("openapi_path", TEXT)]

  const STORAGE := [Req("kind", TEXT), Req("path", TEXT), Req("busy_timeout_ms", U64),
                    Def("prune_removed_bots_on_startup", FLAG, Bool(false))]

  const OBSERVABILITY := [Req("log_level", TEXT), Req("metrics_enabled", FLAG), Req("metrics_path", TEXT)]

  const SAFETY := [Req("require_explicit_live_enable", FLAG), Req("default_start_paused_if_recovery_uncertain", FLAG)]

  const WATCHLIST_ENTRY := [Req("account", TEXT), Req("symbol", TEXT), Req("timeframe", TIMEFRAME),
                            Opt("polling_interval_ms", U64), Opt("retention", U64)]

  const DATA_PLANE := [Def("default_polling_interval_ms", U64, Num(5_000)), Def("default_retention", U64, Num(500)),
                       Def("watchlist", ListOf(StructOf(WATCHLIST_ENTRY)), Arr([]))]

  /** The default written out for the whole section, independently of its fields' own defaults. */
  const DATA_PLANE_DEFAULT := Tbl(map["default_polling_interval_ms" := Num(5_000), "default_retention" := Num(500),
                                      "watchlist" := Arr([])])

  const GLOBAL := [Req("service", StructOf(SERVICE)), Req("http", StructOf(HTTP)), Req("storage", StructOf(STORAGE)),
                   Req("observability", StructOf(OBSERVABILITY)), Req("safety", StructOf(SAFETY)),
                   Def("data_plane", StructOf(DATA_PLANE), DATA_PLANE_DEFAULT)]

  // ----- accounts/*.toml -----

  const ACCOUNT := [Req("id", TEXT), Req("kind", TEXT), Req("mode", OneOf({"paper", "live"})),
                    Opt("api_key_env", TEXT), Opt("api_secret_env", TEXT), Opt("passphrase_env", TEXT),
                    Def("use_demo_mode", FLAG, Bool(false)), Def("reconciliation_remote_snapshot", FLAG, Bool(false)),
                    Opt("execution_remote_submission", FLAG), Opt("reconciliation_base_url", TEXT),
                    Def("cash_balance_assets", ListOf(TEXT), Arr([])), Req("total_budget_usd", FLOAT)]

  // ----- risk/*.toml -----

  const RISK := [Req("id", TEXT), Req("max_daily_loss_pct", FLOAT), Req("max_open_positions", U32),
                 Opt("target_order_notional_usd", FLOAT), Req("max_order_notional_usd", FLOAT),
                 Req("max_spread_bps", U32), Req("max_slippage_bps", U32), Req("stale_data_ms", U64),
                 Req("cooldown_after_reject_ms", U64)]

  // ----- bots/*.toml -----

  const CONSTRAINTS := [Opt("quantity_step", FLOAT), Opt("min_quantity", FLOAT), Opt("min_notional_usd", FLOAT)]

  const METADATA_FILTER := [Skip("allowed_strengths", ListOf(OneOf({"normal", "strong"}))), Skip("allowed_reason_codes", ListOf(TEXT)),
                            Skip("required_tags_all", ListOf(TEXT)), Skip("required_tags_any", ListOf(TEXT)),
                            Skip("blocked_tags", ListOf(TEXT))]

  const METADATA_FILTERS := [Def("entry", StructOf(METADATA_FILTER), Tbl(map[])),
                             Def("exit", StructOf(METADATA_FILTER), Tbl(map[]))]

  const ROLES := {"primary_signal", "filter", "context", "risk_helper", "research_only"}

  const INDICATOR := [Req("id", TEXT), Req("type", TEXT), Def("enabled", FLAG, Bool(true)), Opt("role", OneOf(ROLES)),
                      Opt("signal_policy", OneOf({"preview_allowed", "confirmed_required"})), Opt("weight", FLOAT),
                      Def("metadata_filters", StructOf(METADATA_FILTERS),
                          Tbl(map["entry" := Tbl(map[]), "exit" := Tbl(map[])])),
                      Def("params", AnyTable, Tbl(map[]))]

  const OVERRIDES := [Opt("max_daily_loss_pct", FLOAT), Opt("max_open_positions", U32),
                      Opt("target_order_notional_usd", FLOAT), Opt("max_order_notional_usd", FLOAT),
                      Opt("max_spread_bps", U32), Opt("max_slippage_bps", U32), Opt("stale_data_ms", U64),
                      Opt("cooldown_after_reject_ms", U64)]

  const BOT_RISK := [Req("profile", TEXT), Def("overrides", StructOf(OVERRIDES), Tbl(map[]))]

  const BOT := [Req("id", TEXT), Req("enabled", FLAG), Req("market", OneOf({"equities", "crypto"})),
                Req("symbols", ListOf(TEXT)), Req("timeframe", TIMEFRAME), Req("account", TEXT),
                Req("data_connector", TEXT), Req("execution_connector", TEXT), Req("strategy", TEXT),
                Req("signal_mode", OneOf({"intrabar", "confirmed_only"})), Def("polling_enabled", FLAG, Bool(true)),
                Def("polling_interval_ms", U64, Num(1_000)), Def("indicators", ListOf(StructOf(INDICATOR)), Arr([])),
                Def("execution_constraints", StructOf(CONSTRAINTS), Tbl(map[])),
                Req("budget", StructOf(PCT)), Req("risk", StructOf(BOT_RISK)),
                Opt("warmup_target_bars", U64), Def("allow_live", FLAG, Bool(false))]

  // ----- Names are distinct, so fields can be read back -----

  predicate DistinctNames(rows: seq<Row>) { forall i, j :: 0 <= i < j < |rows| ==> rows[i].0 != rows[j].0 }

  /** A fingerprint that tells the names of each struct apart. */
  function Code(s: string): int { if |s| < 2 then |s| else |s| * 1_000_000 + s[1] as int * 1_000 + s[|s| - 1] as int }

  lemma DistinctByCode(rows: seq<Row>, codes: seq<int>)
    requires |rows| == |codes| && forall i :: 0 <= i < |rows| ==> Code(rows[i].0) == codes[i]
    requires forall i, j :: 0 <= i < j < |codes| ==> codes[i] != codes[j]
    ensures DistinctNames(rows)
  {
    forall i, j | 0 <= i < j < |rows| ensures rows[i].0 != rows[j].0 {
      assert Code(rows[i].0) != Code(rows[j].0);
    }
  }

  /** What a table holds under each field. */
  function Decode(rows: seq<Row>, v: Value): (values: seq<Option<Value>>)
    ensures |values| == |rows|
  {
    seq(|rows|, i requires 0 <= i < |rows| =>
      if v.Tbl? && rows[i].0 in v.entries then Some(v.entries[rows[i].0]) else None)
  }

  lemma {:induction false} EntryOfField(rows: seq<Row>, values: seq<Option<Value>>, i: nat)
    requires |rows| == |values| && DistinctNames(rows) && i < |rows|
    ensures var m := Entries(rows, values); values[i] == if rows[i].0 in m then Some(m[rows[i].0]) else None
    decreases |rows|
  {
    var n := |rows| - 1;
    if i < n {
      EntryOfField(rows[..n], values[..n], i);
    }
  }

  /** Reading a serialised struct field by field gives back what was serialised. */
  lemma DecodeEntries(rows: seq<Row>, values: seq<Option<Value>>)
    requires |rows| == |values| && DistinctNames(rows)
    ensures Decode(rows, Tbl(Entries(rows, values))) == values
  {
    forall i | 0 <= i < |rows| ensures Decode(rows, Tbl(Entries(rows, values)))[i] == values[i] {
      EntryOfField(rows, values, i);
    }
  }

  lemma ServiceNames()
    ensures DistinctNames(SERVICE)
  {
    DistinctByCode(SERVICE, [Code("environment"), Code("data_dir"), Code("bot_dir")]);
  }

  lemma StorageNames()
    ensures DistinctNames(STORAGE)
  {
    DistinctByCode(STORAGE, [Code("kind"), Code("path"), Code("busy_timeout_ms"), Code("prune_removed_bots_on_startup")]);
  }

  lemma GlobalNames()
    ensures DistinctNames(GLOBAL)
  {
    hide StructOf;
    DistinctByCode(GLOBAL, [Code("service"), Code("http"), Code("storage"), Code("observability"), Code("safety"),
                            Code("data_plane")]);
  }

  lemma AccountNames()
    ensures DistinctNames(ACCOUNT)
  {
    DistinctByCode(ACCOUNT, [Code("id"), Code("kind"), Code("mode"), Code("api_key_env"), Code("api_secret_env"),
                             Code("passphrase_env"), Code("use_demo_mode"), Code("reconciliation_remote_snapshot"),
                             Code("execution_remote_submission"), Code("reconciliation_base_url"),
                             Code("cash_balance_assets"), Code("total_budget_usd")]);
  }

  lemma RiskNames()
    ensures DistinctNames(RISK)
  {
    DistinctByCode(RISK, [Code("id"), Code("max_daily_loss_pct"), Code("max_open_positions"),
                          Code("target_order_notional_usd"), Code("max_order_notional_usd"), Code("max_spread_bps"),
                          Code("max_slippage_bps"), Code("stale_data_ms"), Code("cooldown_after_reject_ms")]);
  }

  ghost const BOT_CODES: seq<int> :=
    [2_100_100, 7_110_100, 6_097_116, 7_121_115, 9_105_101, 7_099_116, 14_097_114, 19_120_114, 8_116_121,
     11_105_101, 15_111_100, 19_111_115, 10_110_115, 21_120_115, 6_117_116, 4_105_107, 18_097_115, 10_108_101]

  ghost predicate FirstBotCodes() {
    && Code("id") == BOT_CODES[0] && Code("enabled") == BOT_CODES[1] && Code("market") == BOT_CODES[2]
    && Code("symbols") == BOT_CODES[3] && Code("timeframe") == BOT_CODES[4] && Code("account") == BOT_CODES[5]
    && Code("data_connector") == BOT_CODES[6] && Code("execution_connector") == BOT_CODES[7]
    && Code("strategy") == BOT_CODES[8]
  }

  ghost predicate OtherBotCodes() {
    && Code("signal_mode") == BOT_CODES[9] && Code("polling_enabled") == BOT_CODES[10]
    && Code("polling_interval_ms") == BOT_CODES[11] && Code("indicators") == BOT_CODES[12]
    && Code("execution_constraints") == BOT_CODES[13] && Code("budget") == BOT_CODES[14]
    && Code("risk") == BOT_CODES[15] && Code("warmup_target_bars") == BOT_CODES[16] && Code("allow_live") == BOT_CODES[17]
  }

  lemma FirstBotCodesHold()
    ensures FirstBotCodes()
  {
  }

  lemma OtherBotCodesHold()
    ensures OtherBotCodes()
  {
  }

  lemma BotNames()
    ensures DistinctNames(BOT)
  {
    hide StructOf, Code, DistinctNames, FirstBotCodes, OtherBotCodes;
    FirstBotCodesHold();
    OtherBotCodesHold();
    BotNamesFollow();
    DistinctByCode(BOT, BOT_CODES);
  }

  lemma BotNamesFollow()
    requires FirstBotCodes() && OtherBotCodes()
    ensures |BOT| == |BOT_CODES| && forall i :: 0 <= i < |BOT| ==> Code(BOT[i].0) == BOT_CODES[i]
  {
    hide StructOf, Code;
  }

  // ----- Sections kept as the values their schemas describe -----

  ghost predicate IsSection(rows: seq<Row>, v: Value) { v.Tbl? && Saturated(StructOf(rows), v) }

  ghost function Section(rows: seq<Row>, values: seq<Option<Value>>): (v: Value)
    requires |rows| == |values| && forall i :: 0 <= i < |rows| ==> FitsField(rows[i].1, values[i])
    ensures IsSection(rows, v)
  {
    SerialisedIsSaturated(rows, values);
    Tbl(Entries(rows, values))
  }

  lemma EmptyListIsSaturated(element: Schema)
    ensures Saturated(ListOf(element), Arr([]))
  {
    assert Normal(ListOf(element), Arr([])).value.items == [];
  }

  /** The empty list of any schema. */
  ghost function EmptyList(element: Schema): (v: Value)
    ensures Saturated(ListOf(element), v) && v == Arr([])
  {
    EmptyListIsSaturated(element);
    Arr([])
  }

  function T(text: string): Value { Leaf(Text(text)) }

  const PCT := [Req("pct", FLOAT)]

  ghost const HTTP_EXAMPLE := Section(HTTP, [Some(Bool(true)), Some(T("")), Some(Bool(true)), Some(Bool(true)), Some(T(""))])
  ghost const OBSERVABILITY_EXAMPLE := Section(OBSERVABILITY, [Some(T("")), Some(Bool(true)), Some(T(""))])
  ghost const SAFETY_EXAMPLE := Section(SAFETY, [Some(Bool(true)), Some(Bool(true))])
  ghost const DATA_PLANE_EXAMPLE := Section(DATA_PLANE, [Some(Num(5_000)), Some(Num(500)), Some(EmptyList(StructOf(WATCHLIST_ENTRY)))])
  ghost const CONSTRAINTS_EXAMPLE := Section(CONSTRAINTS, [None, None, None])
  ghost const OVERRIDES_EXAMPLE := Section(OVERRIDES, [None, None, None, None, None, None, None, None])
  ghost const BOT_RISK_EXAMPLE := Section(BOT_RISK, [Some(T("")), Some(OVERRIDES_EXAMPLE)])

  type HttpSection = v: Value | IsSection(HTTP, v) ghost witness HTTP_EXAMPLE
  type ObservabilitySection = v: Value | IsSection(OBSERVABILITY, v) ghost witness OBSERVABILITY_EXAMPLE
  type SafetySection = v: Value | IsSection(SAFETY, v) ghost witness SAFETY_EXAMPLE
  type DataPlaneSection = v: Value | IsSection(DATA_PLANE, v) ghost witness DATA_PLANE_EXAMPLE
  type ConstraintsSection = v: Value | IsSection(CONSTRAINTS, v) ghost witness CONSTRAINTS_EXAMPLE
  type BotRiskSection = v: Value | IsSection(BOT_RISK, v) ghost witness BOT_RISK_EXAMPLE
  type IndicatorList = v: Value | Saturated(ListOf(StructOf(INDICATOR)), v) ghost witness EmptyList(StructOf(INDICATOR))

  type Nat32 = n: int | 0 <= n <= 0xFFFF_FFFF
  type Nat63 = n: int | 0 <= n <= 0x7FFF_FFFF_FFFF_FFFF

  // ----- All of them are coherent -----

  lemma GlobalIsCoherent()
    ensures Coherent(StructOf(GLOBAL))
  {
    StructIsCoherent(SERVICE);
    StructIsCoherent(HTTP);
    StructIsCoherent(STORAGE);
    StructIsCoherent(OBSERVABILITY);
    StructIsCoherent(SAFETY);
    StructIsCoherent(WATCHLIST_ENTRY);
    StructIsCoherent(DATA_PLANE);
    DataPlaneDefault();
    hide Fields, Normal, StructOf;
    StructIsCoherent(GLOBAL);
  }

  lemma DataPlaneDefault()
    ensures Normal(StructOf(DATA_PLANE), Tbl(map[])) == Some(DATA_PLANE_DEFAULT)
  {
    EmptyReadsDefaults(DATA_PLANE);
    var two := DATA_PLANE[..2];
    assert two[..1] == DATA_PLANE[..1] && two[..1][..0] == [];
    assert Defaults(two[..1]) == map["default_polling_interval_ms" := Num(5_000)];
    assert Defaults(two) == map["default_polling_interval_ms" := Num(5_000)]["default_retention" := Num(500)];
  }

  lemma AccountIsCoherent()
    ensures Coherent(StructOf(ACCOUNT))
  {
    StructIsCoherent(ACCOUNT);
  }

  lemma RiskIsCoherent()
    ensures Coherent(StructOf(RISK))
  {
    StructIsCoherent(RISK);
  }

  lemma IndicatorIsCoherent()
    ensures Coherent(StructOf(INDICATOR))
  {
    StructIsCoherent(METADATA_FILTER);
    EmptyReadsDefaults(METADATA_FILTER);
    NoDefaults(METADATA_FILTER);
    StructIsCoherent(METADATA_FILTERS);
    EmptyReadsDefaults(METADATA_FILTERS);
    var one := METADATA_FILTERS[..1];
    assert one[..0] == [];
    assert Defaults(one) == map["entry" := Tbl(map[])];
    hide Fields, StructOf;
    StructIsCoherent(INDICATOR);
  }

  /** A section of optional fields defaults to the empty table. */
  lemma OptionalSection(rows: seq<Row>)
    requires forall i :: 0 <= i < |rows| ==> rows[i].1.presence.Optional? && rows[i].1.schema.Typed?
    ensures Coherent(StructOf(rows)) && Normal(StructOf(rows), Tbl(map[])) == Some(Tbl(map[]))
  {
    StructIsCoherent(rows);
    EmptyReadsDefaults(rows);
    NoDefaults(rows);
  }

  lemma BotRiskIsCoherent()
    ensures Coherent(StructOf(BOT_RISK))
  {
    OptionalSection(OVERRIDES);
    hide Fields, Normal, StructOf;
    StructIsCoherent(BOT_RISK);
  }

  lemma BotIsCoherent()
    ensures Coherent(StructOf(BOT))
  {
    IndicatorIsCoherent();
    OptionalSection(CONSTRAINTS);
    BotRiskIsCoherent();
    StructIsCoherent(PCT);
    hide Fields, Normal, StructOf;
    StructIsCoherent(BOT);
  }

  /** The four documents the service writes. */
  ghost predicate IsConfigSchema(s: Schema) {
    s == StructOf(GLOBAL) || s == StructOf(ACCOUNT) || s == StructOf(RISK) || s == StructOf(BOT)
  }

  lemma ConfigSchemasAreCoherent(s: Schema)
    requires IsConfigSchema(s)
    ensures TableShaped(s) && Coherent(s)
  {
    GlobalIsCoherent();
    AccountIsCoherent();
    RiskIsCoherent();
    BotIsCoherent();
    hide Fields, Coherent;
  }

  /**
   * For every readable document of the four kinds and every serialised configuration, the updated
   * document reads back as exactly that configuration, and writing it again changes nothing.
   */
  lemma ConfigDocumentsMeanNext(s: Schema, doc: Item, next: Value)
    requires IsConfigSchema(s) && doc.Table? && next.Tbl? && Saturated(s, next)
    ensures TableShaped(s)
    ensures var r := RenderUpdated(s, doc, next);
            if Normal(s, Read(doc)).None? then r.None?
            else
              && r.Some? && Normal(s, Read(r.value)) == Some(next)
              && r.value.Table? && RenderUpdated(s, r.value, next) == r
  {
    ConfigSchemasAreCoherent(s);
    hide IsConfigSchema, Coherent;
    UpdatedDocumentMeansNext(s, doc, next);
    if Normal(s, Read(doc)).Some? {
      WritingTwiceIsWritingOnce(s, doc, next);
    }
  }
}
