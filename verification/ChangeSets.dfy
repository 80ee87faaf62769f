/**
 * The configuration entities and the change-set validation that separates
 * hot-reloadable changes from those that need a restart. Sections the validation
 * never looks into are kept as the values their schemas describe.
 */
module ChangeSets {
  import opened Options
  import opened Orders
  import opened Market
  import S = ConfigSchemas

  datatype Global = Global(
    storageKind: string,
    storagePath: string,
    botDir: string,
    environment: string,
    dataDir: string,
    busyTimeoutMs: S.Nat63,
    pruneRemovedBots: bool,
    http: S.HttpSection,
    observability: S.ObservabilitySection,
    safety: S.SafetySection,
    dataPlane: S.DataPlaneSection)

  datatype ExecutionMode = Paper | Live

  datatype Account = Account(
    id: string,
    kind: string,
    mode: ExecutionMode,
    useDemoMode: bool,
    remoteSnapshot: bool,
    remoteSubmission: Option<bool>,
    baseUrl: Option<string>,
    apiKeyEnv: Option<string>,
    apiSecretEnv: Option<string>,
    passphraseEnv: Option<string>,
    budget: real,
    cashAssets: seq<string>)
  {
    /** An unset remote submission inherits the snapshot setting. */
    function SubmissionEnabled(): bool {
      if remoteSubmission.Some? then remoteSubmission.value else remoteSnapshot
    }
  }

  datatype RiskProfile = RiskProfile(
    id: string,
    maxDailyLossPct: real,
    maxOpenPositions: S.Nat32,
    targetOrderNotional: Option<real>,
    maxOrderNotional: real,
    maxSpreadBps: S.Nat32,
    maxSlippageBps: S.Nat32,
    staleDataMs: S.Nat63,
    cooldownMs: S.Nat63)

  datatype SignalMode = Intrabar | ConfirmedOnly

  datatype Bot = Bot(
    id: string,
    timeframe: Timeframe,
    symbols: seq<string>,
    account: string,
    dataConnector: string,
    executionConnector: string,
    market: MarketType,
    enabled: bool,
    strategy: string,
    signalMode: SignalMode,
    pollingEnabled: bool,
    pollingIntervalMs: S.Nat63,
    indicators: S.IndicatorList,
    constraints: S.ConstraintsSection,
    budgetPct: real,
    risk: S.BotRiskSection,
    warmupTargetBars: Option<S.Nat63>,
    allowLive: bool)

  datatype Bundle = Bundle(global: Global, accounts: seq<Account>, risks: seq<RiskProfile>, bots: seq<Bot>)

  datatype Violation =
    | StorageChanged
    | BotDirChanged
    | AccountSetChanged
    | AccountSettingsChanged(id: string)
    | CredentialsChanged(id: string)
    | RunningInstanceMissing(id: string)
    | RunningInstanceRemoved(id: string)
    | TimeframeChanged(id: string)
    | SymbolsChanged(id: string)
    | BindingsChanged(id: string)

  /** Accounts by id; of two accounts with one id the later wins. */
  function AccountsById(accounts: seq<Account>): map<string, Account> {
    if accounts == [] then map[]
    else
      var last := accounts[|accounts| - 1];
      AccountsById(accounts[..|accounts| - 1])[last.id := last]
  }

  function BotsById(bots: seq<Bot>): map<string, Bot> {
    if bots == [] then map[]
    else
      var last := bots[|bots| - 1];
      BotsById(bots[..|bots| - 1])[last.id := last]
  }

  ghost predicate LastAccount(accounts: seq<Account>, id: string, i: int) {
    0 <= i < |accounts| && accounts[i].id == id && forall j :: i < j < |accounts| ==> accounts[j].id != id
  }

  lemma LastAccountOfMore(accounts: seq<Account>, id: string, i: int)
    requires accounts != [] && LastAccount(accounts[..|accounts| - 1], id, i) && accounts[|accounts| - 1].id != id
    ensures LastAccount(accounts, id, i) && accounts[i] == accounts[..|accounts| - 1][i]
  {
    var n := |accounts| - 1;
    assert forall j :: 0 <= j < n ==> accounts[..n][j] == accounts[j];
  }

  /** Looking an account up by id finds the last one with it. */
  lemma {:induction false} AccountByIdIsLast(accounts: seq<Account>, id: string)
    ensures if id in AccountsById(accounts) then exists i :: LastAccount(accounts, id, i) && accounts[i] == AccountsById(accounts)[id]
            else forall x :: x in accounts ==> x.id != id
    decreases |accounts|
  {
    if accounts != [] {
      var n := |accounts| - 1;
      var front := accounts[..n];
      AccountByIdIsLast(front, id);
      assert accounts == front + [accounts[n]];
      if accounts[n].id == id {
        assert LastAccount(accounts, id, n);
      } else if id in AccountsById(front) {
        var i :| LastAccount(front, id, i) && front[i] == AccountsById(front)[id];
        LastAccountOfMore(accounts, id, i);
        hide LastAccount;
      }
    }
  }

  ghost predicate LastBot(bots: seq<Bot>, id: string, i: int) {
    0 <= i < |bots| && bots[i].id == id && forall j :: i < j < |bots| ==> bots[j].id != id
  }

  lemma LastBotOfMore(bots: seq<Bot>, id: string, i: int)
    requires bots != [] && LastBot(bots[..|bots| - 1], id, i) && bots[|bots| - 1].id != id
    ensures LastBot(bots, id, i) && bots[i] == bots[..|bots| - 1][i]
  {
    var n := |bots| - 1;
    assert forall j :: 0 <= j < n ==> bots[..n][j] == bots[j];
  }

  /** Looking a bot up by id finds the last one with it. */
  lemma {:induction false} BotByIdIsLast(bots: seq<Bot>, id: string)
    ensures if id in BotsById(bots) then exists i :: LastBot(bots, id, i) && bots[i] == BotsById(bots)[id]
            else forall x :: x in bots ==> x.id != id
    decreases |bots|
  {
    if bots != [] {
      var n := |bots| - 1;
      var front := bots[..n];
      BotByIdIsLast(front, id);
      assert bots == front + [bots[n]];
      if bots[n].id == id {
        assert LastBot(bots, id, n);
      } else if id in BotsById(front) {
        var i :| LastBot(front, id, i) && front[i] == BotsById(front)[id];
        LastBotOfMore(bots, id, i);
        hide LastBot;
      }
    }
  }

  // ----- What each finding means -----

  predicate SettingsDiffer(old_: Account, new_: Account) {
    || old_.kind != new_.kind
    || old_.mode != new_.mode
    || old_.useDemoMode != new_.useDemoMode
    || old_.remoteSnapshot != new_.remoteSnapshot
    || old_.SubmissionEnabled() != new_.SubmissionEnabled()
    || old_.baseUrl != new_.baseUrl
  }

  predicate CredentialsDiffer(old_: Account, new_: Account) {
    || old_.apiKeyEnv != new_.apiKeyEnv
    || old_.apiSecretEnv != new_.apiSecretEnv
    || old_.passphraseEnv != new_.passphraseEnv
  }

  predicate BindingsDiffer(old_: Bot, new_: Bot) {
    || old_.account != new_.account
    || old_.dataConnector != new_.dataConnector
    || old_.executionConnector != new_.executionConnector
    || old_.market != new_.market
  }

  predicate BreaksAccounts(v: Violation, olds: map<string, Account>, news: map<string, Account>) {
    match v
    case AccountSetChanged => olds.Keys != news.Keys
    case AccountSettingsChanged(id) => id in olds && id in news && SettingsDiffer(olds[id], news[id])
    case CredentialsChanged(id) => id in olds && id in news && CredentialsDiffer(olds[id], news[id])
    case _ => false
  }

  predicate BreaksBots(v: Violation, olds: map<string, Bot>, news: map<string, Bot>, running: set<string>) {
    match v
    case RunningInstanceMissing(id) => id in running && id !in olds
    case RunningInstanceRemoved(id) => id in running && id in olds && id !in news
    case TimeframeChanged(id) =>
      id in running && id in olds && id in news && olds[id].timeframe != news[id].timeframe
    case SymbolsChanged(id) =>
      id in running && id in olds && id in news && olds[id].symbols != news[id].symbols
    case BindingsChanged(id) =>
      id in running && id in olds && id in news && BindingsDiffer(olds[id], news[id])
    case _ => false
  }

  /** Whether going from `current` to `next` with these running bots gives rise to finding `v`. */
  predicate Breaks(v: Violation, current: Bundle, next: Bundle, running: set<string>) {
    match v
    case StorageChanged =>
      current.global.storageKind != next.global.storageKind || current.global.storagePath != next.global.storagePath
    case BotDirChanged => current.global.botDir != next.global.botDir
    case _ =>
      || BreaksAccounts(v, AccountsById(current.accounts), AccountsById(next.accounts))
      || BreaksBots(v, BotsById(current.bots), BotsById(next.bots), running)
  }

  // ----- The validator -----

  /** The ids of a set in ascending order. */
  method SortedIds(ids: set<string>) returns (sorted: seq<string>)
    ensures Sorted(sorted, StringLe)
    ensures forall id :: id in sorted <==> id in ids
    ensures |sorted| == |ids|
  {
    StringOrderIsTotal();
    sorted := [];
    var rest := ids;
    while rest != {}
      invariant rest <= ids
      invariant Sorted(sorted, StringLe)
      invariant forall id :: id in multiset(sorted) <==> id in ids - rest
      invariant |sorted| + |rest| == |ids|
      decreases |rest|
    {
      var id :| id in rest;
      InsertKeepsSorted(sorted, id, StringLe);
      InsertAdds(sorted, id, StringLe);
      assert |multiset(Insert(sorted, id, StringLe))| == |Insert(sorted, id, StringLe)|;
      sorted, rest := Insert(sorted, id, StringLe), rest - {id};
    }
    assert forall id :: id in sorted <==> id in multiset(sorted);
  }

  /** The findings of one shared account. */
  function AccountViolations(id: string, old_: Account, new_: Account): seq<Violation> {
    (if SettingsDiffer(old_, new_) then [AccountSettingsChanged(id)] else []) +
    (if CredentialsDiffer(old_, new_) then [CredentialsChanged(id)] else [])
  }

  lemma AccountViolationsAreBreaks(id: string, olds: map<string, Account>, news: map<string, Account>)
    requires id in olds && id in news
    ensures forall v :: v in AccountViolations(id, olds[id], news[id]) <==>
        BreaksAccounts(v, olds, news) && !v.AccountSetChanged? && v.id == id
  {
    hide SettingsDiffer, CredentialsDiffer;
  }

  method CollectAccountViolations(current: Bundle, next: Bundle) returns (found: seq<Violation>)
    ensures forall v :: v in found <==> BreaksAccounts(v, AccountsById(current.accounts), AccountsById(next.accounts))
  {
    hide AccountsById, AccountViolations, Sorted;
    var olds, news := AccountsById(current.accounts), AccountsById(next.accounts);
    found := if olds.Keys != news.Keys then [AccountSetChanged] else [];
    var shared := SortedIds(olds.Keys * news.Keys);
    for i := 0 to |shared|
      invariant forall v :: v in found <==>
          BreaksAccounts(v, olds, news) && (v.AccountSetChanged? || v.id in shared[..i])
    {
      assert shared[..i + 1] == shared[..i] + [shared[i]];
      assert shared[i] in shared && shared[i] in olds.Keys * news.Keys;
      AccountViolationsAreBreaks(shared[i], olds, news);
      found := found + AccountViolations(shared[i], olds[shared[i]], news[shared[i]]);
    }
    assert shared[..|shared|] == shared;
  }

  /** The findings of one running bot. */
  function BotViolations(id: string, olds: map<string, Bot>, news: map<string, Bot>): seq<Violation> {
    if id !in olds then [RunningInstanceMissing(id)]
    else if id !in news then [RunningInstanceRemoved(id)]
    else
      (if olds[id].timeframe != news[id].timeframe then [TimeframeChanged(id)] else []) +
      (if olds[id].symbols != news[id].symbols then [SymbolsChanged(id)] else []) +
      (if BindingsDiffer(olds[id], news[id]) then [BindingsChanged(id)] else [])
  }

  lemma BotViolationsAreBreaks(id: string, olds: map<string, Bot>, news: map<string, Bot>, running: set<string>)
    requires id in running
    ensures forall v :: v in BotViolations(id, olds, news) <==> BreaksBots(v, olds, news, running) && v.id == id
  {
    hide BindingsDiffer;
    var found := BotViolations(id, olds, news);
    if id in olds && id in news {
      SharedBotViolations(id, olds, news, running);
    } else if id in olds {
      assert found == [RunningInstanceRemoved(id)];
    } else {
      assert found == [RunningInstanceMissing(id)];
    }
  }

  lemma SharedBotViolations(id: string, olds: map<string, Bot>, news: map<string, Bot>, running: set<string>)
    requires id in running && id in olds && id in news
    ensures forall v :: v in BotViolations(id, olds, news) <==> BreaksBots(v, olds, news, running) && v.id == id
  {
    var frame, symbols, bindings := olds[id].timeframe != news[id].timeframe, olds[id].symbols != news[id].symbols,
                                    BindingsDiffer(olds[id], news[id]);
    var a := if frame then [TimeframeChanged(id)] else [];
    var b := if symbols then [SymbolsChanged(id)] else [];
    var c := if bindings then [BindingsChanged(id)] else [];
    hide BindingsDiffer;
    assert BotViolations(id, olds, news) == a + b + c;
    forall v ensures v in a + b + c <==> BreaksBots(v, olds, news, running) && v.id == id {
      assert v in a + b + c <==> v in a || v in b || v in c;
    }
  }

  method CollectRunningInstanceViolations(current: Bundle, next: Bundle, running: set<string>)
    returns (found: seq<Violation>)
    ensures forall v :: v in found <==> BreaksBots(v, BotsById(current.bots), BotsById(next.bots), running)
  {
    hide BotsById, BotViolations, Sorted;
    var olds, news := BotsById(current.bots), BotsById(next.bots);
    found := [];
    var ids := SortedIds(running);
    for i := 0 to |ids|
      invariant forall v :: v in found <==> BreaksBots(v, olds, news, running) && v.id in ids[..i]
    {
      assert ids[..i + 1] == ids[..i] + [ids[i]];
      BotViolationsAreBreaks(ids[i], olds, news, running);
      found := found + BotViolations(ids[i], olds, news);
    }
    assert ids[..|ids|] == ids;
  }

  /** Every finding is reported and nothing else is. */
  method ValidateReloadChangeSet(current: Bundle, next: Bundle, running: set<string>) returns (violations: seq<Violation>)
    ensures forall v :: v in violations <==> Breaks(v, current, next, running)
    ensures violations == [] <==> Compatible(current, next, running)
  {
    violations := [];
    if current.global.storageKind != next.global.storageKind || current.global.storagePath != next.global.storagePath {
      violations := violations + [StorageChanged];
    }
    if current.global.botDir != next.global.botDir {
      violations := violations + [BotDirChanged];
    }
    var accounts := CollectAccountViolations(current, next);
    var bots := CollectRunningInstanceViolations(current, next, running);
    violations := violations + accounts + bots;
    CompatibleMeansNoFinding(current, next, running);
    if violations != [] {
      assert violations[0] in violations;
    }
  }

  // ----- The reference: what must stay fixed -----

  datatype AccountScope = AccountScope(
    kind: string,
    mode: ExecutionMode,
    useDemoMode: bool,
    remoteSnapshot: bool,
    submits: bool,
    baseUrl: Option<string>,
    apiKeyEnv: Option<string>,
    apiSecretEnv: Option<string>,
    passphraseEnv: Option<string>)

  /** Everything about a configuration that only a restart may change. */
  datatype RestartScope = RestartScope(
    storageKind: string,
    storagePath: string,
    botDir: string,
    accounts: map<string, AccountScope>)

  function ScopeOfAccount(a: Account): AccountScope {
    AccountScope(a.kind, a.mode, a.useDemoMode, a.remoteSnapshot, a.SubmissionEnabled(), a.baseUrl,
                 a.apiKeyEnv, a.apiSecretEnv, a.passphraseEnv)
  }

  function ScopesOfAccounts(accounts: map<string, Account>): map<string, AccountScope> {
    map id | id in accounts :: ScopeOfAccount(accounts[id])
  }

  function ScopeOf(b: Bundle): RestartScope {
    RestartScope(b.global.storageKind, b.global.storagePath, b.global.botDir, ScopesOfAccounts(AccountsById(b.accounts)))
  }

  /** What a running bot may not change. */
  datatype BotScope = BotScope(
    timeframe: Timeframe,
    symbols: seq<string>,
    account: string,
    dataConnector: string,
    executionConnector: string,
    market: MarketType)

  function ScopeOfBot(b: Bot): BotScope {
    BotScope(b.timeframe, b.symbols, b.account, b.dataConnector, b.executionConnector, b.market)
  }

  predicate RunningBotsKept(olds: map<string, Bot>, news: map<string, Bot>, running: set<string>) {
    forall id :: id in running ==> id in olds && id in news && ScopeOfBot(olds[id]) == ScopeOfBot(news[id])
  }

  predicate Compatible(current: Bundle, next: Bundle, running: set<string>) {
    && ScopeOf(current) == ScopeOf(next)
    && RunningBotsKept(BotsById(current.bots), BotsById(next.bots), running)
  }

  lemma AccountScopesDiffer(a: Account, b: Account)
    ensures ScopeOfAccount(a) == ScopeOfAccount(b) <==> !SettingsDiffer(a, b) && !CredentialsDiffer(a, b)
  {
  }

  lemma AccountScopesAgree(olds: map<string, Account>, news: map<string, Account>)
    ensures ScopesOfAccounts(olds) == ScopesOfAccounts(news) <==> forall v :: !BreaksAccounts(v, olds, news)
  {
    hide ScopeOfAccount, SettingsDiffer, CredentialsDiffer;
    var left, right := ScopesOfAccounts(olds), ScopesOfAccounts(news);
    assert olds.Keys == left.Keys && news.Keys == right.Keys;
    if left == right {
      forall v ensures !BreaksAccounts(v, olds, news) {
        if (v.AccountSettingsChanged? || v.CredentialsChanged?) && v.id in olds {
          assert left[v.id] == right[v.id];
          AccountScopesDiffer(olds[v.id], news[v.id]);
        }
      }
    }
    if forall v :: !BreaksAccounts(v, olds, news) {
      assert !BreaksAccounts(AccountSetChanged, olds, news);
      forall id | id in olds ensures left[id] == right[id] {
        assert !BreaksAccounts(AccountSettingsChanged(id), olds, news);
        assert !BreaksAccounts(CredentialsChanged(id), olds, news);
        AccountScopesDiffer(olds[id], news[id]);
      }
    }
  }

  lemma BotScopesDiffer(a: Bot, b: Bot)
    ensures ScopeOfBot(a) == ScopeOfBot(b) <==>
            a.timeframe == b.timeframe && a.symbols == b.symbols && !BindingsDiffer(a, b)
  {
  }

  lemma RunningBotsAgree(olds: map<string, Bot>, news: map<string, Bot>, running: set<string>)
    ensures RunningBotsKept(olds, news, running) <==> forall v :: !BreaksBots(v, olds, news, running)
  {
    hide ScopeOfBot, BindingsDiffer;
    if RunningBotsKept(olds, news, running) {
      forall v ensures !BreaksBots(v, olds, news, running) {
        if (v.TimeframeChanged? || v.SymbolsChanged? || v.BindingsChanged?) && v.id in running {
          BotScopesDiffer(olds[v.id], news[v.id]);
        }
      }
    }
    if forall v :: !BreaksBots(v, olds, news, running) {
      forall id | id in running
        ensures id in olds && id in news && ScopeOfBot(olds[id]) == ScopeOfBot(news[id])
      {
        assert !BreaksBots(RunningInstanceMissing(id), olds, news, running);
        assert !BreaksBots(RunningInstanceRemoved(id), olds, news, running);
        assert !BreaksBots(TimeframeChanged(id), olds, news, running);
        assert !BreaksBots(SymbolsChanged(id), olds, news, running);
        assert !BreaksBots(BindingsChanged(id), olds, news, running);
        BotScopesDiffer(olds[id], news[id]);
      }
    }
  }

  /** A change is accepted exactly when it keeps the restart scope and every running bot's fixed fields. */
  lemma CompatibleMeansNoFinding(current: Bundle, next: Bundle, running: set<string>)
    ensures Compatible(current, next, running) <==> forall v :: !Breaks(v, current, next, running)
  {
    var oldAccounts, newAccounts := AccountsById(current.accounts), AccountsById(next.accounts);
    var oldBots, newBots := BotsById(current.bots), BotsById(next.bots);
    AccountScopesAgree(oldAccounts, newAccounts);
    RunningBotsAgree(oldBots, newBots, running);
    hide AccountsById, BotsById, RunningBotsKept, ScopesOfAccounts;
    if forall v :: !Breaks(v, current, next, running) {
      assert !Breaks(StorageChanged, current, next, running);
      assert !Breaks(BotDirChanged, current, next, running);
      forall v ensures !BreaksAccounts(v, oldAccounts, newAccounts) && !BreaksBots(v, oldBots, newBots, running) {
        assert !Breaks(v, current, next, running);
      }
    }
  }

  /** The account settings that only a restart may change, one by one; submission counts as it resolves. */
  predicate SameConnection(a: Account, b: Account) {
    && a.kind == b.kind && a.mode == b.mode && a.useDemoMode == b.useDemoMode && a.remoteSnapshot == b.remoteSnapshot
    && (if a.remoteSubmission.Some? then a.remoteSubmission.value else a.remoteSnapshot) ==
       (if b.remoteSubmission.Some? then b.remoteSubmission.value else b.remoteSnapshot)
    && a.baseUrl == b.baseUrl
    && a.apiKeyEnv == b.apiKeyEnv && a.apiSecretEnv == b.apiSecretEnv && a.passphraseEnv == b.passphraseEnv
  }

  /** What a running bot may not change, one by one. */
  predicate SameBinding(a: Bot, b: Bot) {
    && a.timeframe == b.timeframe && a.symbols == b.symbols && a.account == b.account && a.market == b.market
    && a.dataConnector == b.dataConnector && a.executionConnector == b.executionConnector
  }

  /** A change is compatible exactly when every setting that needs a restart is as it was. */
  lemma CompatibleOnInputs(current: Bundle, next: Bundle, running: set<string>)
    ensures Compatible(current, next, running) <==>
            var olds, news := AccountsById(current.accounts), AccountsById(next.accounts);
            var was, now := BotsById(current.bots), BotsById(next.bots);
            && current.global.storageKind == next.global.storageKind
            && current.global.storagePath == next.global.storagePath
            && current.global.botDir == next.global.botDir
            && olds.Keys == news.Keys && (forall id :: id in olds ==> SameConnection(olds[id], news[id]))
            && (forall id :: id in running ==> id in was && id in now && SameBinding(was[id], now[id]))
  {
    var olds, news := AccountsById(current.accounts), AccountsById(next.accounts);
    var left, right := ScopesOfAccounts(olds), ScopesOfAccounts(news);
    assert left.Keys == olds.Keys && right.Keys == news.Keys;
    forall a: Account, b: Account ensures ScopeOfAccount(a) == ScopeOfAccount(b) <==> SameConnection(a, b) { }
    forall a: Bot, b: Bot ensures ScopeOfBot(a) == ScopeOfBot(b) <==> SameBinding(a, b) { }
    hide ScopeOfAccount, SameConnection, ScopeOfBot, SameBinding, AccountsById, BotsById;
    if left == right {
      forall id | id in olds ensures SameConnection(olds[id], news[id]) {
        assert left[id] == right[id];
      }
    }
  }

  // ----- Account updates -----

  /** The fields an account update may carry: all but the id and the credential references. */
  datatype AccountUpdate = AccountUpdate(
    kind: string,
    mode: ExecutionMode,
    useDemoMode: bool,
    remoteSnapshot: bool,
    remoteSubmission: Option<bool>,
    baseUrl: Option<string>,
    budget: real,
    cashAssets: seq<string>)

  function IntoAccount(u: AccountUpdate, existing: Account): Account {
    var submission :=
      if u.remoteSubmission.Some? && u.remoteSubmission.value != existing.SubmissionEnabled()
      then u.remoteSubmission else existing.remoteSubmission;
    Account(existing.id, u.kind, u.mode, u.useDemoMode, u.remoteSnapshot, submission, u.baseUrl,
            existing.apiKeyEnv, existing.apiSecretEnv, existing.passphraseEnv, u.budget, u.cashAssets)
  }

  /** What the dashboard sends back unchanged: the submission setting in its resolved form. */
  function Echo(a: Account): AccountUpdate {
    AccountUpdate(a.kind, a.mode, a.useDemoMode, a.remoteSnapshot, Some(a.SubmissionEnabled()), a.baseUrl,
                  a.budget, a.cashAssets)
  }

  /** Saving what was read back changes nothing: an inherited setting stays inherited. */
  lemma EchoIsIdentity(a: Account)
    ensures IntoAccount(Echo(a), a) == a
  {
  }

  /**
   * An explicit submission setting is honoured unless the update also flips an
   * inherited snapshot setting away from the requested value.
   */
  lemma SubmissionIsHonoured(u: AccountUpdate, existing: Account)
    requires u.remoteSubmission.Some?
    ensures IntoAccount(u, existing).SubmissionEnabled() == u.remoteSubmission.value <==>
            !(existing.remoteSubmission.None? && existing.remoteSnapshot == u.remoteSubmission.value
              && u.remoteSnapshot != u.remoteSubmission.value)
  {
  }

  /** The exception on an input: no submission asked for, snapshot switched on, submission inherited as on. */
  lemma FlippedSnapshotOverridesRequest(existing: Account)
    requires existing.remoteSubmission.None? && !existing.remoteSnapshot
    ensures var u := Echo(existing).(remoteSnapshot := true);
            u.remoteSubmission == Some(false) && IntoAccount(u, existing).SubmissionEnabled()
  {
  }

  /** The exception never survives validation: a compatible update gets the setting it asked for. */
  lemma AcceptedUpdateIsHonoured(u: AccountUpdate, existing: Account)
    requires u.remoteSubmission.Some?
    requires !SettingsDiffer(existing, IntoAccount(u, existing))
    ensures IntoAccount(u, existing).SubmissionEnabled() == u.remoteSubmission.value
    ensures IntoAccount(u, existing) == existing.(budget := u.budget, cashAssets := u.cashAssets)
  {
  }
}
