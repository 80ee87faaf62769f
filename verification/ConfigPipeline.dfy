/**
 * The configuration write and reload pipeline: one server state of bundle,
 * generation, bounded status history and config directory, changed by writes,
 * reloads and edits of the directory from outside.
 */
module ConfigPipeline {
  import opened Options
  import opened Feeds
  import opened ChangeSets
  import opened ConfigSources

  const HISTORY_LIMIT: nat := 20
  const MAX_BOT_ID_LEN: nat := 64

  datatype Trigger = ManualApi | ConfigWrite | FileWatcher
  datatype Outcome = Reloaded | NoChange | Rejected | Failed
  datatype Status = Status(trigger: Trigger, outcome: Outcome, generation: nat)

  datatype Server = Server(
    managed: bool,
    bundle: Option<Bundle>,
    generation: nat,
    history: seq<Status>,
    disk: Disk)

  datatype IfMatch = Absent | Malformed | Number(generation: nat)

  datatype Request =
    | PutGlobal(global: Global)
    | PutBot(id: string, bot: Bot)
    | CreateBot(bot: Bot)
    | DeleteBot(id: string)
    | PutRisk(id: string, risk: RiskProfile)
    | PutAccount(id: string, update: AccountUpdate)

  datatype Reason =
    | NotManaged | BadHeader | StaleGeneration | IdMismatch | UnsafeName | LoadFailed | NotFound
    | Duplicate | RenderFailed | Invalid | Incompatible | BuildFailed | PersistFailed

  datatype Response = Applied(generation: nat) | Unchanged | Refused(reason: Reason)

  /** What an operation meets outside: running bots, validation and build verdicts, and I/O luck. */
  datatype Env = Env(
    running: set<string>,
    valid: Bundle -> bool,
    builds: Bundle -> bool,
    persists: bool,
    dotenv: bool)

  // ----- Bookkeeping -----

  function Push(history: seq<Status>, entry: Status): seq<Status> {
    Suffix(history + [entry], HISTORY_LIMIT)
  }

  function Record(s: Server, trigger: Trigger, outcome: Outcome): Server {
    s.(history := Push(s.history, Status(trigger, outcome, s.generation)))
  }

  function Apply(s: Server, bundle: Bundle, trigger: Trigger): Server {
    var generation := s.generation + 1;
    s.(bundle := Some(bundle),
       generation := generation,
       history := Push(s.history, Status(trigger, Reloaded, generation)))
  }

  // ----- Staging one edit -----

  function Find<T>(sources: seq<Source<T>>, wanted: T -> bool): (r: Option<nat>)
    ensures r.Some? ==> r.value < |sources| && wanted(sources[r.value].value)
    ensures r.Some? ==> forall j :: 0 <= j < r.value ==> !wanted(sources[j].value)
    ensures r.None? ==> forall j :: 0 <= j < |sources| ==> !wanted(sources[j].value)
  {
    FindFrom(sources, wanted, 0)
  }

  function FindFrom<T>(sources: seq<Source<T>>, wanted: T -> bool, k: nat): (r: Option<nat>)
    requires k <= |sources|
    ensures r.Some? ==> k <= r.value < |sources| && wanted(sources[r.value].value)
    ensures r.Some? ==> forall j :: k <= j < r.value ==> !wanted(sources[j].value)
    ensures r.None? ==> forall j :: k <= j < |sources| ==> !wanted(sources[j].value)
    decreases |sources| - k
  {
    if k == |sources| then None
    else if wanted(sources[k].value) then Some(k)
    else FindFrom(sources, wanted, k + 1)
  }

  function WithValue<T>(sources: seq<Source<T>>, i: nat, v: T): seq<Source<T>>
    requires i < |sources|
  {
    sources[i := sources[i].(value := v)]
  }

  predicate SafeName(id: string) {
    && 0 < |id| <= MAX_BOT_ID_LEN
    && forall i :: 0 <= i < |id| ==>
         'a' <= id[i] <= 'z' || 'A' <= id[i] <= 'Z' || '0' <= id[i] <= '9' || id[i] == '-' || id[i] == '_'
  }

  function FileName(id: string): string { id + ".toml" }

  /** Checks made on the request alone, before the lock is taken. */
  function Precheck(r: Request): Option<Reason> {
    match r
    case PutBot(id, bot) => if bot.id != id then Some(IdMismatch) else None
    case PutRisk(id, risk) => if risk.id != id then Some(IdMismatch) else None
    case CreateBot(bot) => if !SafeName(bot.id) then Some(UnsafeName) else None
    case _ => None
  }

  datatype Stage = Staged(candidate: Bundle, disk: Disk) | Halted(reason: Reason)

  function StageBots(d: Disk, src: Sources, bots: seq<Source<Bot>>, files: seq<File>): Stage {
    Staged(ToBundle(src.(bots := bots)), d.(bots := d.bots[src.global.botDir := files]))
  }

  /** The candidate bundle, and the directory as it would be once the one affected file is written. */
  function StageEdit(c: Codecs, d: Disk, src: Sources, r: Request): Stage
    requires src.global.botDir in d.bots
  {
    match r
    case PutGlobal(global) =>
      var text := c.global.update(src.globalRaw, global);
      if text.None? then Halted(RenderFailed)
      else Staged(ToBundle(src.(global := global)), d.(global := text))
    case PutBot(id, bot) =>
      var i := Find(src.bots, (b: Bot) => b.id == id);
      if i.None? then Halted(NotFound) else
      var text := c.bot.update(src.bots[i.value].raw, bot);
      if text.None? then Halted(RenderFailed)
      else StageBots(d, src, WithValue(src.bots, i.value, bot),
                     Put(d.bots[src.global.botDir], File(src.bots[i.value].name, text.value)))
    case CreateBot(bot) =>
      if Find(src.bots, (b: Bot) => b.id == bot.id).Some? || Exists(d.bots[src.global.botDir], FileName(bot.id))
      then Halted(Duplicate) else
      var text := c.bot.render(bot);
      if text.None? then Halted(RenderFailed)
      else StageBots(d, src, src.bots + [Source(FileName(bot.id), text.value, bot)],
                     Put(d.bots[src.global.botDir], File(FileName(bot.id), text.value)))
    case DeleteBot(id) =>
      var i := Find(src.bots, (b: Bot) => b.id == id);
      if i.None? then Halted(NotFound)
      else StageBots(d, src, src.bots[..i.value] + src.bots[i.value + 1..],
                     Remove(d.bots[src.global.botDir], src.bots[i.value].name))
    case PutRisk(id, risk) =>
      var i := Find(src.risks, (p: RiskProfile) => p.id == id);
      if i.None? then Halted(NotFound) else
      var text := c.risk.update(src.risks[i.value].raw, risk);
      if text.None? then Halted(RenderFailed)
      else Staged(ToBundle(src.(risks := WithValue(src.risks, i.value, risk))),
                  d.(risks := Put(d.risks, File(src.risks[i.value].name, text.value))))
    case PutAccount(id, update) =>
      var i := Find(src.accounts, (a: Account) => a.id == id);
      if i.None? then Halted(NotFound) else
      var next := IntoAccount(update, src.accounts[i.value].value);
      var text := c.account.update(src.accounts[i.value].raw, next);
      if text.None? then Halted(RenderFailed)
      else Staged(ToBundle(src.(accounts := WithValue(src.accounts, i.value, next))),
                  d.(accounts := Put(d.accounts, File(src.accounts[i.value].name, text.value))))
  }

  // ----- The operations as functions of the server state -----

  function GuardIfMatch(generation: nat, header: IfMatch): Option<Reason> {
    match header
    case Absent => None
    case Malformed => Some(BadHeader)
    case Number(expected) => if expected != generation then Some(StaleGeneration) else None
  }

  /** The shared prologue: managed directory, stale guard, readable sources. */
  function BeginRefusal(c: Codecs, s: Server, header: IfMatch): Option<Reason> {
    if !s.managed then Some(NotManaged)
    else if GuardIfMatch(s.generation, header).Some? then GuardIfMatch(s.generation, header)
    else if LoadSources(c, s.disk).None? then Some(LoadFailed)
    else None
  }

  /** Everything before the file is written: the staged edit, or why the write is refused. */
  function Prepare(c: Codecs, s: Server, r: Request, header: IfMatch, env: Env): Stage {
    if Precheck(r).Some? then Halted(Precheck(r).value) else
    if BeginRefusal(c, s, header).Some? then Halted(BeginRefusal(c, s, header).value) else
    var staged := StageEdit(c, s.disk, LoadSources(c, s.disk).value, r);
    if staged.Halted? then staged else Vet(s, staged, env)
  }

  function Vet(s: Server, staged: Stage, env: Env): Stage
    requires staged.Staged?
  {
    if !env.valid(staged.candidate) then Halted(Invalid)
    else if s.bundle.Some? && !Compatible(s.bundle.value, staged.candidate, env.running) then Halted(Incompatible)
    else if !env.builds(staged.candidate) then Halted(BuildFailed)
    else staged
  }

  function Write(c: Codecs, s: Server, r: Request, header: IfMatch, env: Env): (Server, Response) {
    var staged := Prepare(c, s, r, header, env);
    if staged.Halted? then (s, Refused(staged.reason))
    else if !env.persists then (s, Refused(PersistFailed))
    else (Apply(s.(disk := staged.disk), staged.candidate, ConfigWrite), Applied(s.generation + 1))
  }

  function LoadBundle(c: Codecs, d: Disk, env: Env): Option<Bundle> {
    var read := ReadBundle(c, d);
    if env.dotenv && read.Some? && env.valid(read.value) then read else None
  }

  function Reload(c: Codecs, s: Server, trigger: Trigger, env: Env): (Server, Response) {
    if !s.managed then (s, Refused(NotManaged)) else
    var loaded := LoadBundle(c, s.disk, env);
    if loaded.None? then (Record(s, trigger, Failed), Refused(LoadFailed))
    else if s.bundle == loaded then (Record(s, trigger, NoChange), Unchanged)
    else if s.bundle.Some? && !Compatible(s.bundle.value, loaded.value, env.running)
    then (Record(s, trigger, Rejected), Refused(Incompatible))
    else if !env.builds(loaded.value) then (Record(s, trigger, Failed), Refused(BuildFailed))
    else (Apply(s, loaded.value, trigger), Applied(s.generation + 1))
  }

  // ----- The shared state, changed in place -----

  /** The server's state; the exclusive config lock makes each method one step. */
  class HttpState {
    const managed: bool
    const codecs: Codecs
    var bundle: Option<Bundle>
    var generation: nat
    var history: seq<Status>
    var disk: Disk

    ghost function View(): Server
      reads this
    {
      Server(managed, bundle, generation, history, disk)
    }

    constructor (managed: bool, codecs: Codecs, bundle: Option<Bundle>, disk: Disk)
      ensures View() == Server(managed, bundle, 0, [], disk) && this.codecs == codecs
    {
      this.managed, this.codecs, this.bundle, this.disk := managed, codecs, bundle, disk;
      this.generation, this.history := 0, [];
    }

    method PushStatus(entry: Status)
      modifies this`history
      ensures history == Push(old(history), entry)
    {
      ghost var before := history;
      while |history| >= HISTORY_LIMIT
        invariant |history| <= |before| && history == before[|before| - |history|..]
        invariant |history| < HISTORY_LIMIT - 1 ==> history == before
        decreases |history|
      {
        history := history[1..];
      }
      history := history + [entry];
      assert history == (before + [entry])[|before| + 1 - |history|..];
    }

    method RecordStatus(trigger: Trigger, outcome: Outcome)
      modifies this
      ensures View() == Record(old(View()), trigger, outcome)
    {
      PushStatus(Status(trigger, outcome, generation));
    }

    method RecordApplied(trigger: Trigger) returns (next: nat)
      modifies this`generation, this`history
      ensures generation == next == old(generation) + 1
      ensures history == Push(old(history), Status(trigger, Reloaded, next))
    {
      generation := generation + 1;
      next := generation;
      PushStatus(Status(trigger, Reloaded, next));
    }

    /** A prebuilt runtime cannot fail; otherwise the build verdict decides. */
    method ApplyBundleAndRecord(next: Bundle, prebuilt: bool, trigger: Trigger, env: Env) returns (r: Response)
      modifies this
      ensures prebuilt || env.builds(next) ==>
                View() == Apply(old(View()), next, trigger) && r == Applied(old(generation) + 1)
      ensures !prebuilt && !env.builds(next) ==>
                View() == Record(old(View()), trigger, Failed) && r == Refused(BuildFailed)
    {
      if !prebuilt && !env.builds(next) {
        RecordStatus(trigger, Failed);
        return Refused(BuildFailed);
      }
      bundle := Some(next);
      var g := RecordApplied(trigger);
      r := Applied(g);
    }

    method CheckIfMatch(header: IfMatch) returns (rejection: Option<Reason>)
      ensures rejection == GuardIfMatch(generation, header)
    {
      rejection := match header
        case Absent => None
        case Malformed => Some(BadHeader)
        case Number(expected) => if expected != generation then Some(StaleGeneration) else None;
    }

    method BeginConfigWrite(header: IfMatch) returns (sources: Option<Sources>, refusal: Option<Reason>)
      ensures refusal == BeginRefusal(codecs, View(), header)
      ensures refusal.None? ==> sources.Some? && sources == LoadSources(codecs, disk)
    {
      sources := None;
      if !managed {
        return None, Some(NotManaged);
      }
      refusal := CheckIfMatch(header);
      if refusal.None? {
        sources := LoadSources(codecs, disk);
        refusal := if sources.None? then Some(LoadFailed) else None;
      }
    }

    /** Nothing changes unless every check passes and the file is written; then nothing can fail. */
    method FinishConfigWrite(staged: Stage, env: Env) returns (r: Response, violations: seq<Violation>)
      requires staged.Staged?
      modifies this
      ensures Vet(old(View()), staged, env).Halted? ==>
                View() == old(View()) && r == Refused(Vet(old(View()), staged, env).reason)
      ensures Vet(old(View()), staged, env).Staged? && !env.persists ==>
                View() == old(View()) && r == Refused(PersistFailed)
      ensures Vet(old(View()), staged, env).Staged? && env.persists ==>
                && View() == Apply(old(View()).(disk := staged.disk), staged.candidate, ConfigWrite)
                && r == Applied(old(generation) + 1)
      ensures r == Refused(Incompatible) ==> old(bundle).Some? && violations != []
      ensures r == Refused(Incompatible) ==>
                forall v :: v in violations <==> Breaks(v, old(bundle).value, staged.candidate, env.running)
    {
      violations := [];
      if !env.valid(staged.candidate) {
        return Refused(Invalid), violations;
      }
      if bundle.Some? {
        violations := ValidateReloadChangeSet(bundle.value, staged.candidate, env.running);
        if violations != [] {
          return Refused(Incompatible), violations;
        }
      }
      if !env.builds(staged.candidate) {
        return Refused(BuildFailed), violations;
      }
      if !env.persists {
        return Refused(PersistFailed), violations;
      }
      disk := staged.disk;
      r := ApplyBundleAndRecord(staged.candidate, true, ConfigWrite, env);
    }

    /** One config-mutating request, from its own checks to the applied bundle. */
    method HandleWrite(request: Request, header: IfMatch, env: Env) returns (r: Response)
      modifies this
      ensures (View(), r) == Write(codecs, old(View()), request, header, env)
    {
      hide StageEdit, LoadSources, Compatible, Apply, GuardIfMatch;
      var refused := Precheck(request);
      if refused.Some? {
        return Refused(refused.value);
      }
      var sources;
      sources, refused := BeginConfigWrite(header);
      if refused.Some? {
        return Refused(refused.value);
      }
      var staged := StageEdit(codecs, disk, sources.value, request);
      if staged.Halted? {
        return Refused(staged.reason);
      }
      var violations;
      r, violations := FinishConfigWrite(staged, env);
    }

    method ReloadFromDisk(trigger: Trigger, env: Env) returns (r: Response)
      modifies this
      ensures (View(), r) == Reload(codecs, old(View()), trigger, env)
    {
      hide LoadBundle, Compatible, Apply, Record;
      if !managed {
        return Refused(NotManaged);
      }
      var loaded := LoadBundle(codecs, disk, env);
      if loaded.None? {
        RecordStatus(trigger, Failed);
        return Refused(LoadFailed);
      }
      if bundle == loaded {
        RecordStatus(trigger, NoChange);
        return Unchanged;
      }
      if bundle.Some? {
        var violations := ValidateReloadChangeSet(bundle.value, loaded.value, env.running);
        if violations != [] {
          RecordStatus(trigger, Rejected);
          return Refused(Incompatible);
        }
      }
      r := ApplyBundleAndRecord(loaded.value, false, trigger, env);
    }
  }
}
