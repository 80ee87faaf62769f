/**
 * What the configuration pipeline guarantees: atomic writes that read back,
 * no lost updates, and invariants over every run of writes, reloads and
 * outside edits.
 */
module ConfigRuns {
  import opened Options
  import opened Orders
  import opened Feeds
  import opened ChangeSets
  import opened ConfigSources
  import opened ConfigPipeline

  // ----- Atomicity -----

  /** A refused write leaves directory, bundle, generation and history alone. */
  lemma RefusedWriteChangesNothing(c: Codecs, s: Server, r: Request, header: IfMatch, env: Env)
    ensures Write(c, s, r, header, env).1.Refused? ==> Write(c, s, r, header, env).0 == s
    ensures !Write(c, s, r, header, env).1.Unchanged?
  {
  }

  /** Once every check has passed, the write succeeds exactly when its file is written. */
  lemma CommittedWriteApplies(c: Codecs, s: Server, r: Request, header: IfMatch, env: Env)
    ensures var (next, response) := Write(c, s, r, header, env);
            next.disk != s.disk ==> response == Applied(s.generation + 1) && next.generation == s.generation + 1
    ensures var (next, response) := Write(c, s, r, header, env);
            response.Applied? <==> Prepare(c, s, r, header, env).Staged? && env.persists
    ensures var (next, response) := Write(c, s, r, header, env);
            response.Applied? ==> next.bundle.Some? && env.valid(next.bundle.value) && env.builds(next.bundle.value)
  {
  }

  // ----- The directory reads back as the bundle -----

  /**
   * Whether the directory will read back as the staged bundle. Two requests can
   * miss: a created bot is listed last in memory but by file name on disk, and a
   * global update can point back from a bot directory edited on disk, while the
   * candidate keeps the bots read from the edited one.
   */
  ghost predicate WillReadBack(c: Codecs, d: Disk, r: Request)
    requires LoadSources(c, d).Some?
  {
    var src := LoadSources(c, d).value;
    match r
    case CreateBot(bot) =>
      forall i :: 0 <= i < |d.bots[src.global.botDir]| ==>
        !StringLe(FileName(bot.id), d.bots[src.global.botDir][i].name)
    case PutGlobal(global) =>
      && global.botDir in d.bots
      && ReadDir(d.bots[global.botDir], c.bot.parse).Some?
      && Values(ReadDir(d.bots[global.botDir], c.bot.parse).value) == Values(src.bots)
    case _ => true
  }

  lemma ValuesOfUpdate<T>(sources: seq<Source<T>>, i: nat, x: Source<T>)
    requires i < |sources|
    ensures Values(sources[i := x]) == Values(WithValue(sources, i, x.value))
  {
  }

  lemma BotsReadBack(c: Codecs, d: Disk, src: Sources, files: seq<File>, bots: seq<Source<Bot>>)
    requires LoadSources(c, d) == Some(src) && ReadDir(files, c.bot.parse) == Some(bots)
    ensures ReadBundle(c, d.(bots := d.bots[src.global.botDir := files])) == Some(ToBundle(src.(bots := bots)))
  {
    hide ReadDir, Values;
  }

  lemma StagedPutBotReadsBack(c: Codecs, d: Disk, src: Sources, r: Request)
    requires AllLawful(c) && ValidDisk(d) && LoadSources(c, d) == Some(src)
    requires r.PutBot? && StageEdit(c, d, src, r).Staged?
    ensures var staged := StageEdit(c, d, src, r); ReadBundle(c, staged.disk) == Some(staged.candidate)
  {
    var files := d.bots[src.global.botDir];
    var i := Find(src.bots, (b: Bot) => b.id == r.id).value;
    var text := c.bot.update(src.bots[i].raw, r.bot).value;
    ReadDirAt(files, c.bot.parse, i);
    ReadReplaced(files, c.bot.parse, i, text, r.bot);
    var x := Source(files[i].name, text, r.bot);
    ValuesOfUpdate(src.bots, i, x);
    BotsReadBack(c, d, src, Put(files, File(files[i].name, text)), src.bots[i := x]);
    hide ReadBundle, ReadDir, Put, Values, LoadSources;
  }

  lemma StagedDeleteReadsBack(c: Codecs, d: Disk, src: Sources, r: Request)
    requires ValidDisk(d) && LoadSources(c, d) == Some(src)
    requires r.DeleteBot? && StageEdit(c, d, src, r).Staged?
    ensures var staged := StageEdit(c, d, src, r); ReadBundle(c, staged.disk) == Some(staged.candidate)
  {
    var files := d.bots[src.global.botDir];
    var i := Find(src.bots, (b: Bot) => b.id == r.id).value;
    ReadDirAt(files, c.bot.parse, i);
    ReadRemoved(files, c.bot.parse, i);
    BotsReadBack(c, d, src, Remove(files, files[i].name), src.bots[..i] + src.bots[i + 1..]);
    hide ReadBundle, ReadDir, Remove, Values, LoadSources;
  }

  lemma StagedPutRiskReadsBack(c: Codecs, d: Disk, src: Sources, r: Request)
    requires AllLawful(c) && ValidDisk(d) && LoadSources(c, d) == Some(src)
    requires r.PutRisk? && StageEdit(c, d, src, r).Staged?
    ensures var staged := StageEdit(c, d, src, r); ReadBundle(c, staged.disk) == Some(staged.candidate)
  {
    var i := Find(src.risks, (p: RiskProfile) => p.id == r.id).value;
    var text := c.risk.update(src.risks[i].raw, r.risk).value;
    ReadDirAt(d.risks, c.risk.parse, i);
    ReadReplaced(d.risks, c.risk.parse, i, text, r.risk);
    ValuesOfUpdate(src.risks, i, Source(d.risks[i].name, text, r.risk));
    hide ReadDir, Put, Values;
  }

  lemma StagedPutAccountReadsBack(c: Codecs, d: Disk, src: Sources, r: Request)
    requires AllLawful(c) && ValidDisk(d) && LoadSources(c, d) == Some(src)
    requires r.PutAccount? && StageEdit(c, d, src, r).Staged?
    ensures var staged := StageEdit(c, d, src, r); ReadBundle(c, staged.disk) == Some(staged.candidate)
  {
    var i := Find(src.accounts, (a: Account) => a.id == r.id).value;
    var next := IntoAccount(r.update, src.accounts[i].value);
    var text := c.account.update(src.accounts[i].raw, next).value;
    ReadDirAt(d.accounts, c.account.parse, i);
    ReadReplaced(d.accounts, c.account.parse, i, text, next);
    ValuesOfUpdate(src.accounts, i, Source(d.accounts[i].name, text, next));
    hide ReadDir, Put, Values;
  }

  lemma StagedPutGlobalReadsBack(c: Codecs, d: Disk, src: Sources, r: Request)
    requires AllLawful(c) && LoadSources(c, d) == Some(src)
    requires r.PutGlobal? && StageEdit(c, d, src, r).Staged?
    ensures var staged := StageEdit(c, d, src, r);
            ReadBundle(c, staged.disk) == Some(staged.candidate) <==> WillReadBack(c, d, r)
  {
    hide ReadDir, Values;
  }

  /** Values with one inserted at `k`. */
  function Inserted<T>(values: seq<T>, k: nat, v: T): seq<T>
    requires k <= |values|
  {
    values[..k] + [v] + values[k..]
  }

  lemma InsertedIsAppendedOnlyLast(bots: seq<Bot>, k: nat, v: Bot)
    requires k <= |bots| && v !in bots
    ensures Inserted(bots, k, v) == bots + [v] <==> k == |bots|
    ensures multiset(Inserted(bots, k, v)) == multiset(bots + [v])
  {
    assert bots == bots[..k] + bots[k..];
    if k < |bots| {
      assert Inserted(bots, k, v)[k] == v && (bots + [v])[k] == bots[k];
    } else {
      assert bots[..k] == bots && bots[k..] == [];
    }
  }

  lemma ValuesOfInsert(sources: seq<Source<Bot>>, k: nat, x: Source<Bot>)
    requires k <= |sources|
    ensures Values(sources[..k] + [x] + sources[k..]) == Inserted(Values(sources), k, x.value)
    ensures Values(sources + [x]) == Values(sources) + [x.value]
  {
  }

  lemma CreatedListing(c: Codecs, d: Disk, src: Sources, bot: Bot, f: File)
    requires LoadSources(c, d) == Some(src) && c.bot.parse(f.text) == Some(bot)
    requires !Exists(d.bots[src.global.botDir], f.name)
    ensures var files := d.bots[src.global.botDir];
            ReadBundle(c, d.(bots := d.bots[src.global.botDir := Put(files, f)])) ==
            Some(ToBundle(src).(bots := Inserted(Values(src.bots), Rank(files, f.name), bot)))
  {
    var files := d.bots[src.global.botDir];
    var k := Rank(files, f.name);
    var x := Source(f.name, f.text, bot);
    ReadCreated(files, c.bot.parse, f, bot);
    BotsReadBack(c, d, src, Put(files, f), src.bots[..k] + [x] + src.bots[k..]);
    ValuesOfInsert(src.bots, k, x);
    hide ReadBundle, ReadDir, Put, Rank, Exists, Values, Inserted;
  }

  lemma CreatedBots(c: Codecs, d: Disk, src: Sources, r: Request)
    requires AllLawful(c) && LoadSources(c, d) == Some(src)
    requires r.CreateBot? && StageEdit(c, d, src, r).Staged?
    ensures var k := Rank(d.bots[src.global.botDir], FileName(r.bot.id));
            ReadBundle(c, StageEdit(c, d, src, r).disk) ==
            Some(ToBundle(src).(bots := Inserted(Values(src.bots), k, r.bot)))
    ensures StageEdit(c, d, src, r).candidate == ToBundle(src).(bots := Values(src.bots) + [r.bot])
    ensures r.bot !in Values(src.bots)
  {
    var text := c.bot.render(r.bot).value;
    var f := File(FileName(r.bot.id), text);
    assert r.bot !in Values(src.bots);
    CreatedListing(c, d, src, r.bot, f);
    ValuesOfInsert(src.bots, 0, Source(f.name, text, r.bot));
    hide ReadBundle, ReadDir, Put, LoadSources, Rank, Exists, FileName, Values, Inserted;
  }

  lemma StagedCreateReadsBack(c: Codecs, d: Disk, src: Sources, r: Request)
    requires AllLawful(c) && ValidDisk(d) && LoadSources(c, d) == Some(src)
    requires r.CreateBot? && StageEdit(c, d, src, r).Staged?
    ensures var staged := StageEdit(c, d, src, r);
            ReadBundle(c, staged.disk) == Some(staged.candidate) <==> WillReadBack(c, d, r)
    ensures var staged := StageEdit(c, d, src, r);
            && ReadBundle(c, staged.disk).Some?
            && ReadBundle(c, staged.disk).value.(bots := []) == staged.candidate.(bots := [])
            && multiset(ReadBundle(c, staged.disk).value.bots) == multiset(staged.candidate.bots)
  {
    var files := d.bots[src.global.botDir];
    var k := Rank(files, FileName(r.bot.id));
    CreatedBots(c, d, src, r);
    RankIsLast(files, FileName(r.bot.id));
    assert |files| == |Values(src.bots)|;
    InsertedIsAppendedOnlyLast(Values(src.bots), k, r.bot);
    hide ReadBundle, ReadDir, Put, Values, StageEdit, Rank, StringLe, ToBundle, Inserted, FileName;
  }

  lemma StagedReadsBack(c: Codecs, d: Disk, src: Sources, r: Request)
    requires AllLawful(c) && ValidDisk(d) && LoadSources(c, d) == Some(src) && StageEdit(c, d, src, r).Staged?
    ensures var staged := StageEdit(c, d, src, r);
            ReadBundle(c, staged.disk) == Some(staged.candidate) <==> WillReadBack(c, d, r)
  {
    hide StageEdit, ReadBundle;
    match r
    case PutGlobal(_) => StagedPutGlobalReadsBack(c, d, src, r);
    case PutBot(_, _) => StagedPutBotReadsBack(c, d, src, r);
    case CreateBot(_) => StagedCreateReadsBack(c, d, src, r);
    case DeleteBot(_) => StagedDeleteReadsBack(c, d, src, r);
    case PutRisk(_, _) => StagedPutRiskReadsBack(c, d, src, r);
    case PutAccount(_, _) => StagedPutAccountReadsBack(c, d, src, r);
  }

  /** After an applied write the directory reads back as the new bundle, exactly when `WillReadBack`. */
  lemma AppliedWriteReadsBack(c: Codecs, s: Server, r: Request, header: IfMatch, env: Env)
    requires AllLawful(c) && ValidDisk(s.disk) && Write(c, s, r, header, env).1.Applied?
    ensures LoadSources(c, s.disk).Some?
    ensures var next := Write(c, s, r, header, env).0;
            ReadBundle(c, next.disk) == next.bundle <==> WillReadBack(c, s.disk, r)
  {
    assert Prepare(c, s, r, header, env).Staged?;
    StagedReadsBack(c, s.disk, LoadSources(c, s.disk).value, r);
    hide StageEdit, ReadBundle, LoadSources, WillReadBack;
  }

  /** The reload that follows an applied write finds nothing to do, exactly when `WillReadBack`. */
  lemma ReloadAfterWrite(c: Codecs, s: Server, r: Request, header: IfMatch, env: Env, trigger: Trigger, later: Env)
    requires AllLawful(c) && ValidDisk(s.disk) && Write(c, s, r, header, env).1.Applied?
    requires later.dotenv && forall b :: later.valid(b) == env.valid(b)
    ensures LoadSources(c, s.disk).Some?
    ensures var next := Write(c, s, r, header, env).0;
            Reload(c, next, trigger, later).1 == Unchanged <==> WillReadBack(c, s.disk, r)
  {
    AppliedWriteReadsBack(c, s, r, header, env);
    CommittedWriteApplies(c, s, r, header, env);
    assert s.managed;
    hide StageEdit, ReadBundle, LoadSources, WillReadBack, Prepare, Compatible;
  }

  // ----- Both exceptions, on concrete directories -----

  /** A configuration of bots `a` and `b` in directory `bots`, whatever its other settings. */
  datatype Example = Example(global: Global, a: Bot, b: Bot) {
    function Edited(): Global { global.(botDir := "x") }

    function Before(): Bundle { Bundle(global, [], [], [b]) }
  }

  predicate IsExample(x: Example) { x.global.botDir == "bots" && x.a.id == "a" && x.b.id == "b" }

  const CALM := Env({}, (b: Bundle) => true, (b: Bundle) => true, true, true)

  /** The codecs can write the entities of the example. */
  ghost predicate WritesExample(c: Codecs, x: Example) {
    && IsExample(x)
    && c.global.render(x.global).Some? && c.global.render(x.Edited()).Some?
    && c.bot.render(x.a).Some? && c.bot.render(x.b).Some?
    && c.global.update(c.global.render(x.Edited()).value, x.global).Some?
  }

  function FileOf(c: Codecs, bot: Bot): File
    requires c.bot.render(bot).Some?
  {
    File(FileName(bot.id), c.bot.render(bot).value)
  }

  function SourceOf(c: Codecs, bot: Bot): Source<Bot>
    requires c.bot.render(bot).Some?
  {
    Source(FileName(bot.id), c.bot.render(bot).value, bot)
  }

  /** A directory of one bot, described by the document of `g`. */
  function OneBotDisk(c: Codecs, g: Global, bots: map<string, seq<File>>): Disk { Disk(c.global.render(g), [], [], bots) }

  lemma BotsLoad(c: Codecs, g: Global, bots: map<string, seq<File>>, sources: seq<Source<Bot>>)
    requires AllLawful(c) && c.global.render(g).Some?
    requires g.botDir in bots && ReadDir(bots[g.botDir], c.bot.parse) == Some(sources)
    ensures LoadSources(c, OneBotDisk(c, g, bots)) == Some(Sources(c.global.render(g).value, g, [], [], sources))
    ensures ReadBundle(c, OneBotDisk(c, g, bots)) == Some(Bundle(g, [], [], Values(sources)))
  {
    assert ReadDir([], c.account.parse) == Some([]) && ReadDir([], c.risk.parse) == Some([]);
    hide ReadDir;
    var src := LoadSources(c, OneBotDisk(c, g, bots)).value;
    assert Values(src.accounts) == [] && Values(src.risks) == [];
  }

  lemma OneBotReads(c: Codecs, bot: Bot)
    requires AllLawful(c) && c.bot.render(bot).Some?
    ensures ReadDir([FileOf(c, bot)], c.bot.parse) == Some([SourceOf(c, bot)])
  {
    var f, y := FileOf(c, bot), SourceOf(c, bot);
    assert ReadDir([], c.bot.parse) == Some([]);
    hide ReadDir, FileName;
    ReadCons(f, [], c.bot.parse);
    assert [f] + [] == [f] && [y] + [] == [y];
  }

  lemma OneBotLoads(c: Codecs, g: Global, bot: Bot, bots: map<string, seq<File>>)
    requires AllLawful(c) && c.global.render(g).Some? && c.bot.render(bot).Some?
    requires g.botDir in bots && bots[g.botDir] == [FileOf(c, bot)]
    ensures LoadSources(c, OneBotDisk(c, g, bots)) ==
            Some(Sources(c.global.render(g).value, g, [], [], [SourceOf(c, bot)]))
    ensures ReadBundle(c, OneBotDisk(c, g, bots)) == Some(Bundle(g, [], [], [bot]))
  {
    OneBotReads(c, bot);
    assert Values([SourceOf(c, bot)]) == [bot];
    hide ReadDir, FileOf, AllLawful, LoadSources, ReadBundle, OneBotDisk, Values;
    BotsLoad(c, g, bots, [SourceOf(c, bot)]);
  }

  lemma ExampleIsCompatible(x: Example, bots: seq<Bot>)
    ensures Compatible(x.Before(), x.Before().(bots := bots), {})
  {
    hide BotsById, AccountsById;
  }

  lemma CreateStages(c: Codecs, d: Disk, src: Sources, bot: Bot)
    requires src.global.botDir in d.bots && c.bot.render(bot).Some?
    requires Find(src.bots, (b: Bot) => b.id == bot.id).None? && !Exists(d.bots[src.global.botDir], FileName(bot.id))
    ensures StageEdit(c, d, src, CreateBot(bot)) ==
            StageBots(d, src, src.bots + [SourceOf(c, bot)], Put(d.bots[src.global.botDir], FileOf(c, bot)))
  {
    hide Put, Exists, FileName, Find, StageBots, IntoAccount, WithValue;
  }

  lemma ExampleStages(c: Codecs, x: Example, src: Sources)
    requires WritesExample(c, x)
    requires var d := OneBotDisk(c, x.global, map["bots" := [FileOf(c, x.b)]]);
             LoadSources(c, d) == Some(src) && src.global == x.global && src.accounts == [] && src.risks == [] &&
             src.bots == [SourceOf(c, x.b)]
    ensures var d := OneBotDisk(c, x.global, map["bots" := [FileOf(c, x.b)]]);
            StageEdit(c, d, src, CreateBot(x.a)) ==
            Staged(x.Before().(bots := [x.b, x.a]), d.(bots := map["bots" := [FileOf(c, x.a), FileOf(c, x.b)]]))
    ensures Precheck(CreateBot(x.a)).None?
  {
    hide LoadSources, StageEdit, Put, Exists, FileName, StageBots;
    var fa, fb := FileOf(c, x.a), FileOf(c, x.b);
    var d := OneBotDisk(c, x.global, map["bots" := [fb]]);
    ExampleFiles(fa, fb);
    assert "a"[0] != "b"[0];
    CreateStages(c, d, src, x.a);
    ExampleBundle(c, x, d, src, [fa, fb]);
    SafeLetter();
    hide SafeName, Values, FindFrom, IsExample;
  }

  lemma SafeLetter()
    ensures SafeName("a")
  {
  }

  lemma ExampleBundle(c: Codecs, x: Example, d: Disk, src: Sources, files: seq<File>)
    requires WritesExample(c, x) && src.global == x.global && src.accounts == [] && src.risks == []
    requires src.bots == [SourceOf(c, x.b)] && d.bots.Keys == {"bots"}
    ensures StageBots(d, src, src.bots + [SourceOf(c, x.a)], files) ==
            Staged(x.Before().(bots := [x.b, x.a]), d.(bots := map["bots" := files]))
  {
    hide FileName;
    assert d.bots["bots" := files] == map["bots" := files];
    assert Values(src.bots + [SourceOf(c, x.a)]) == [x.b, x.a];
    assert Values(src.accounts) == [] && Values(src.risks) == [];
    hide Values;
  }

  lemma ExampleFiles(fa: File, fb: File)
    requires fa.name == FileName("a") && fb.name == FileName("b")
    ensures !Exists([fb], fa.name) && Put([fb], fa) == [fa, fb]
  {
    assert FileName("a")[0] == 'a' && FileName("b")[0] == 'b';
  }

  lemma ExampleReadsBack(c: Codecs, x: Example)
    requires AllLawful(c) && WritesExample(c, x)
    ensures ReadBundle(c, OneBotDisk(c, x.global, map["bots" := [FileOf(c, x.a), FileOf(c, x.b)]])) ==
            Some(x.Before().(bots := [x.a, x.b]))
  {
    hide ReadDir, LoadSources, ReadBundle, OneBotDisk, FileName;
    var fa, fb, a, b := FileOf(c, x.a), FileOf(c, x.b), SourceOf(c, x.a), SourceOf(c, x.b);
    OneBotReads(c, x.b);
    ReadCons(fa, [fb], c.bot.parse);
    assert [fa] + [fb] == [fa, fb] && [a] + [b] == [a, b] && Values([a, b]) == [x.a, x.b];
    hide Values;
    BotsLoad(c, x.global, map["bots" := [fa, fb]], [a, b]);
  }

  /** In calm weather a staged edit that is compatible is written and applied. */
  lemma CalmWriteApplies(c: Codecs, bundle: Bundle, d: Disk, r: Request)
    requires Precheck(r).None? && LoadSources(c, d).Some?
    requires var staged := StageEdit(c, d, LoadSources(c, d).value, r);
             staged.Staged? && Compatible(bundle, staged.candidate, {})
    ensures var (next, response) := Write(c, Server(true, Some(bundle), 0, [], d), r, Absent, CALM);
            var staged := StageEdit(c, d, LoadSources(c, d).value, r);
            response == Applied(1) && next.bundle == Some(staged.candidate) && next.disk == staged.disk
  {
    hide LoadSources, StageEdit, Compatible, Precheck;
  }

  /** Creating `a` beside an existing `b`: memory lists b, a while the directory reads a, b. */
  lemma CreatedOutOfOrder(c: Codecs, x: Example)
    requires AllLawful(c) && WritesExample(c, x)
    ensures var d := OneBotDisk(c, x.global, map["bots" := [FileOf(c, x.b)]]);
            var (next, response) := Write(c, Server(true, Some(x.Before()), 0, [], d), CreateBot(x.a), Absent, CALM);
            && ReadBundle(c, d) == Some(x.Before()) && response == Applied(1)
            && next.bundle == Some(x.Before().(bots := [x.b, x.a]))
            && ReadBundle(c, next.disk) == Some(x.Before().(bots := [x.a, x.b]))
  {
    hide LoadSources, StageEdit, ReadBundle, Compatible, Write, Precheck;
    var d := OneBotDisk(c, x.global, map["bots" := [FileOf(c, x.b)]]);
    OneBotLoads(c, x.global, x.b, map["bots" := [FileOf(c, x.b)]]);
    ExampleStages(c, x, LoadSources(c, d).value);
    ExampleReadsBack(c, x);
    ExampleIsCompatible(x, [x.b, x.a]);
    hide AllLawful, FileOf;
    CalmWriteApplies(c, x.Before(), d, CreateBot(x.a));
  }

  /**
   * The directory was edited to point at `x`; a global update points back at `bots`. Memory keeps the
   * bot read from `x`, the directory reads the bot in `bots`.
   */
  lemma PointedBackReadsOtherBots(c: Codecs, x: Example)
    requires AllLawful(c) && WritesExample(c, x)
    ensures var d := OneBotDisk(c, x.Edited(), map["bots" := [FileOf(c, x.b)], "x" := [FileOf(c, x.a)]]);
            var (next, response) := Write(c, Server(true, Some(x.Before()), 0, [], d), PutGlobal(x.global), Absent, CALM);
            && response == Applied(1)
            && next.bundle == Some(x.Before().(bots := [x.a]))
            && ReadBundle(c, next.disk) == Some(x.Before())
  {
    var bots := map["bots" := [FileOf(c, x.b)], "x" := [FileOf(c, x.a)]];
    assert "bots"[0] != "x"[0];
    var d := OneBotDisk(c, x.Edited(), bots);
    OneBotLoads(c, x.Edited(), x.a, bots);
    OneBotLoads(c, x.global, x.b, bots);
    var text := c.global.update(c.global.render(x.Edited()).value, x.global);
    hide ReadDir, FileOf;
    assert ReadBundle(c, d.(global := text)) == ReadBundle(c, OneBotDisk(c, x.global, bots)) by {
      hide Values;
    }
    hide LoadSources, ReadBundle;
    var src := LoadSources(c, d).value;
    assert Values([SourceOf(c, x.a)]) == [x.a] && Values(src.accounts) == [] && Values(src.risks) == [];
    assert StageEdit(c, d, src, PutGlobal(x.global)) == Staged(x.Before().(bots := [x.a]), d.(global := text));
    hide AllLawful, WritesExample, StageEdit, Compatible, Values, OneBotDisk, Write;
    ExampleIsCompatible(x, [x.a]);
    CalmWriteApplies(c, x.Before(), d, PutGlobal(x.global));
  }

  // ----- Whole runs -----

  datatype Event =
    | WriteEvent(request: Request, header: IfMatch, env: Env)
    | ReloadEvent(trigger: Trigger, env: Env)
    | EditEvent(disk: Disk)

  function Step(c: Codecs, s: Server, e: Event): (Server, Response) {
    match e
    case WriteEvent(request, header, env) => Write(c, s, request, header, env)
    case ReloadEvent(trigger, env) => Reload(c, s, trigger, env)
    case EditEvent(disk) => (s.(disk := disk), Unchanged)
  }

  function Run(c: Codecs, s: Server, events: seq<Event>): Server
    decreases |events|
  {
    if events == [] then s else Run(c, Step(c, s, events[0]).0, events[1..])
  }

  /** The entry an event adds to the status history, if it adds one. */
  function Entry(c: Codecs, s: Server, e: Event): (entry: seq<Status>) {
    var (next, response) := Step(c, s, e);
    match e
    case EditEvent(_) => []
    case WriteEvent(_, _, _) =>
      if response.Applied? then [Status(ConfigWrite, Reloaded, s.generation + 1)] else []
    case ReloadEvent(trigger, _) =>
      match response
      case Applied(g) => [Status(trigger, Reloaded, s.generation + 1)]
      case Unchanged => [Status(trigger, NoChange, s.generation)]
      case Refused(NotManaged) => []
      case Refused(Incompatible) => [Status(trigger, Rejected, s.generation)]
      case Refused(_) => [Status(trigger, Failed, s.generation)]
  }

  /** Everything ever recorded over a run. */
  function Log(c: Codecs, s: Server, events: seq<Event>): seq<Status>
    decreases |events|
  {
    if events == [] then [] else Entry(c, s, events[0]) + Log(c, Step(c, s, events[0]).0, events[1..])
  }

  /** One step: the generation moves exactly with the bundle's one way of changing. */
  lemma StepFacts(c: Codecs, s: Server, e: Event)
    ensures var (next, response) := Step(c, s, e);
            && next.managed == s.managed
            && next.generation == (if response.Applied? then s.generation + 1 else s.generation)
            && (!response.Applied? ==> next.bundle == s.bundle)
            && (response.Applied? ==> next.bundle.Some? && response.generation == next.generation)
    ensures Step(c, s, e).0.history == Suffix(s.history + Entry(c, s, e), HISTORY_LIMIT) || Entry(c, s, e) == []
    ensures Entry(c, s, e) == [] ==> Step(c, s, e).0.history == s.history
    ensures |Entry(c, s, e)| <= 1
    ensures Entry(c, s, e) != [] ==>
      (Entry(c, s, e)[0].outcome == Reloaded <==> Step(c, s, e).1.Applied?)
    ensures Entry(c, s, e) != [] ==> Entry(c, s, e)[0].generation == Step(c, s, e).0.generation
    ensures Step(c, s, e).1.Applied? ==> Entry(c, s, e) != []
  {
    hide StageEdit, LoadSources, ReadBundle, Compatible, LoadBundle, Prepare;
  }

  /** A bundle is only ever replaced by a compatible one. */
  lemma StepKeepsScope(c: Codecs, s: Server, e: Event)
    requires s.bundle.Some?
    ensures Step(c, s, e).0.bundle.Some?
    ensures ScopeOf(Step(c, s, e).0.bundle.value) == ScopeOf(s.bundle.value)
  {
    hide StageEdit, LoadSources, ReadBundle, ScopeOf, RunningBotsKept;
  }

  /** Restart-scoped settings are those of startup after any run. */
  lemma {:induction false} RestartScopeNeverDrifts(c: Codecs, s: Server, events: seq<Event>)
    requires s.bundle.Some?
    ensures Run(c, s, events).bundle.Some?
    ensures ScopeOf(Run(c, s, events).bundle.value) == ScopeOf(s.bundle.value)
    decreases |events|
  {
    if events != [] {
      StepKeepsScope(c, s, events[0]);
      hide Step, ScopeOf;
      RestartScopeNeverDrifts(c, Step(c, s, events[0]).0, events[1..]);
    }
  }

  lemma {:induction false} GenerationNeverFalls(c: Codecs, s: Server, events: seq<Event>)
    ensures s.generation <= Run(c, s, events).generation
    decreases |events|
  {
    if events != [] {
      StepFacts(c, s, events[0]);
      hide Step, Entry;
      GenerationNeverFalls(c, Step(c, s, events[0]).0, events[1..]);
    }
  }

  /** A generation number names one bundle: nothing was applied while it stayed the same. */
  lemma {:induction false} GenerationNamesBundle(c: Codecs, s: Server, events: seq<Event>)
    requires Run(c, s, events).generation == s.generation
    ensures Run(c, s, events).bundle == s.bundle
    decreases |events|
  {
    if events != [] {
      StepFacts(c, s, events[0]);
      hide Step, Entry;
      var next := Step(c, s, events[0]).0;
      GenerationNeverFalls(c, next, events[1..]);
      GenerationNamesBundle(c, next, events[1..]);
    }
  }

  /** A write guarded by the generation a client saw is applied only to the bundle it saw. */
  lemma GuardedWriteLosesNoUpdate(c: Codecs, s: Server, events: seq<Event>, request: Request, env: Env)
    requires var seen := Run(c, s, events); Write(c, seen, request, Number(s.generation), env).1.Applied?
    ensures Run(c, s, events).bundle == s.bundle && Run(c, s, events).generation == s.generation
  {
    var seen := Run(c, s, events);
    assert GuardIfMatch(seen.generation, Number(s.generation)).None? by {
      hide StageEdit, LoadSources, Vet;
    }
    GenerationNamesBundle(c, s, events);
  }

  /** Of two writes presenting the same generation, with anything in between, at most one is applied. */
  lemma AtMostOneWriterPerGeneration(
    c: Codecs, s: Server, n: nat, first: Request, firstEnv: Env, between: seq<Event>, second: Request, secondEnv: Env)
    requires Write(c, s, first, Number(n), firstEnv).1.Applied?
    ensures var later := Run(c, Write(c, s, first, Number(n), firstEnv).0, between);
            Write(c, later, second, Number(n), secondEnv).1.Refused? &&
            Write(c, later, second, Number(n), secondEnv).0 == later
  {
    var next := Write(c, s, first, Number(n), firstEnv).0;
    var later := Run(c, next, between);
    assert GuardIfMatch(s.generation, Number(n)).None? && next.generation == n + 1 by {
      hide StageEdit, LoadSources, Vet;
    }
    GenerationNeverFalls(c, next, between);
    assert GuardIfMatch(later.generation, Number(n)) == Some(StaleGeneration);
    hide StageEdit, LoadSources, Vet, Run;
  }

  // ----- The directory stays a listing -----

  lemma StepKeepsListings(c: Codecs, s: Server, e: Event)
    requires ValidDisk(s.disk) && (e.EditEvent? ==> ValidDisk(e.disk))
    ensures ValidDisk(Step(c, s, e).0.disk)
  {
    if e.WriteEvent? && LoadSources(c, s.disk).Some? {
      StageKeepsListings(c, s.disk, LoadSources(c, s.disk).value, e.request);
      hide StageEdit, LoadSources, Compatible, ValidDisk;
    }
  }

  lemma StageKeepsListings(c: Codecs, d: Disk, src: Sources, r: Request)
    requires ValidDisk(d) && LoadSources(c, d) == Some(src)
    ensures StageEdit(c, d, src, r).Staged? ==> ValidDisk(StageEdit(c, d, src, r).disk)
  {
    if StageEdit(c, d, src, r).Staged? {
      var f := StageTouchesOneFile(c, d, src, r);
      assert src.global.botDir in d.bots;
      var bots := d.bots[src.global.botDir];
      hide StageEdit, LoadSources, Put, Remove;
      PutKeepsListing(d.accounts, f);
      PutKeepsListing(d.risks, f);
      PutKeepsListing(bots, f);
      RemoveKeepsListing(bots, f.name);
      hide Listing;
    }
  }

  /** A staged edit replaces, creates or removes one file. */
  lemma StageTouchesOneFile(c: Codecs, d: Disk, src: Sources, r: Request) returns (f: File)
    requires LoadSources(c, d) == Some(src) && StageEdit(c, d, src, r).Staged?
    ensures var next, dir := StageEdit(c, d, src, r).disk, src.global.botDir;
            || next == d.(global := next.global)
            || next == d.(accounts := Put(d.accounts, f))
            || next == d.(risks := Put(d.risks, f))
            || next == d.(bots := d.bots[dir := Put(d.bots[dir], f)])
            || next == d.(bots := d.bots[dir := Remove(d.bots[dir], f.name)])
  {
    hide Put, Remove, Values, ToBundle, Exists, IntoAccount, LoadSources, WithValue, FindFrom, FileName;
    match r
    case PutGlobal(_) =>
      f := File("", src.globalRaw);
    case PutBot(id, bot) =>
      var i := Find(src.bots, (b: Bot) => b.id == id).value;
      f := File(src.bots[i].name, c.bot.update(src.bots[i].raw, bot).value);
    case CreateBot(bot) =>
      f := File(FileName(bot.id), c.bot.render(bot).value);
    case DeleteBot(id) =>
      var i := Find(src.bots, (b: Bot) => b.id == id).value;
      f := File(src.bots[i].name, src.bots[i].raw);
    case PutRisk(id, risk) =>
      var i := Find(src.risks, (p: RiskProfile) => p.id == id).value;
      f := File(src.risks[i].name, c.risk.update(src.risks[i].raw, risk).value);
    case PutAccount(id, update) =>
      var i := Find(src.accounts, (a: Account) => a.id == id).value;
      var next := IntoAccount(update, src.accounts[i].value);
      f := File(src.accounts[i].name, c.account.update(src.accounts[i].raw, next).value);
  }

  /** A write applied after any run reads back under the same condition as at startup. */
  lemma {:induction false} EveryAppliedWriteReadsBack(
    c: Codecs, s: Server, events: seq<Event>, r: Request, header: IfMatch, env: Env)
    requires AllLawful(c) && ValidDisk(s.disk)
    requires forall i :: 0 <= i < |events| && events[i].EditEvent? ==> ValidDisk(events[i].disk)
    requires Write(c, Run(c, s, events), r, header, env).1.Applied?
    ensures var before := Run(c, s, events);
            var after := Write(c, before, r, header, env).0;
            LoadSources(c, before.disk).Some? &&
            (ReadBundle(c, after.disk) == after.bundle <==> WillReadBack(c, before.disk, r))
    decreases |events|
  {
    if events == [] {
      AppliedWriteReadsBack(c, s, r, header, env);
    } else {
      StepKeepsListings(c, s, events[0]);
      hide Step, Write, ValidDisk, AllLawful, WillReadBack;
      EveryAppliedWriteReadsBack(c, Step(c, s, events[0]).0, events[1..], r, header, env);
    }
  }

  // ----- The status history -----

  /** An entry is one generation above its predecessor when it applied something, level with it otherwise. */
  predicate Follows(previous: nat, entry: Status) {
    entry.generation == if entry.outcome == Reloaded then previous + 1 else previous
  }

  ghost predicate Chained(log: seq<Status>, start: nat) {
    && (log != [] ==> Follows(start, log[0]))
    && forall i :: 0 < i < |log| ==> Follows(log[i - 1].generation, log[i])
  }

  function CountReloaded(log: seq<Status>): nat {
    if log == [] then 0 else (if log[0].outcome == Reloaded then 1 else 0) + CountReloaded(log[1..])
  }

  lemma ChainedCons(e: Status, log: seq<Status>, start: nat)
    requires Chained(log, e.generation) && Follows(start, e)
    ensures Chained([e] + log, start)
  {
    var all := [e] + log;
    forall i | 0 < i < |all| ensures Follows(all[i - 1].generation, all[i]) {
      if i > 1 {
        assert Follows(log[i - 2].generation, log[i - 1]);
      }
    }
  }

  lemma CountCons(e: Status, log: seq<Status>)
    ensures CountReloaded([e] + log) == CountReloaded(log) + if e.outcome == Reloaded then 1 else 0
  {
    assert ([e] + log)[1..] == log;
  }

  lemma SuffixOfAppend(h: seq<Status>, a: seq<Status>, b: seq<Status>)
    ensures Suffix(Suffix(h + a, HISTORY_LIMIT) + b, HISTORY_LIMIT) == Suffix(h + (a + b), HISTORY_LIMIT)
  {
    assert h + a + b == h + (a + b);
  }

  /** The history is the newest entries of everything recorded. */
  lemma {:induction false} HistoryIsNewestEntries(c: Codecs, s: Server, events: seq<Event>)
    requires |s.history| <= HISTORY_LIMIT
    ensures Run(c, s, events).history == Suffix(s.history + Log(c, s, events), HISTORY_LIMIT)
    decreases |events|
  {
    if events == [] {
      assert s.history + [] == s.history;
    } else {
      StepFacts(c, s, events[0]);
      hide Step, Entry;
      var next := Step(c, s, events[0]).0;
      HistoryIsNewestEntries(c, next, events[1..]);
      var entry, rest := Entry(c, s, events[0]), Log(c, next, events[1..]);
      SuffixOfAppend(s.history, entry, rest);
      assert entry == [] ==> entry + rest == rest;
    }
  }

  /** A chain of entries from generation `start` to generation `end`, one step per applied change. */
  ghost predicate Spans(log: seq<Status>, start: nat, end: nat) {
    && Chained(log, start)
    && end == (if log == [] then start else log[|log| - 1].generation)
    && end == start + CountReloaded(log)
  }

  lemma SpansCons(e: Status, log: seq<Status>, start: nat, end: nat)
    requires Follows(start, e) && Spans(log, e.generation, end)
    ensures Spans([e] + log, start, end)
  {
    ChainedCons(e, log, start);
    CountCons(e, log);
    hide Chained, CountReloaded;
  }

  /** Everything recorded forms one chain from the first generation to the current one. */
  lemma {:induction false} LogIsChained(c: Codecs, s: Server, events: seq<Event>)
    ensures Spans(Log(c, s, events), s.generation, Run(c, s, events).generation)
    decreases |events|
  {
    if events != [] {
      StepFacts(c, s, events[0]);
      hide Step, Entry;
      var next := Step(c, s, events[0]).0;
      LogIsChained(c, next, events[1..]);
      var entry, rest := Entry(c, s, events[0]), Log(c, next, events[1..]);
      if entry == [] {
        assert entry + rest == rest;
      } else {
        assert entry == [entry[0]] && Follows(s.generation, entry[0]);
        SpansCons(entry[0], rest, s.generation, Run(c, s, events).generation);
      }
      hide Spans;
    }
  }

  lemma SuffixStaysChained(log: seq<Status>, start: nat, h: seq<Status>)
    requires Chained(log, start) && h == Suffix(log, HISTORY_LIMIT)
    ensures forall i :: 0 < i < |h| ==> Follows(h[i - 1].generation, h[i])
  {
    var k := |log| - |h|;
    forall i | 0 < i < |h| ensures Follows(h[i - 1].generation, h[i]) {
      assert Follows(log[k + i - 1].generation, log[k + i]);
    }
  }

  /** From startup on, the retained history is bounded, chained, and ends at the current generation. */
  lemma HistoryIsSound(c: Codecs, s: Server, events: seq<Event>)
    requires s.history == []
    ensures var end := Run(c, s, events); var h := end.history;
            && |h| <= HISTORY_LIMIT
            && (h == [] ==> end.generation == s.generation)
            && (h != [] ==> h[|h| - 1].generation == end.generation)
            && forall i :: 0 < i < |h| ==> Follows(h[i - 1].generation, h[i])
  {
    hide Run, Log, Chained, CountReloaded, Follows;
    var log := Log(c, s, events);
    HistoryIsNewestEntries(c, s, events);
    assert s.history + log == log;
    LogIsChained(c, s, events);
    SuffixStaysChained(log, s.generation, Run(c, s, events).history);
  }
}
