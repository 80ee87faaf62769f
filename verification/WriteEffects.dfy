/**
 * What a configuration write leaves behind, read off the request and the directory: the bundle
 * in memory, the one file on disk, and the first check that refuses it. The same for a reload.
 */
module WriteEffects {
  import opened Options
  import opened Orders
  import opened ChangeSets
  import opened ConfigSources
  import opened ConfigPipeline

  // ----- What a directory reads as -----

  /** Each value is what its file parses to, in the order of the files. */
  ghost predicate ReadFrom<T>(values: seq<T>, files: seq<File>, parse: Document -> Option<T>) {
    |values| == |files| && forall i :: 0 <= i < |files| ==> parse(files[i].text) == Some(values[i])
  }

  lemma ValuesAreRead<T>(files: seq<File>, parse: Document -> Option<T>)
    ensures ReadDir(files, parse).Some? ==> ReadFrom(Values(ReadDir(files, parse).value), files, parse)
    ensures ReadDir(files, parse).None? ==> exists i :: 0 <= i < |files| && parse(files[i].text).None?
  {
    if ReadDir(files, parse).Some? {
      forall i | 0 <= i < |files| ensures parse(files[i].text) == Some(Values(ReadDir(files, parse).value)[i]) {
        ReadDirAt(files, parse, i);
      }
    } else {
      UnreadableFile(files, parse);
    }
  }

  lemma {:induction false} UnreadableFile<T>(files: seq<File>, parse: Document -> Option<T>)
    requires ReadDir(files, parse).None?
    ensures exists i :: 0 <= i < |files| && parse(files[i].text).None?
    decreases |files|
  {
    if parse(files[0].text).Some? {
      UnreadableFile(files[1..], parse);
      var i :| 0 <= i < |files[1..]| && parse(files[1..][i].text).None?;
      assert files[i + 1] == files[1..][i];
    }
  }

  /** The bundle that a directory describes. */
  ghost predicate Describes(c: Codecs, d: Disk, b: Bundle) {
    && d.global.Some? && c.global.parse(d.global.value) == Some(b.global)
    && b.global.botDir in d.bots
    && ReadFrom(b.accounts, d.accounts, c.account.parse)
    && ReadFrom(b.risks, d.risks, c.risk.parse)
    && ReadFrom(b.bots, d.bots[b.global.botDir], c.bot.parse)
  }

  lemma ReadFromIsUnique<T>(a: seq<T>, b: seq<T>, files: seq<File>, parse: Document -> Option<T>)
    requires ReadFrom(a, files, parse) && ReadFrom(b, files, parse)
    ensures a == b
  {
    forall i | 0 <= i < |a| ensures a[i] == b[i] {
      assert parse(files[i].text) == Some(a[i]);
    }
  }

  /** Loading a directory gives the one bundle it describes, and fails exactly when it describes none. */
  lemma LoadOnInputs(c: Codecs, d: Disk)
    ensures ReadBundle(c, d).Some? ==> Describes(c, d, ReadBundle(c, d).value)
    ensures forall b :: Describes(c, d, b) ==> ReadBundle(c, d) == Some(b)
    ensures LoadSources(c, d).Some? <==> ReadBundle(c, d).Some?
  {
    ValuesAreRead(d.accounts, c.account.parse);
    ValuesAreRead(d.risks, c.risk.parse);
    if d.global.Some? && c.global.parse(d.global.value).Some? && c.global.parse(d.global.value).value.botDir in d.bots {
      ValuesAreRead(d.bots[c.global.parse(d.global.value).value.botDir], c.bot.parse);
    }
    hide ReadDir, Values;
    forall b | Describes(c, d, b) ensures ReadBundle(c, d) == Some(b) {
      LoadsDescribed(c, d, b);
    }
  }

  lemma LoadsDescribed(c: Codecs, d: Disk, b: Bundle)
    requires Describes(c, d, b)
    ensures ReadBundle(c, d) == Some(b)
  {
    DirLoads(b.accounts, d.accounts, c.account.parse);
    DirLoads(b.risks, d.risks, c.risk.parse);
    DirLoads(b.bots, d.bots[b.global.botDir], c.bot.parse);
    hide ReadDir, Values, ReadFrom;
  }

  lemma DirLoads<T>(values: seq<T>, files: seq<File>, parse: Document -> Option<T>)
    requires ReadFrom(values, files, parse)
    ensures ReadDir(files, parse).Some? && Values(ReadDir(files, parse).value) == values
  {
    ValuesAreRead(files, parse);
    if ReadDir(files, parse).Some? {
      ReadFromIsUnique(Values(ReadDir(files, parse).value), values, files, parse);
    }
  }

  // ----- What a request asks for -----

  ghost predicate FirstBot(bots: seq<Bot>, id: string, i: int) {
    0 <= i < |bots| && bots[i].id == id && forall j :: 0 <= j < i ==> bots[j].id != id
  }

  ghost predicate FirstRisk(risks: seq<RiskProfile>, id: string, i: int) {
    0 <= i < |risks| && risks[i].id == id && forall j :: 0 <= j < i ==> risks[j].id != id
  }

  ghost predicate FirstAccount(accounts: seq<Account>, id: string, i: int) {
    0 <= i < |accounts| && accounts[i].id == id && forall j :: 0 <= j < i ==> accounts[j].id != id
  }

  /** `a` is `old_` with every field of the update as sent; id and credentials are kept, and so is the
      submission setting unless the update asks for another than the one in force. */
  predicate Updated(old_: Account, u: AccountUpdate, a: Account) {
    var inForce := if old_.remoteSubmission.Some? then old_.remoteSubmission.value else old_.remoteSnapshot;
    && a.id == old_.id
    && a.apiKeyEnv == old_.apiKeyEnv && a.apiSecretEnv == old_.apiSecretEnv && a.passphraseEnv == old_.passphraseEnv
    && a.kind == u.kind && a.mode == u.mode && a.useDemoMode == u.useDemoMode && a.remoteSnapshot == u.remoteSnapshot
    && a.baseUrl == u.baseUrl && a.budget == u.budget && a.cashAssets == u.cashAssets
    && a.remoteSubmission == if u.remoteSubmission == Some(!inForce) then u.remoteSubmission else old_.remoteSubmission
  }

  /** `b'` is `b` with the one change the request asks for. */
  ghost predicate Asked(b: Bundle, r: Request, b': Bundle) {
    match r
    case PutGlobal(global) => b' == b.(global := global)
    case PutBot(id, bot) => exists i :: FirstBot(b.bots, id, i) && b' == b.(bots := b.bots[i := bot])
    case CreateBot(bot) => b' == b.(bots := b.bots + [bot])
    case DeleteBot(id) => exists i :: FirstBot(b.bots, id, i) && b' == b.(bots := b.bots[..i] + b.bots[i + 1..])
    case PutRisk(id, risk) => exists i :: FirstRisk(b.risks, id, i) && b' == b.(risks := b.risks[i := risk])
    case PutAccount(id, update) =>
      exists i, a :: FirstAccount(b.accounts, id, i) && Updated(b.accounts[i], update, a) &&
                     b' == b.(accounts := b.accounts[i := a])
  }

  /** The request names nothing that is there. */
  ghost predicate Missing(b: Bundle, r: Request) {
    match r
    case PutBot(id, _) => forall x :: x in b.bots ==> x.id != id
    case DeleteBot(id) => forall x :: x in b.bots ==> x.id != id
    case PutRisk(id, _) => forall x :: x in b.risks ==> x.id != id
    case PutAccount(id, _) => forall x :: x in b.accounts ==> x.id != id
    case _ => false
  }

  /** The bot to create is there already, or a file of its name is. */
  ghost predicate Taken(b: Bundle, d: Disk, r: Request)
    requires b.global.botDir in d.bots
  {
    && r.CreateBot?
    && ((exists x :: x in b.bots && x.id == r.bot.id) ||
        (exists f :: f in d.bots[b.global.botDir] && f.name == r.bot.id + ".toml"))
  }

  /** The files are `files` but for the one called `name`, which now holds `text`. */
  ghost predicate Replaced(files: seq<File>, files': seq<File>, name: string, text: Document) {
    forall f :: f in files' <==> f == File(name, text) || (f in files && f.name != name)
  }

  ghost predicate Dropped(files: seq<File>, files': seq<File>, name: string) {
    forall f :: f in files' <==> f in files && f.name != name
  }

  /** The one file of the request is written in its place, from the document that was there. */
  ghost predicate Filed(c: Codecs, b: Bundle, d: Disk, r: Request, b': Bundle, d': Disk)
    requires Describes(c, d, b)
  {
    var dir := b.global.botDir;
    match r
    case PutGlobal(global) => d' == d.(global := c.global.update(d.global.value, global)) && d'.global.Some?
    case PutBot(id, bot) =>
      exists i, files, text :: FirstBot(b.bots, id, i) && c.bot.update(d.bots[dir][i].text, bot) == Some(text) &&
                               Replaced(d.bots[dir], files, d.bots[dir][i].name, text) && d' == d.(bots := d.bots[dir := files])
    case CreateBot(bot) =>
      exists files, text :: c.bot.render(bot) == Some(text) && Replaced(d.bots[dir], files, bot.id + ".toml", text) &&
                            d' == d.(bots := d.bots[dir := files])
    case DeleteBot(id) =>
      exists i, files :: FirstBot(b.bots, id, i) && Dropped(d.bots[dir], files, d.bots[dir][i].name) &&
                         d' == d.(bots := d.bots[dir := files])
    case PutRisk(id, risk) =>
      exists i, files, text :: FirstRisk(b.risks, id, i) && c.risk.update(d.risks[i].text, risk) == Some(text) &&
                               Replaced(d.risks, files, d.risks[i].name, text) && d' == d.(risks := files)
    case PutAccount(id, update) =>
      exists i, files, text :: FirstAccount(b.accounts, id, i) && i < |b'.accounts| &&
                               c.account.update(d.accounts[i].text, b'.accounts[i]) == Some(text) &&
                               Replaced(d.accounts, files, d.accounts[i].name, text) && d' == d.(accounts := files)
  }

  lemma {:induction false} PutReplaces(files: seq<File>, f: File)
    requires Listing(files)
    ensures Replaced(files, Put(files, f), f.name, f.text)
    decreases |files|
  {
    if files != [] {
      assert files == [files[0]] + files[1..];
      ListingTail(files);
      if files[0].name == f.name {
        forall g | g in files[1..] ensures g.name != f.name { ListingHead(files, g); }
      } else if StringLe(f.name, files[0].name) {
        forall g | g in files ensures g.name != f.name { LaterName(files, f.name, g); }
      } else {
        PutReplaces(files[1..], f);
      }
    }
  }

  lemma LaterName(files: seq<File>, name: string, g: File)
    requires Listing(files) && files != [] && files[0].name != name && StringLe(name, files[0].name) && g in files
    ensures g.name != name
  {
    if g != files[0] {
      assert files == [files[0]] + files[1..];
      ListingHead(files, g);
      BeforeIsStrict(files[0].name, g.name);
    }
  }

  lemma {:induction false} RemoveDrops(files: seq<File>, name: string)
    requires Listing(files)
    ensures Dropped(files, Remove(files, name), name)
    decreases |files|
  {
    if files != [] {
      assert files == [files[0]] + files[1..];
      ListingTail(files);
      if files[0].name == name {
        forall g | g in files[1..] ensures g.name != name { ListingHead(files, g); }
      } else {
        RemoveDrops(files[1..], name);
      }
    }
  }

  /** The document of the request cannot be written. */
  ghost predicate Unwritable(c: Codecs, b: Bundle, d: Disk, r: Request)
    requires Describes(c, d, b)
  {
    var files := d.bots[b.global.botDir];
    match r
    case PutGlobal(global) => c.global.update(d.global.value, global).None?
    case PutBot(id, bot) => exists i :: FirstBot(b.bots, id, i) && c.bot.update(files[i].text, bot).None?
    case CreateBot(bot) => c.bot.render(bot).None?
    case DeleteBot(_) => false
    case PutRisk(id, risk) => exists i :: FirstRisk(b.risks, id, i) && c.risk.update(d.risks[i].text, risk).None?
    case PutAccount(id, update) =>
      exists i, a :: FirstAccount(b.accounts, id, i) && Updated(b.accounts[i], update, a) &&
                     c.account.update(d.accounts[i].text, a).None?
  }

  // ----- Staging, request by request -----

  ghost predicate StagesAsAsked(c: Codecs, b: Bundle, d: Disk, r: Request, st: Stage)
    requires Describes(c, d, b)
  {
    if Missing(b, r) then st == Halted(NotFound)
    else if Taken(b, d, r) then st == Halted(Duplicate)
    else if Unwritable(c, b, d, r) then st == Halted(RenderFailed)
    else st.Staged? && Asked(b, r, st.candidate) && Filed(c, b, d, r, st.candidate, st.disk)
  }

  lemma SourcesDescribe(c: Codecs, d: Disk, src: Sources)
    requires LoadSources(c, d) == Some(src)
    ensures Describes(c, d, ToBundle(src)) && d.global == Some(src.globalRaw)
    ensures |src.bots| == |d.bots[src.global.botDir]| && |src.risks| == |d.risks| && |src.accounts| == |d.accounts|
    ensures forall i :: 0 <= i < |src.bots| ==>
              src.bots[i].name == d.bots[src.global.botDir][i].name && src.bots[i].raw == d.bots[src.global.botDir][i].text
    ensures forall i :: 0 <= i < |src.risks| ==> src.risks[i].name == d.risks[i].name && src.risks[i].raw == d.risks[i].text
    ensures forall i :: 0 <= i < |src.accounts| ==>
              src.accounts[i].name == d.accounts[i].name && src.accounts[i].raw == d.accounts[i].text
  {
    LoadOnInputs(c, d);
    forall i | 0 <= i < |src.bots|
      ensures src.bots[i].name == d.bots[src.global.botDir][i].name && src.bots[i].raw == d.bots[src.global.botDir][i].text
    {
      ReadDirAt(d.bots[src.global.botDir], c.bot.parse, i);
    }
    forall i | 0 <= i < |src.risks| ensures src.risks[i].name == d.risks[i].name && src.risks[i].raw == d.risks[i].text {
      ReadDirAt(d.risks, c.risk.parse, i);
    }
    forall i | 0 <= i < |src.accounts|
      ensures src.accounts[i].name == d.accounts[i].name && src.accounts[i].raw == d.accounts[i].text
    {
      ReadDirAt(d.accounts, c.account.parse, i);
    }
    hide ReadDir, Values;
  }

  lemma FindsFirstBot(sources: seq<Source<Bot>>, id: string)
    ensures var found := Find(sources, (x: Bot) => x.id == id);
            if found.Some? then FirstBot(Values(sources), id, found.value)
            else forall x :: x in Values(sources) ==> x.id != id
  {
    var values := Values(sources);
    assert forall i :: 0 <= i < |values| ==> values[i] == sources[i].value;
    hide Values;
  }

  lemma FirstBotIsUnique(bots: seq<Bot>, id: string, i: int, j: int)
    requires FirstBot(bots, id, i) && FirstBot(bots, id, j)
    ensures i == j
  {
  }

  lemma PutBotStages(c: Codecs, d: Disk, src: Sources, id: string, bot: Bot)
    requires ValidDisk(d) && LoadSources(c, d) == Some(src)
    ensures Describes(c, d, ToBundle(src))
    ensures StagesAsAsked(c, ToBundle(src), d, PutBot(id, bot), StageEdit(c, d, src, PutBot(id, bot)))
  {
    SourcesDescribe(c, d, src);
    FindsFirstBot(src.bots, id);
    var b, r, files := ToBundle(src), PutBot(id, bot), d.bots[src.global.botDir];
    var found := Find(src.bots, (x: Bot) => x.id == id);
    if found.Some? {
      var i := found.value;
      BotStaged(c, d, src, id, bot, i);
      assert b.bots[i] in b.bots;
      hide StageEdit, LoadSources, Describes, FindFrom, Put, Values, FirstBot, Asked, Filed, Unwritable;
      BotWritable(c, b, d, id, bot, i);
      var text := c.bot.update(files[i].text, bot);
      if text.Some? {
        PutReplaces(files, File(files[i].name, text.value));
        BotFiled(c, b, d, id, bot, i, text.value, Put(files, File(files[i].name, text.value)));
      }
    }
  }

  lemma BotStaged(c: Codecs, d: Disk, src: Sources, id: string, bot: Bot, i: nat)
    requires src.global.botDir in d.bots && Find(src.bots, (x: Bot) => x.id == id) == Some(i)
    ensures var b, dir, text := ToBundle(src), src.global.botDir, c.bot.update(src.bots[i].raw, bot);
            StageEdit(c, d, src, PutBot(id, bot)) ==
            if text.None? then Halted(RenderFailed)
            else Staged(b.(bots := b.bots[i := bot]),
                        d.(bots := d.bots[dir := Put(d.bots[dir], File(src.bots[i].name, text.value))]))
  {
    hide FindFrom, Put;
    assert Values(WithValue(src.bots, i, bot)) == Values(src.bots)[i := bot];
    hide Values;
  }

  lemma BotWritable(c: Codecs, b: Bundle, d: Disk, id: string, bot: Bot, i: nat)
    requires Describes(c, d, b) && FirstBot(b.bots, id, i) && i < |d.bots[b.global.botDir]|
    ensures Unwritable(c, b, d, PutBot(id, bot)) <==> c.bot.update(d.bots[b.global.botDir][i].text, bot).None?
  {
    forall j | FirstBot(b.bots, id, j) ensures j == i { FirstBotIsUnique(b.bots, id, i, j); }
    hide FirstBot;
  }

  lemma BotFiled(c: Codecs, b: Bundle, d: Disk, id: string, bot: Bot, i: nat, text: Document, files: seq<File>)
    requires Describes(c, d, b) && FirstBot(b.bots, id, i) && i < |d.bots[b.global.botDir]|
    requires c.bot.update(d.bots[b.global.botDir][i].text, bot) == Some(text)
    requires Replaced(d.bots[b.global.botDir], files, d.bots[b.global.botDir][i].name, text)
    ensures var b' := b.(bots := b.bots[i := bot]);
            Asked(b, PutBot(id, bot), b') && Filed(c, b, d, PutBot(id, bot), b', d.(bots := d.bots[b.global.botDir := files]))
  {
    hide FirstBot, Replaced, Describes;
  }

  lemma DeleteBotStages(c: Codecs, d: Disk, src: Sources, id: string)
    requires ValidDisk(d) && LoadSources(c, d) == Some(src)
    ensures Describes(c, d, ToBundle(src))
    ensures StagesAsAsked(c, ToBundle(src), d, DeleteBot(id), StageEdit(c, d, src, DeleteBot(id)))
  {
    SourcesDescribe(c, d, src);
    FindsFirstBot(src.bots, id);
    var b, r, files := ToBundle(src), DeleteBot(id), d.bots[src.global.botDir];
    var found, st := Find(src.bots, (x: Bot) => x.id == id), StageEdit(c, d, src, r);
    if found.Some? {
      var i := found.value;
      DeleteStaged(c, d, src, id, i);
      assert b.bots[i] in b.bots;
      RemoveDrops(files, files[i].name);
      hide StageEdit, Values, FirstBot, Dropped, LoadSources, Describes, FindFrom, Remove, Asked, Filed;
      DeleteFiled(c, b, d, id, i, Remove(files, files[i].name));
    }
  }

  lemma DeleteFiled(c: Codecs, b: Bundle, d: Disk, id: string, i: nat, files: seq<File>)
    requires Describes(c, d, b) && FirstBot(b.bots, id, i) && i < |d.bots[b.global.botDir]|
    requires Dropped(d.bots[b.global.botDir], files, d.bots[b.global.botDir][i].name)
    ensures var b' := b.(bots := b.bots[..i] + b.bots[i + 1..]);
            Asked(b, DeleteBot(id), b') && Filed(c, b, d, DeleteBot(id), b', d.(bots := d.bots[b.global.botDir := files]))
  {
    hide FirstBot, Dropped;
  }

  lemma DeleteStaged(c: Codecs, d: Disk, src: Sources, id: string, i: nat)
    requires src.global.botDir in d.bots && Find(src.bots, (x: Bot) => x.id == id) == Some(i)
    ensures var b, files := ToBundle(src), d.bots[src.global.botDir];
            StageEdit(c, d, src, DeleteBot(id)) ==
            Staged(b.(bots := b.bots[..i] + b.bots[i + 1..]),
                   d.(bots := d.bots[src.global.botDir := Remove(files, src.bots[i].name)]))
  {
    hide FindFrom, Remove;
    assert Values(src.bots[..i] + src.bots[i + 1..]) == Values(src.bots)[..i] + Values(src.bots)[i + 1..];
    hide Values;
  }

  lemma CreateBotStages(c: Codecs, d: Disk, src: Sources, bot: Bot)
    requires ValidDisk(d) && LoadSources(c, d) == Some(src)
    ensures Describes(c, d, ToBundle(src))
    ensures StagesAsAsked(c, ToBundle(src), d, CreateBot(bot), StageEdit(c, d, src, CreateBot(bot)))
  {
    SourcesDescribe(c, d, src);
    FindsFirstBot(src.bots, bot.id);
    var b, files := ToBundle(src), d.bots[src.global.botDir];
    var found := Find(src.bots, (x: Bot) => x.id == bot.id);
    assert found.Some? ==> b.bots[found.value] in b.bots;
    TakenWhen(b, d, bot, found.Some?);
    NewBotStaged(c, d, src, bot);
    hide StageEdit, LoadSources, Describes, FindFrom, Put, Values, Exists, Taken, Asked, Filed;
    if c.bot.render(bot).Some? {
      var text := c.bot.render(bot).value;
      PutReplaces(files, File(FileName(bot.id), text));
      NewBotFiled(c, b, d, bot, text, Put(files, File(FileName(bot.id), text)));
    }
  }

  lemma TakenWhen(b: Bundle, d: Disk, bot: Bot, known: bool)
    requires b.global.botDir in d.bots && (known <==> exists x :: x in b.bots && x.id == bot.id)
    ensures Taken(b, d, CreateBot(bot)) <==> known || Exists(d.bots[b.global.botDir], FileName(bot.id))
  {
    var files := d.bots[b.global.botDir];
    if Exists(files, FileName(bot.id)) {
      var i :| 0 <= i < |files| && files[i].name == FileName(bot.id);
      assert files[i] in files;
    }
  }

  lemma NewBotStaged(c: Codecs, d: Disk, src: Sources, bot: Bot)
    requires src.global.botDir in d.bots
    ensures var b, dir, text := ToBundle(src), src.global.botDir, c.bot.render(bot);
            var taken := Find(src.bots, (x: Bot) => x.id == bot.id).Some? || Exists(d.bots[dir], FileName(bot.id));
            StageEdit(c, d, src, CreateBot(bot)) ==
            if taken then Halted(Duplicate)
            else if text.None? then Halted(RenderFailed)
            else Staged(b.(bots := b.bots + [bot]), d.(bots := d.bots[dir := Put(d.bots[dir], File(FileName(bot.id), text.value))]))
  {
    hide FindFrom, Put, Exists, FileName;
    if c.bot.render(bot).Some? {
      assert Values(src.bots + [Source(FileName(bot.id), c.bot.render(bot).value, bot)]) == Values(src.bots) + [bot];
    }
    hide Values;
  }

  lemma NewBotFiled(c: Codecs, b: Bundle, d: Disk, bot: Bot, text: Document, files: seq<File>)
    requires Describes(c, d, b) && c.bot.render(bot) == Some(text)
    requires Replaced(d.bots[b.global.botDir], files, FileName(bot.id), text)
    ensures var b' := b.(bots := b.bots + [bot]);
            Asked(b, CreateBot(bot), b') && Filed(c, b, d, CreateBot(bot), b', d.(bots := d.bots[b.global.botDir := files]))
  {
    hide Replaced, Describes;
  }

  lemma PutGlobalStages(c: Codecs, d: Disk, src: Sources, global: Global)
    requires LoadSources(c, d) == Some(src)
    ensures Describes(c, d, ToBundle(src))
    ensures StagesAsAsked(c, ToBundle(src), d, PutGlobal(global), StageEdit(c, d, src, PutGlobal(global)))
  {
    SourcesDescribe(c, d, src);
    hide LoadSources, Values;
  }

  lemma FindsFirstRisk(sources: seq<Source<RiskProfile>>, id: string)
    ensures var found := Find(sources, (x: RiskProfile) => x.id == id);
            if found.Some? then
              FirstRisk(Values(sources), id, found.value) && forall j :: FirstRisk(Values(sources), id, j) ==> j == found.value
            else forall x :: x in Values(sources) ==> x.id != id
  {
    var values := Values(sources);
    assert forall i :: 0 <= i < |values| ==> values[i] == sources[i].value;
    hide Values;
  }

  lemma PutRiskStages(c: Codecs, d: Disk, src: Sources, id: string, risk: RiskProfile)
    requires ValidDisk(d) && LoadSources(c, d) == Some(src)
    ensures Describes(c, d, ToBundle(src))
    ensures StagesAsAsked(c, ToBundle(src), d, PutRisk(id, risk), StageEdit(c, d, src, PutRisk(id, risk)))
  {
    SourcesDescribe(c, d, src);
    FindsFirstRisk(src.risks, id);
    var b := ToBundle(src);
    var found := Find(src.risks, (x: RiskProfile) => x.id == id);
    if found.Some? {
      var i := found.value;
      RiskStaged(c, d, src, id, risk, i);
      assert b.risks[i] in b.risks;
      hide StageEdit, LoadSources, Describes, FindFrom, Put, Values, FirstRisk, Asked, Filed, Unwritable;
      RiskWritable(c, b, d, id, risk, i);
      var text := c.risk.update(d.risks[i].text, risk);
      if text.Some? {
        PutReplaces(d.risks, File(d.risks[i].name, text.value));
        RiskFiled(c, b, d, id, risk, i, text.value, Put(d.risks, File(d.risks[i].name, text.value)));
      }
    }
  }

  lemma RiskStaged(c: Codecs, d: Disk, src: Sources, id: string, risk: RiskProfile, i: nat)
    requires src.global.botDir in d.bots && Find(src.risks, (x: RiskProfile) => x.id == id) == Some(i)
    ensures var b, text := ToBundle(src), c.risk.update(src.risks[i].raw, risk);
            StageEdit(c, d, src, PutRisk(id, risk)) ==
            if text.None? then Halted(RenderFailed)
            else Staged(b.(risks := b.risks[i := risk]), d.(risks := Put(d.risks, File(src.risks[i].name, text.value))))
  {
    hide FindFrom, Put;
    assert Values(WithValue(src.risks, i, risk)) == Values(src.risks)[i := risk];
    hide Values;
  }

  lemma RiskWritable(c: Codecs, b: Bundle, d: Disk, id: string, risk: RiskProfile, i: nat)
    requires Describes(c, d, b) && FirstRisk(b.risks, id, i) && i < |d.risks|
    requires forall j :: FirstRisk(b.risks, id, j) ==> j == i
    ensures Unwritable(c, b, d, PutRisk(id, risk)) <==> c.risk.update(d.risks[i].text, risk).None?
  {
    hide FirstRisk;
  }

  lemma RiskFiled(c: Codecs, b: Bundle, d: Disk, id: string, risk: RiskProfile, i: nat, text: Document, files: seq<File>)
    requires Describes(c, d, b) && FirstRisk(b.risks, id, i) && i < |d.risks|
    requires c.risk.update(d.risks[i].text, risk) == Some(text) && Replaced(d.risks, files, d.risks[i].name, text)
    ensures var b' := b.(risks := b.risks[i := risk]);
            Asked(b, PutRisk(id, risk), b') && Filed(c, b, d, PutRisk(id, risk), b', d.(risks := files))
  {
    hide FirstRisk, Replaced, Describes;
  }

  lemma FindsFirstAccount(sources: seq<Source<Account>>, id: string)
    ensures var found := Find(sources, (x: Account) => x.id == id);
            if found.Some? then
              FirstAccount(Values(sources), id, found.value) && forall j :: FirstAccount(Values(sources), id, j) ==> j == found.value
            else forall x :: x in Values(sources) ==> x.id != id
  {
    var values := Values(sources);
    assert forall i :: 0 <= i < |values| ==> values[i] == sources[i].value;
    hide Values;
  }

  lemma UpdateIsInto(old_: Account, u: AccountUpdate)
    ensures forall a :: Updated(old_, u, a) <==> a == IntoAccount(u, old_)
  {
  }

  lemma PutAccountStages(c: Codecs, d: Disk, src: Sources, id: string, update: AccountUpdate)
    requires ValidDisk(d) && LoadSources(c, d) == Some(src)
    ensures Describes(c, d, ToBundle(src))
    ensures StagesAsAsked(c, ToBundle(src), d, PutAccount(id, update), StageEdit(c, d, src, PutAccount(id, update)))
  {
    SourcesDescribe(c, d, src);
    FindsFirstAccount(src.accounts, id);
    var b, r := ToBundle(src), PutAccount(id, update);
    var found, st := Find(src.accounts, (x: Account) => x.id == id), StageEdit(c, d, src, r);
    if found.Some? {
      var i := found.value;
      AccountStaged(c, d, src, id, update, i);
      assert b.accounts[i] in b.accounts && b.accounts[i] == src.accounts[i].value;
      hide StageEdit, LoadSources, Describes, FindFrom, Put, IntoAccount, Values, FirstAccount, Asked, Filed, Unwritable;
      AccountWritable(c, b, d, id, update, i);
      var text := c.account.update(d.accounts[i].text, IntoAccount(update, b.accounts[i]));
      if text.Some? {
        PutReplaces(d.accounts, File(d.accounts[i].name, text.value));
        AccountFiled(c, b, d, id, update, i, text.value, Put(d.accounts, File(d.accounts[i].name, text.value)));
      }
    }
  }

  lemma AccountWritable(c: Codecs, b: Bundle, d: Disk, id: string, update: AccountUpdate, i: nat)
    requires Describes(c, d, b) && FirstAccount(b.accounts, id, i) && i < |d.accounts|
    requires forall j :: FirstAccount(b.accounts, id, j) ==> j == i
    ensures Unwritable(c, b, d, PutAccount(id, update)) <==>
            c.account.update(d.accounts[i].text, IntoAccount(update, b.accounts[i])).None?
  {
    UpdateIsInto(b.accounts[i], update);
    hide IntoAccount, Updated, FirstAccount;
  }

  lemma AccountFiled(c: Codecs, b: Bundle, d: Disk, id: string, update: AccountUpdate, i: nat, text: Document, files: seq<File>)
    requires Describes(c, d, b) && FirstAccount(b.accounts, id, i) && i < |d.accounts|
    requires c.account.update(d.accounts[i].text, IntoAccount(update, b.accounts[i])) == Some(text)
    requires Replaced(d.accounts, files, d.accounts[i].name, text)
    ensures var b' := b.(accounts := b.accounts[i := IntoAccount(update, b.accounts[i])]);
            Asked(b, PutAccount(id, update), b') && Filed(c, b, d, PutAccount(id, update), b', d.(accounts := files))
  {
    var a := IntoAccount(update, b.accounts[i]);
    UpdateIsInto(b.accounts[i], update);
    assert Updated(b.accounts[i], update, a);
    hide IntoAccount, Updated, FirstAccount, Replaced, Describes;
    assert b.(accounts := b.accounts[i := a]).accounts[i] == a;
  }

  lemma AccountStaged(c: Codecs, d: Disk, src: Sources, id: string, update: AccountUpdate, i: nat)
    requires src.global.botDir in d.bots && Find(src.accounts, (x: Account) => x.id == id) == Some(i)
    ensures var b, next := ToBundle(src), IntoAccount(update, src.accounts[i].value);
            var text := c.account.update(src.accounts[i].raw, next);
            StageEdit(c, d, src, PutAccount(id, update)) ==
            if text.None? then Halted(RenderFailed)
            else Staged(b.(accounts := b.accounts[i := next]), d.(accounts := Put(d.accounts, File(src.accounts[i].name, text.value))))
  {
    hide FindFrom, Put, IntoAccount;
    var next := IntoAccount(update, src.accounts[i].value);
    assert Values(WithValue(src.accounts, i, next)) == Values(src.accounts)[i := next];
    hide Values;
  }

  /** Staging makes the one change the request asks for, in the bundle and in one file, or names what stands in its way. */
  lemma StageOnInputs(c: Codecs, d: Disk, src: Sources, r: Request)
    requires ValidDisk(d) && LoadSources(c, d) == Some(src)
    ensures Describes(c, d, ToBundle(src)) && StagesAsAsked(c, ToBundle(src), d, r, StageEdit(c, d, src, r))
  {
    hide StageEdit, StagesAsAsked, Describes, ValidDisk, LoadSources;
    match r
    case PutGlobal(global) => PutGlobalStages(c, d, src, global);
    case PutBot(id, bot) => PutBotStages(c, d, src, id, bot);
    case CreateBot(bot) => CreateBotStages(c, d, src, bot);
    case DeleteBot(id) => DeleteBotStages(c, d, src, id);
    case PutRisk(id, risk) => PutRiskStages(c, d, src, id, risk);
    case PutAccount(id, update) => PutAccountStages(c, d, src, id, update);
  }

  // ----- Which check refuses a write -----

  /** A name of one to sixty-four letters, digits, hyphens and underscores. */
  predicate Nameable(id: string) {
    1 <= |id| <= 64 && forall x :: x in id ==> !Odd(x)
  }

  /** Not a letter, digit, hyphen or underscore: the gaps between them in the character table. */
  predicate Odd(x: char) {
    x < '-' || '-' < x < '0' || '9' < x < 'A' || 'Z' < x < '_' || '_' < x < 'a' || 'z' < x
  }

  lemma NameableIsSafe(id: string)
    ensures Nameable(id) <==> SafeName(id)
  {
    if SafeName(id) {
      forall x | x in id ensures !Odd(x) {
        var i :| 0 <= i < |id| && id[i] == x;
      }
    }
    if Nameable(id) {
      forall i | 0 <= i < |id|
        ensures 'a' <= id[i] <= 'z' || 'A' <= id[i] <= 'Z' || '0' <= id[i] <= '9' || id[i] == '-' || id[i] == '_'
      {
        assert !Odd(id[i]);
      }
    }
  }

  ghost predicate FirstToStrike(checks: seq<(bool, Reason)>, i: int) {
    0 <= i < |checks| && checks[i].0 && forall j :: 0 <= j < i ==> !checks[j].0
  }

  ghost predicate NoneStrikes(checks: seq<(bool, Reason)>) { forall i :: 0 <= i < |checks| ==> !checks[i].0 }

  /** The reasons a write is refused for before there is a candidate, in order: the request, the server, the header, the directory. */
  const EARLY_REASONS: seq<Reason> :=
    [IdMismatch, UnsafeName, NotManaged, BadHeader, StaleGeneration, LoadFailed, NotFound, Duplicate, RenderFailed]

  function Listed(verdicts: seq<bool>): seq<(bool, Reason)>
    requires |verdicts| == 9
  {
    seq(9, i requires 0 <= i < 9 => (verdicts[i], EARLY_REASONS[i]))
  }

  predicate Mismatched(r: Request) { (r.PutBot? && r.bot.id != r.id) || (r.PutRisk? && r.risk.id != r.id) }

  ghost function Verdicts(c: Codecs, s: Server, r: Request, header: IfMatch): (v: seq<bool>)
    ensures |v| == 9
  {
    LoadOnInputs(c, s.disk);
    var b, d := ReadBundle(c, s.disk), s.disk;
    [Mismatched(r), r.CreateBot? && !Nameable(r.bot.id),
     !s.managed, header.Malformed?, header.Number? && header.generation != s.generation,
     b.None?, b.Some? && Missing(b.value, r), b.Some? && Taken(b.value, d, r), b.Some? && Unwritable(c, b.value, d, r)]
  }

  /** The checks before there is a candidate. */
  ghost function EarlyChecks(c: Codecs, s: Server, r: Request, header: IfMatch): seq<(bool, Reason)> {
    Listed(Verdicts(c, s, r, header))
  }

  /** Some setting of the running configuration that only a restart may change is different in `next`. */
  ghost predicate Clashes(current: Option<Bundle>, next: Bundle, running: set<string>) {
    current.Some? && exists v :: Breaks(v, current.value, next, running)
  }

  lemma ClashesIff(current: Option<Bundle>, next: Bundle, running: set<string>)
    ensures Clashes(current, next, running) <==> current.Some? && !Compatible(current.value, next, running)
  {
    if current.Some? {
      CompatibleMeansNoFinding(current.value, next, running);
    }
    hide Breaks, Compatible;
  }

  /** The checks of a candidate, in order: validation, restart scope, build, and the file on disk. */
  ghost function LateChecks(s: Server, candidate: Bundle, env: Env): seq<(bool, Reason)> {
    [(!env.valid(candidate), Invalid),
     (Clashes(s.bundle, candidate, env.running), Incompatible),
     (!env.builds(candidate), BuildFailed),
     (!env.persists, PersistFailed)]
  }

  function Position(reason: Reason): nat {
    match reason
    case IdMismatch => 0
    case UnsafeName => 1
    case NotManaged => 2
    case BadHeader => 3
    case StaleGeneration => 4
    case LoadFailed => 5
    case NotFound => 6
    case Duplicate => 7
    case RenderFailed => 8
    case Invalid => 0
    case Incompatible => 1
    case BuildFailed => 2
    case PersistFailed => 3
  }

  /** Up to the candidate: the first check that strikes, or else the one change that was asked for. */
  ghost predicate PreparesAsAsked(c: Codecs, s: Server, r: Request, header: IfMatch, st: Stage) {
    var checks := EarlyChecks(c, s, r, header);
    if st.Halted? then FirstToStrike(checks, Position(st.reason)) && checks[Position(st.reason)].1 == st.reason
    else
      && NoneStrikes(checks)
      && ReadBundle(c, s.disk).Some? && Describes(c, s.disk, ReadBundle(c, s.disk).value)
      && Asked(ReadBundle(c, s.disk).value, r, st.candidate)
      && Filed(c, ReadBundle(c, s.disk).value, s.disk, r, st.candidate, st.disk)
  }

  /** What `Prepare` stages before the candidate is vetted. */
  function Drafted(c: Codecs, s: Server, r: Request, header: IfMatch): Stage {
    if Precheck(r).Some? then Halted(Precheck(r).value) else
    if BeginRefusal(c, s, header).Some? then Halted(BeginRefusal(c, s, header).value) else
    StageEdit(c, s.disk, LoadSources(c, s.disk).value, r)
  }

  lemma PrecheckOnInputs(r: Request)
    ensures Precheck(r) ==
            if Mismatched(r) then Some(IdMismatch)
            else if r.CreateBot? && !Nameable(r.bot.id) then Some(UnsafeName) else None
  {
    if r.CreateBot? {
      NameableIsSafe(r.bot.id);
    }
    hide SafeName, Nameable;
  }

  lemma BeginOnInputs(c: Codecs, s: Server, header: IfMatch)
    ensures BeginRefusal(c, s, header) ==
            if !s.managed then Some(NotManaged)
            else if header.Malformed? then Some(BadHeader)
            else if header.Number? && header.generation != s.generation then Some(StaleGeneration)
            else if ReadBundle(c, s.disk).None? then Some(LoadFailed) else None
  {
    hide LoadSources;
  }

  /** The reason of the first verdict that strikes, or none. */
  function FirstReason(v: seq<bool>): Option<Reason>
    requires |v| == 9
  {
    if v[0] then Some(IdMismatch) else if v[1] then Some(UnsafeName) else if v[2] then Some(NotManaged)
    else if v[3] then Some(BadHeader) else if v[4] then Some(StaleGeneration) else if v[5] then Some(LoadFailed)
    else if v[6] then Some(NotFound) else if v[7] then Some(Duplicate) else if v[8] then Some(RenderFailed) else None
  }

  lemma FirstIsListed(v: seq<bool>)
    requires |v| == 9
    ensures var first, checks := FirstReason(v), Listed(v);
            if first.Some? then FirstToStrike(checks, Position(first.value)) && checks[Position(first.value)].1 == first.value
            else NoneStrikes(checks)
  {
  }

  lemma VerdictsAre(c: Codecs, s: Server, r: Request, header: IfMatch, v: seq<bool>)
    requires v == Verdicts(c, s, r, header)
    ensures v[0] <==> Mismatched(r)
    ensures v[1] <==> r.CreateBot? && !Nameable(r.bot.id)
    ensures v[2] <==> !s.managed
    ensures v[3] <==> header.Malformed?
    ensures v[4] <==> header.Number? && header.generation != s.generation
    ensures v[5] <==> ReadBundle(c, s.disk).None?
    ensures ReadBundle(c, s.disk).Some? ==> Describes(c, s.disk, ReadBundle(c, s.disk).value)
    ensures ReadBundle(c, s.disk).Some? ==>
              var b := ReadBundle(c, s.disk).value;
              (v[6] <==> Missing(b, r)) && (v[7] <==> Taken(b, s.disk, r)) && (v[8] <==> Unwritable(c, b, s.disk, r))
  {
    LoadOnInputs(c, s.disk);
    hide ReadBundle, Describes, Missing, Taken, Unwritable, Nameable, Mismatched;
  }

  /** What the directory and the request make of each other, once the checks before them have passed. */
  ghost predicate StagedOrHalted(c: Codecs, s: Server, r: Request, first: Option<Reason>, st: Stage) {
    var b := ReadBundle(c, s.disk);
    if first.Some? then st == Halted(first.value)
    else
      && st.Staged? && b.Some? && Describes(c, s.disk, b.value)
      && Asked(b.value, r, st.candidate) && Filed(c, b.value, s.disk, r, st.candidate, st.disk)
  }

  lemma StageIsFirst(c: Codecs, s: Server, r: Request, header: IfMatch, v: seq<bool>)
    requires ValidDisk(s.disk) && v == Verdicts(c, s, r, header)
    requires !v[0] && !v[1] && !v[2] && !v[3] && !v[4] && !v[5]
    ensures LoadSources(c, s.disk).Some?
    ensures StagedOrHalted(c, s, r, FirstReason(v), StageEdit(c, s.disk, LoadSources(c, s.disk).value, r))
  {
    VerdictsAre(c, s, r, header, v);
    assert LoadSources(c, s.disk).Some?;
    StageOnInputs(c, s.disk, LoadSources(c, s.disk).value, r);
    assert ReadBundle(c, s.disk) == Some(ToBundle(LoadSources(c, s.disk).value));
    hide StageEdit, ReadBundle, Describes, Asked, Filed, Missing, Taken, Unwritable, Nameable, ToBundle, ValidDisk, LoadSources,
         Mismatched, Verdicts;
  }

  lemma PrecheckIsFirst(c: Codecs, s: Server, r: Request, header: IfMatch, v: seq<bool>)
    requires v == Verdicts(c, s, r, header)
    ensures Precheck(r).Some? <==> v[0] || v[1]
    ensures Precheck(r).Some? ==> FirstReason(v) == Precheck(r)
  {
    VerdictsAre(c, s, r, header, v);
    PrecheckOnInputs(r);
    hide Verdicts, ReadBundle, Describes, Missing, Taken, Unwritable, Nameable, Mismatched, Precheck;
  }

  lemma BeginIsFirst(c: Codecs, s: Server, r: Request, header: IfMatch, v: seq<bool>)
    requires v == Verdicts(c, s, r, header)
    ensures BeginRefusal(c, s, header).Some? <==> v[2] || v[3] || v[4] || v[5]
    ensures BeginRefusal(c, s, header).Some? && !v[0] && !v[1] ==> FirstReason(v) == BeginRefusal(c, s, header)
  {
    VerdictsAre(c, s, r, header, v);
    BeginOnInputs(c, s, header);
    hide Verdicts, ReadBundle, Describes, Missing, Taken, Unwritable, Nameable, Mismatched, BeginRefusal;
  }

  lemma DraftIsFirst(c: Codecs, s: Server, r: Request, header: IfMatch, v: seq<bool>)
    requires ValidDisk(s.disk) && v == Verdicts(c, s, r, header)
    ensures StagedOrHalted(c, s, r, FirstReason(v), Drafted(c, s, r, header))
  {
    PrecheckIsFirst(c, s, r, header, v);
    BeginIsFirst(c, s, r, header, v);
    if !v[0] && !v[1] && !v[2] && !v[3] && !v[4] && !v[5] {
      StageIsFirst(c, s, r, header, v);
      hide StagedOrHalted, StageEdit, LoadSources, Precheck, BeginRefusal, Verdicts, FirstReason, ValidDisk;
    } else {
      hide StageEdit, LoadSources, Precheck, BeginRefusal, Verdicts, FirstReason, ValidDisk;
    }
  }

  lemma DraftOnInputs(c: Codecs, s: Server, r: Request, header: IfMatch)
    requires ValidDisk(s.disk)
    ensures PreparesAsAsked(c, s, r, header, Drafted(c, s, r, header))
  {
    var v := Verdicts(c, s, r, header);
    DraftIsFirst(c, s, r, header, v);
    FirstIsListed(v);
    var first, st := FirstReason(v), Drafted(c, s, r, header);
    assert EarlyChecks(c, s, r, header) == Listed(v);
    hide *;
    PreparesWhen(c, s, r, header, first, st);
  }

  lemma PreparesWhen(c: Codecs, s: Server, r: Request, header: IfMatch, first: Option<Reason>, st: Stage)
    requires StagedOrHalted(c, s, r, first, st)
    requires var checks := EarlyChecks(c, s, r, header);
             if first.Some? then FirstToStrike(checks, Position(first.value)) && checks[Position(first.value)].1 == first.value
             else NoneStrikes(checks)
    ensures PreparesAsAsked(c, s, r, header, st)
  {
    hide EarlyChecks, FirstToStrike, NoneStrikes, ReadBundle, Describes, Asked, Filed, Position;
  }

  lemma VetOnInputs(s: Server, st: Stage, env: Env)
    requires st.Staged?
    ensures var checks, vetted := LateChecks(s, st.candidate, env), Vet(s, st, env);
            if vetted.Halted? then FirstToStrike(checks, Position(vetted.reason)) && checks[Position(vetted.reason)].1 == vetted.reason
            else vetted == st && !checks[0].0 && !checks[1].0 && !checks[2].0
  {
    ClashesIff(s.bundle, st.candidate, env.running);
    hide Clashes, Compatible;
  }

  /** The first check that strikes gives `reason`: before the candidate, or on the candidate asked for. */
  ghost predicate RefusedFor(c: Codecs, s: Server, r: Request, header: IfMatch, env: Env, reason: Reason) {
    var early, b, i := EarlyChecks(c, s, r, header), ReadBundle(c, s.disk), Position(reason);
    || (FirstToStrike(early, i) && early[i].1 == reason)
    || (NoneStrikes(early) && b.Some? && exists b' ::
          Asked(b.value, r, b') && FirstToStrike(LateChecks(s, b', env), i) && LateChecks(s, b', env)[i].1 == reason)
  }

  /** No check strikes; bundle and directory show the one change asked for, and the generation moves by one. */
  ghost predicate AppliedAsAsked(c: Codecs, s: Server, r: Request, header: IfMatch, env: Env, s': Server) {
    var b := ReadBundle(c, s.disk);
    && NoneStrikes(EarlyChecks(c, s, r, header)) && b.Some? && Describes(c, s.disk, b.value)
    && s'.bundle.Some? && Asked(b.value, r, s'.bundle.value)
    && NoneStrikes(LateChecks(s, s'.bundle.value, env))
    && Filed(c, b.value, s.disk, r, s'.bundle.value, s'.disk)
    && s'.generation == s.generation + 1 && s'.managed == s.managed
  }

  lemma WriteIsVetted(c: Codecs, s: Server, r: Request, header: IfMatch, env: Env)
    ensures var st := Drafted(c, s, r, header);
            var (s', response) := Write(c, s, r, header, env);
            if st.Halted? then s' == s && response == Refused(st.reason)
            else
              var vetted := Vet(s, st, env);
              if vetted.Halted? then s' == s && response == Refused(vetted.reason)
              else if !env.persists then s' == s && response == Refused(PersistFailed)
              else
                && s'.bundle == Some(vetted.candidate) && s'.disk == vetted.disk
                && s'.generation == s.generation + 1 && s'.managed == s.managed && response == Applied(s.generation + 1)
  {
    hide StageEdit, LoadSources, Precheck, BeginRefusal, Vet, Push;
  }

  /**
   * A write is refused for the first check that strikes, and then nothing changes. Otherwise the bundle is what
   * the directory described with the one change asked for, one file is written for it, and the generation
   * moves by one.
   */
  lemma WriteOnInputs(c: Codecs, s: Server, r: Request, header: IfMatch, env: Env)
    requires ValidDisk(s.disk)
    ensures var (s', response) := Write(c, s, r, header, env);
            match response
            case Unchanged => false
            case Refused(reason) => s' == s && RefusedFor(c, s, r, header, env, reason)
            case Applied(generation) => generation == s.generation + 1 && AppliedAsAsked(c, s, r, header, env, s')
  {
    WriteIsVetted(c, s, r, header, env);
    DraftOnInputs(c, s, r, header);
    hide *;
    var st := Drafted(c, s, r, header);
    if st.Halted? {
      RefusedEarly(c, s, r, header, env, st);
    } else {
      LateOutcome(c, s, r, header, env, st, Write(c, s, r, header, env).0, Write(c, s, r, header, env).1);
    }
  }

  lemma RefusedEarly(c: Codecs, s: Server, r: Request, header: IfMatch, env: Env, st: Stage)
    requires st.Halted? && PreparesAsAsked(c, s, r, header, st)
    ensures RefusedFor(c, s, r, header, env, st.reason)
  {
    hide EarlyChecks, ReadBundle, Describes, Asked, Filed, NoneStrikes, LateChecks, FirstToStrike;
  }

  lemma LateOutcome(c: Codecs, s: Server, r: Request, header: IfMatch, env: Env, st: Stage, s': Server, response: Response)
    requires st.Staged? && PreparesAsAsked(c, s, r, header, st)
    requires var vetted := Vet(s, st, env);
             if vetted.Halted? then s' == s && response == Refused(vetted.reason)
             else if !env.persists then s' == s && response == Refused(PersistFailed)
             else
               && s'.bundle == Some(vetted.candidate) && s'.disk == vetted.disk
               && s'.generation == s.generation + 1 && s'.managed == s.managed && response == Applied(s.generation + 1)
    ensures match response
            case Unchanged => false
            case Refused(reason) => s' == s && RefusedFor(c, s, r, header, env, reason)
            case Applied(generation) => generation == s.generation + 1 && AppliedAsAsked(c, s, r, header, env, s')
  {
    hide Vet, Clashes, RefusedFor, AppliedAsAsked, PreparesAsAsked, FirstToStrike, NoneStrikes;
    VetOnInputs(s, st, env);
    LateVerdicts(s, st.candidate, env);
    var vetted := Vet(s, st, env);
    hide LateChecks;
    if vetted.Halted? {
      RefusedLate(c, s, r, header, env, st, vetted.reason);
    } else if !env.persists {
      RefusedLate(c, s, r, header, env, st, PersistFailed);
    } else {
      AppliedLate(c, s, r, header, env, st, s');
    }
  }

  lemma RefusedLate(c: Codecs, s: Server, r: Request, header: IfMatch, env: Env, st: Stage, reason: Reason)
    requires st.Staged? && PreparesAsAsked(c, s, r, header, st)
    requires FirstToStrike(LateChecks(s, st.candidate, env), Position(reason))
    requires LateChecks(s, st.candidate, env)[Position(reason)].1 == reason
    ensures RefusedFor(c, s, r, header, env, reason)
  {
    hide EarlyChecks, ReadBundle, Describes, Asked, Filed, NoneStrikes, LateChecks, FirstToStrike;
  }

  lemma AppliedLate(c: Codecs, s: Server, r: Request, header: IfMatch, env: Env, st: Stage, s': Server)
    requires st.Staged? && PreparesAsAsked(c, s, r, header, st) && NoneStrikes(LateChecks(s, st.candidate, env))
    requires s'.bundle == Some(st.candidate) && s'.disk == st.disk
    requires s'.generation == s.generation + 1 && s'.managed == s.managed
    ensures AppliedAsAsked(c, s, r, header, env, s')
  {
    hide EarlyChecks, ReadBundle, Describes, Asked, Filed, NoneStrikes, LateChecks;
  }

  lemma LateVerdicts(s: Server, candidate: Bundle, env: Env)
    ensures var checks := LateChecks(s, candidate, env);
            && (!checks[0].0 && !checks[1].0 && !checks[2].0 ==>
                  if env.persists then NoneStrikes(checks) else FirstToStrike(checks, 3) && checks[3].1 == PersistFailed)
  {
    hide Clashes;
  }

  // ----- Reloading -----

  /**
   * A reload of a managed directory: unreadable or invalid it fails, unchanged it is idle, out of the restart
   * scope it is rejected, and otherwise the bundle it describes is built and applied.
   */
  lemma ReloadOnInputs(c: Codecs, s: Server, trigger: Trigger, env: Env)
    ensures var (s', response) := Reload(c, s, trigger, env);
            var b := ReadBundle(c, s.disk);
            && s'.disk == s.disk && s'.managed == s.managed
            && (if !s.managed then s' == s && response == Refused(NotManaged)
                else if !env.dotenv || b.None? || !env.valid(b.value) then
                  s'.bundle == s.bundle && s'.generation == s.generation && response == Refused(LoadFailed)
                else if s.bundle == b then
                  s'.bundle == s.bundle && s'.generation == s.generation && response == Unchanged
                else if Clashes(s.bundle, b.value, env.running) then
                  s'.bundle == s.bundle && s'.generation == s.generation && response == Refused(Incompatible)
                else if !env.builds(b.value) then
                  s'.bundle == s.bundle && s'.generation == s.generation && response == Refused(BuildFailed)
                else
                  s'.bundle == b && s'.generation == s.generation + 1 && response == Applied(s.generation + 1))
  {
    if ReadBundle(c, s.disk).Some? {
      ClashesIff(s.bundle, ReadBundle(c, s.disk).value, env.running);
    }
    hide ReadBundle, Clashes, Compatible, Push;
  }
}
