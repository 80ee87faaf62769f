/**
 * The configuration directory: files in ascending name order, and the sources
 * read from them. A codec stands for reading, rewriting and freshly rendering
 * the document of one kind of entity.
 */
module ConfigSources {
  import opened Options
  import opened Orders
  import opened ChangeSets
  import DocumentPatch

  /** The document in a file. */
  type Document = DocumentPatch.Item

  datatype File = File(name: string, text: Document)

  /** A directory as a listing in ascending name order. */
  ghost predicate Listing(files: seq<File>) {
    forall i, j :: 0 <= i < j < |files| ==> Before(files[i].name, files[j].name)
  }

  predicate Before(a: string, b: string) { a != b && StringLe(a, b) }

  datatype Disk = Disk(
    global: Option<Document>,
    accounts: seq<File>,
    risks: seq<File>,
    bots: map<string, seq<File>>)

  ghost predicate ValidDisk(d: Disk) {
    && Listing(d.accounts)
    && Listing(d.risks)
    && forall dir :: dir in d.bots ==> Listing(d.bots[dir])
  }

  /** Replaces or creates a file. */
  function Put(files: seq<File>, f: File): seq<File>
    decreases |files|
  {
    if files == [] then [f]
    else if files[0].name == f.name then [f] + files[1..]
    else if StringLe(f.name, files[0].name) then [f] + files
    else [files[0]] + Put(files[1..], f)
  }

  function Remove(files: seq<File>, name: string): seq<File>
    decreases |files|
  {
    if files == [] then []
    else if files[0].name == name then files[1..]
    else [files[0]] + Remove(files[1..], name)
  }

  predicate Exists(files: seq<File>, name: string) {
    exists i :: 0 <= i < |files| && files[i].name == name
  }

  /** How many files come before `name`. */
  function Rank(files: seq<File>, name: string): (r: nat)
    ensures r <= |files|
    decreases |files|
  {
    if files == [] || StringLe(name, files[0].name) then 0 else 1 + Rank(files[1..], name)
  }

  // ----- Reading -----

  datatype Codec<!T> = Codec(
    parse: Document -> Option<T>,
    update: (Document, T) -> Option<Document>,
    render: T -> Option<Document>)

  /** Whatever a codec renders reads back as the value it rendered. */
  ghost predicate Lawful<T(!new)>(c: Codec<T>) {
    && (forall raw, v :: c.update(raw, v).Some? ==> c.parse(c.update(raw, v).value) == Some(v))
    && (forall v :: c.render(v).Some? ==> c.parse(c.render(v).value) == Some(v))
  }

  datatype Codecs = Codecs(
    global: Codec<Global>,
    account: Codec<Account>,
    risk: Codec<RiskProfile>,
    bot: Codec<Bot>)

  ghost predicate AllLawful(c: Codecs) {
    Lawful(c.global) && Lawful(c.account) && Lawful(c.risk) && Lawful(c.bot)
  }

  datatype Source<T> = Source(name: string, raw: Document, value: T)

  /** Reads every file of a directory, in order; one unreadable file fails the whole. */
  function ReadDir<T>(files: seq<File>, parse: Document -> Option<T>): (r: Option<seq<Source<T>>>)
    ensures r.Some? ==> |r.value| == |files|
    decreases |files|
  {
    if files == [] then Some([])
    else
      var head := parse(files[0].text);
      var rest := ReadDir(files[1..], parse);
      if head.None? || rest.None? then None
      else Some([Source(files[0].name, files[0].text, head.value)] + rest.value)
  }

  datatype Sources = Sources(
    globalRaw: Document,
    global: Global,
    accounts: seq<Source<Account>>,
    risks: seq<Source<RiskProfile>>,
    bots: seq<Source<Bot>>)

  function LoadSources(c: Codecs, d: Disk): (r: Option<Sources>)
    ensures r.Some? ==> r.value.global.botDir in d.bots
  {
    if d.global.None? then None else
    var global := c.global.parse(d.global.value);
    if global.None? || global.value.botDir !in d.bots then None else
    var accounts := ReadDir(d.accounts, c.account.parse);
    var risks := ReadDir(d.risks, c.risk.parse);
    var bots := ReadDir(d.bots[global.value.botDir], c.bot.parse);
    if accounts.None? || risks.None? || bots.None? then None
    else Some(Sources(d.global.value, global.value, accounts.value, risks.value, bots.value))
  }

  function Values<T>(sources: seq<Source<T>>): seq<T> {
    seq(|sources|, i requires 0 <= i < |sources| => sources[i].value)
  }

  function ToBundle(s: Sources): Bundle {
    Bundle(s.global, Values(s.accounts), Values(s.risks), Values(s.bots))
  }

  /** What a load of the directory yields, before validation. */
  function ReadBundle(c: Codecs, d: Disk): Option<Bundle> {
    var sources := LoadSources(c, d);
    if sources.None? then None else Some(ToBundle(sources.value))
  }

  // ----- Reading after one file changed -----

  lemma {:induction false} ReadDirAt<T>(files: seq<File>, parse: Document -> Option<T>, i: nat)
    requires ReadDir(files, parse).Some? && i < |files|
    ensures ReadDir(files, parse).value[i].name == files[i].name
    ensures ReadDir(files, parse).value[i].raw == files[i].text
    ensures Some(ReadDir(files, parse).value[i].value) == parse(files[i].text)
    decreases |files|
  {
    if i > 0 {
      ReadDirAt(files[1..], parse, i - 1);
    }
  }

  lemma ListingTail(files: seq<File>)
    requires Listing(files) && files != []
    ensures Listing(files[1..])
  {
  }

  lemma BeforeIsStrict(a: string, b: string)
    requires Before(a, b)
    ensures !StringLe(b, a)
  {
    if StringLe(b, a) {
      StringLeAntisymmetric(a, b);
    }
  }

  lemma ReadCons<T>(f: File, rest: seq<File>, parse: Document -> Option<T>)
    requires parse(f.text).Some? && ReadDir(rest, parse).Some?
    ensures ReadDir([f] + rest, parse) ==
            Some([Source(f.name, f.text, parse(f.text).value)] + ReadDir(rest, parse).value)
  {
    assert ([f] + rest)[1..] == rest;
  }

  lemma DropBehindHead<T>(head: T, tail: seq<T>, i: nat)
    requires 0 < i <= |tail|
    ensures var all := [head] + tail; all[..i] + all[i + 1..] == [head] + (tail[..i - 1] + tail[i..])
  {
    var all := [head] + tail;
    assert all[..i] == [head] + tail[..i - 1] && all[i + 1..] == tail[i..];
  }

  lemma InsertBehindHead<T>(head: T, tail: seq<T>, k: nat, x: T)
    requires k <= |tail|
    ensures var all := [head] + tail;
            all[..k + 1] + [x] + all[k + 1..] == [head] + (tail[..k] + [x] + tail[k..])
  {
    var all := [head] + tail;
    assert all[..k + 1] == [head] + tail[..k] && all[k + 1..] == tail[k..];
  }

  lemma {:induction false} ReadReplaced<T>(files: seq<File>, parse: Document -> Option<T>, i: nat, text: Document, v: T)
    requires Listing(files) && i < |files| && ReadDir(files, parse).Some? && parse(text) == Some(v)
    ensures ReadDir(Put(files, File(files[i].name, text)), parse) ==
            Some(ReadDir(files, parse).value[i := Source(files[i].name, text, v)])
    decreases |files|
  {
    var f := File(files[i].name, text);
    var all, tail := ReadDir(files, parse).value, ReadDir(files[1..], parse).value;
    if i == 0 {
      ReadCons(f, files[1..], parse);
      assert all[0 := Source(f.name, text, v)] == [Source(f.name, text, v)] + tail;
    } else {
      assert Before(files[0].name, files[i].name);
      BeforeIsStrict(files[0].name, files[i].name);
      ListingTail(files);
      ReadReplaced(files[1..], parse, i - 1, text, v);
      ReadCons(files[0], Put(files[1..], f), parse);
      assert all[i := Source(f.name, text, v)] == [all[0]] + tail[i - 1 := Source(f.name, text, v)];
    }
  }

  lemma {:induction false} ReadCreated<T>(files: seq<File>, parse: Document -> Option<T>, f: File, v: T)
    requires !Exists(files, f.name) && ReadDir(files, parse).Some? && parse(f.text) == Some(v)
    ensures var old_, k := ReadDir(files, parse).value, Rank(files, f.name);
            ReadDir(Put(files, f), parse) == Some(old_[..k] + [Source(f.name, f.text, v)] + old_[k..])
    decreases |files|
  {
    var x := Source(f.name, f.text, v);
    var all := ReadDir(files, parse).value;
    if files == [] || StringLe(f.name, files[0].name) {
      ReadCons(f, files, parse);
      assert files == [] ==> [f] + files == [f];
      assert all[..0] + [x] + all[0..] == [x] + all;
    } else {
      assert forall i :: 0 <= i < |files[1..]| ==> files[1..][i] == files[i + 1];
      ReadCreated(files[1..], parse, f, v);
      ReadCons(files[0], Put(files[1..], f), parse);
      var tail, k := ReadDir(files[1..], parse).value, Rank(files[1..], f.name);
      assert all == [all[0]] + tail;
      InsertBehindHead(all[0], tail, k, x);
    }
  }

  lemma {:induction false} ReadRemoved<T>(files: seq<File>, parse: Document -> Option<T>, i: nat)
    requires Listing(files) && i < |files| && ReadDir(files, parse).Some?
    ensures ReadDir(Remove(files, files[i].name), parse) ==
            Some(ReadDir(files, parse).value[..i] + ReadDir(files, parse).value[i + 1..])
    decreases |files|
  {
    var all, tail := ReadDir(files, parse).value, ReadDir(files[1..], parse).value;
    assert all == [all[0]] + tail;
    if i == 0 {
      assert all[..0] + all[1..] == tail;
    } else {
      assert Before(files[0].name, files[i].name);
      ListingTail(files);
      hide Listing, Before, StringLe;
      ReadRemoved(files[1..], parse, i - 1);
      ReadCons(files[0], Remove(files[1..], files[i].name), parse);
      DropBehindHead(all[0], tail, i);
    }
  }

  // ----- Listings stay listings -----

  lemma {:induction false} PutMembers(files: seq<File>, f: File, g: File)
    requires g in Put(files, f)
    ensures g == f || g in files
    decreases |files|
  {
    if files != [] && files[0].name != f.name && !StringLe(f.name, files[0].name) && g != files[0] {
      assert g in Put(files[1..], f);
      PutMembers(files[1..], f, g);
    }
  }

  lemma ListingCons(f: File, files: seq<File>)
    requires Listing(files) && forall g :: g in files ==> Before(f.name, g.name)
    ensures Listing([f] + files)
  {
    var all := [f] + files;
    forall i, j | 0 <= i < j < |all| ensures Before(all[i].name, all[j].name) {
      assert all[j] == files[j - 1] && files[j - 1] in files;
    }
  }

  lemma ListingHead(files: seq<File>, g: File)
    requires Listing(files) && files != [] && g in files[1..]
    ensures Before(files[0].name, g.name)
  {
    var i :| 0 <= i < |files[1..]| && files[1..][i] == g;
    assert files[i + 1] == g;
  }

  lemma {:induction false} PutKeepsListing(files: seq<File>, f: File)
    requires Listing(files)
    ensures Listing(Put(files, f))
    decreases |files|
  {
    if files != [] {
      ListingTail(files);
      if files[0].name == f.name {
        forall g | g in files[1..] ensures Before(f.name, g.name) { ListingHead(files, g); }
        ListingCons(f, files[1..]);
      } else if StringLe(f.name, files[0].name) {
        forall g | g in files ensures Before(f.name, g.name) {
          if g != files[0] {
            assert files == [files[0]] + files[1..];
            ListingHead(files, g);
            StringLeTransitive(f.name, files[0].name, g.name);
            BeforeIsStrict(files[0].name, g.name);
          }
        }
        ListingCons(f, files);
      } else {
        PutKeepsListing(files[1..], f);
        forall g | g in Put(files[1..], f) ensures Before(files[0].name, g.name) {
          PutMembers(files[1..], f, g);
          if g in files[1..] {
            ListingHead(files, g);
          } else {
            StringLeTotal(files[0].name, f.name);
          }
        }
        ListingCons(files[0], Put(files[1..], f));
      }
    }
  }

  lemma {:induction false} RemoveMembers(files: seq<File>, name: string, g: File)
    requires g in Remove(files, name)
    ensures g in files
    decreases |files|
  {
    if files[0].name != name && g != files[0] {
      assert g in Remove(files[1..], name);
      RemoveMembers(files[1..], name, g);
    }
  }

  lemma {:induction false} RemoveKeepsListing(files: seq<File>, name: string)
    requires Listing(files)
    ensures Listing(Remove(files, name))
    decreases |files|
  {
    if files != [] {
      ListingTail(files);
      if files[0].name != name {
        RemoveKeepsListing(files[1..], name);
        forall g | g in Remove(files[1..], name) ensures Before(files[0].name, g.name) {
          RemoveMembers(files[1..], name, g);
          ListingHead(files, g);
        }
        ListingCons(files[0], Remove(files[1..], name));
      }
    }
  }

  /** A new file is read last exactly when its name follows every other. */
  lemma {:induction false} RankIsLast(files: seq<File>, name: string)
    requires Listing(files)
    ensures Rank(files, name) == |files| <==> forall i :: 0 <= i < |files| ==> !StringLe(name, files[i].name)
    decreases |files|
  {
    if files != [] {
      ListingTail(files);
      RankIsLast(files[1..], name);
      if !StringLe(name, files[0].name) {
        assert forall i :: 0 <= i < |files[1..]| ==> files[1..][i] == files[i + 1];
        assert forall i :: 1 <= i < |files| ==> files[i] == files[1..][i - 1];
      }
    }
  }
}
