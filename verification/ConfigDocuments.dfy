/**
 * The codec the configuration pipeline really uses: entities serialised to
 * values, documents edited in place, and read back through a schema. It obeys
 * the law the pipeline's theorems ask for.
 */
module ConfigDocuments {
  import opened Options
  import opened DocumentPatch
  import opened ConfigSources
  import opened ConfigPipeline
  import opened ConfigRuns
  import opened ChangeSets
  import opened ConfigSchemas
  import opened ConfigFormats

  ghost predicate Serialises<T(!new)>(f: Format<T>) {
    TableShaped(f.schema) && Coherent(f.schema) && RoundTrips(f)
  }

  /** For the service's own documents nothing is asked of the defaults. */
  lemma ConfigFormatsSerialise<T(!new)>(f: Format<T>)
    requires IsConfigSchema(f.schema) && RoundTrips(f)
    ensures Serialises(f)
  {
    ConfigSchemasAreCoherent(f.schema);
    hide IsConfigSchema, Coherent, RoundTrips;
  }

  /** Reads a document through the schema, defaults filled in. */
  ghost function Parse<T>(f: Format<T>, doc: Document): Option<T> {
    var value := Normal(f.schema, Read(doc));
    if doc.Table? && value.Some? then f.read(value.value) else None
  }

  ghost function Update<T>(f: Format<T>, doc: Document, next: T): Option<Document> {
    if TableShaped(f.schema) && doc.Table? && f.write(next).Tbl?
    then RenderUpdated(f.schema, doc, f.write(next)) else None
  }

  ghost function DocumentCodec<T>(f: Format<T>): Codec<T> {
    Codec(
      (doc: Document) => Parse(f, doc),
      (doc: Document, v: T) => Update(f, doc, v),
      (v: T) => Some(ValueToItem(f.write(v))))
  }

  lemma UpdateParses<T(!new)>(f: Format<T>, doc: Document, v: T)
    requires Serialises(f) && Update(f, doc, v).Some?
    ensures Parse(f, Update(f, doc, v).value) == Some(v)
  {
    UpdatedDocumentMeansNext(f.schema, doc, f.write(v));
    hide Coherent, Saturated, Normal, Patched, Read;
  }

  lemma RenderParses<T(!new)>(f: Format<T>, v: T)
    requires Serialises(f)
    ensures Parse(f, ValueToItem(f.write(v))) == Some(v)
  {
    ItemReadsBack(f.write(v));
    assert ValueToItem(f.write(v)).Table?;
    hide Coherent, Normal, Read, ValueToItem;
  }

  /** Whatever is updated or freshly rendered reads back as the entity written. */
  lemma DocumentCodecIsLawful<T(!new)>(f: Format<T>)
    requires Serialises(f)
    ensures Lawful(DocumentCodec(f))
  {
    var c := DocumentCodec(f);
    forall doc, v | c.update(doc, v).Some? ensures c.parse(c.update(doc, v).value) == Some(v) {
      UpdateParses(f, doc, v);
    }
    forall v ensures c.parse(c.render(v).value) == Some(v) {
      RenderParses(f, v);
    }
    hide Serialises, Parse, Update, ValueToItem;
  }

  datatype Formats = Formats(
    global: Format<Global>,
    account: Format<Account>,
    risk: Format<RiskProfile>,
    bot: Format<Bot>)

  ghost predicate AllSerialise(f: Formats) {
    Serialises(f.global) && Serialises(f.account) && Serialises(f.risk) && Serialises(f.bot)
  }

  ghost function DocumentCodecs(f: Formats): Codecs {
    Codecs(DocumentCodec(f.global), DocumentCodec(f.account), DocumentCodec(f.risk), DocumentCodec(f.bot))
  }

  lemma DocumentCodecsAreLawful(f: Formats)
    requires AllSerialise(f)
    ensures AllLawful(DocumentCodecs(f))
  {
    hide Serialises, Lawful, DocumentCodec;
    DocumentCodecIsLawful(f.global);
    DocumentCodecIsLawful(f.account);
    DocumentCodecIsLawful(f.risk);
    DocumentCodecIsLawful(f.bot);
  }

  /** Edits from outside leave directory listings behind. */
  ghost predicate EditsAreListings(events: seq<Event>) {
    forall i :: 0 <= i < |events| && events[i].EditEvent? ==> ValidDisk(events[i].disk)
  }

  /**
   * From the document tree to the running service: with coherent formats, a write applied
   * after any run leaves documents that read back as the bundle in memory, exactly when
   * `WillReadBack`.
   */
  lemma WrittenDocumentsReadBack(
    f: Formats, s: Server, events: seq<Event>, r: Request, header: IfMatch, env: ConfigPipeline.Env)
    requires AllSerialise(f) && ValidDisk(s.disk) && EditsAreListings(events)
    ensures var c := DocumentCodecs(f);
            var before := Run(c, s, events);
            var (after, response) := Write(c, before, r, header, env);
            response.Applied? ==>
              LoadSources(c, before.disk).Some? &&
              (ReadBundle(c, after.disk) == after.bundle <==> WillReadBack(c, before.disk, r))
  {
    hide AllSerialise, AllLawful, DocumentCodecs, WillReadBack;
    DocumentCodecsAreLawful(f);
    var c := DocumentCodecs(f);
    if Write(c, Run(c, s, events), r, header, env).1.Applied? {
      EveryAppliedWriteReadsBack(c, s, events, r, header, env);
    }
  }

  // ----- The exceptions, through document codecs -----

  lemma DocumentCodecsWriteExample(f: Formats, x: Example)
    requires AllSerialise(f) && IsExample(x)
    ensures WritesExample(DocumentCodecs(f), x)
  {
    var g := f.global;
    var doc := ValueToItem(g.write(x.Edited()));
    ItemReadsBack(g.write(x.Edited()));
    assert doc.Table?;
    assert Normal(g.schema, Read(doc)).Some?;
    hide ValueToItem, Read, Normal, Coherent, Patched;
  }

  /** Whatever the formats and the other settings, the two exceptions of the read-back law show on real documents. */
  lemma ExceptionsOnDocuments(f: Formats, x: Example)
    requires AllSerialise(f) && IsExample(x)
    ensures var c := DocumentCodecs(f);
            && WritesExample(c, x)
            && (var d := OneBotDisk(c, x.global, map["bots" := [FileOf(c, x.b)]]);
                var next := Write(c, Server(true, Some(x.Before()), 0, [], d), CreateBot(x.a), IfMatch.Absent, CALM).0;
                next.generation == 1 && ReadBundle(c, next.disk) != next.bundle)
            && (var d := OneBotDisk(c, x.Edited(), map["bots" := [FileOf(c, x.b)], "x" := [FileOf(c, x.a)]]);
                var next := Write(c, Server(true, Some(x.Before()), 0, [], d), PutGlobal(x.global), IfMatch.Absent, CALM).0;
                next.generation == 1 && ReadBundle(c, next.disk) != next.bundle)
  {
    hide AllSerialise, AllLawful, DocumentCodecs, WritesExample, ReadBundle, Prepare;
    DocumentCodecsAreLawful(f);
    DocumentCodecsWriteExample(f, x);
    CreatedOutOfOrder(DocumentCodecs(f), x);
    PointedBackReadsOtherBots(DocumentCodecs(f), x);
    assert x.a.id[0] != x.b.id[0];
    assert [x.b, x.a][0] != [x.a, x.b][0] && [x.a][0] != [x.b][0];
  }

  // ----- The service's own formats -----

  ghost const SERVICE_FORMATS := Formats(GLOBAL_FORMAT, ACCOUNT_FORMAT, RISK_FORMAT, BOT_FORMAT)

  lemma ServiceFormatsSerialise()
    ensures AllSerialise(SERVICE_FORMATS)
  {
    ServiceFormatsRoundTrip();
    hide RoundTrips, Serialises, StructOf;
    ConfigFormatsSerialise(GLOBAL_FORMAT);
    ConfigFormatsSerialise(ACCOUNT_FORMAT);
    ConfigFormatsSerialise(RISK_FORMAT);
    ConfigFormatsSerialise(BOT_FORMAT);
  }

  /**
   * For the documents the service really writes, with nothing assumed of them: a write applied after
   * any run leaves a directory that reads back as the bundle in memory, exactly when `WillReadBack`;
   * and both exceptions occur.
   */
  lemma ServiceDocumentsReadBack(s: Server, events: seq<Event>, r: Request, header: IfMatch, env: ConfigPipeline.Env)
    requires ValidDisk(s.disk) && EditsAreListings(events)
    ensures var c := DocumentCodecs(SERVICE_FORMATS);
            var before := Run(c, s, events);
            var (after, response) := Write(c, before, r, header, env);
            response.Applied? ==>
              LoadSources(c, before.disk).Some? &&
              (ReadBundle(c, after.disk) == after.bundle <==> WillReadBack(c, before.disk, r))
  {
    ServiceFormatsSerialise();
    hide AllSerialise, DocumentCodecs, WillReadBack, Write, Run;
    WrittenDocumentsReadBack(SERVICE_FORMATS, s, events, r, header, env);
  }
}
