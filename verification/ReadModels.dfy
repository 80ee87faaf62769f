/**
 * Operator read models: bounded projections that are bootstrapped from the journal
 * and then written alongside it.
 */
module ReadModels {
  import opened Options
  import opened Feeds

  const GLOBAL_FEED_CAPACITY: nat := 2048
  const BOT_FEED_CAPACITY: nat := 512
  const ENTITY_TIMELINE_CAPACITY: nat := 512
  const I64_MAX: int := 0x7FFF_FFFF_FFFF_FFFF

  datatype RuntimeEvent = RuntimeEvent(id: int, scope: string, entity: Option<string>, payload: string)

  datatype EventWrite = EventWrite(scope: string, entity: Option<string>, payload: string)

  datatype Reconciliation = Reconciliation(id: int, bot: string, symbol: string, detail: string)

  datatype ReconciliationWrite = ReconciliationWrite(bot: string, symbol: string, detail: string)

  /** `saturating_add(1)` on 64-bit ids. */
  function Succ(id: int): int { if id < I64_MAX then id + 1 else I64_MAX }

  function Max(a: int, b: int): int { if a < b then b else a }

  function EventRecord(w: EventWrite, id: int): RuntimeEvent {
    RuntimeEvent(id, w.scope, w.entity, w.payload)
  }

  function ReconciliationRecord(w: ReconciliationWrite, id: int): Reconciliation {
    Reconciliation(id, w.bot, w.symbol, w.detail)
  }

  function InScope(scope: string): RuntimeEvent -> bool { (e: RuntimeEvent) => e.scope == scope }

  function ForEntity(entity: string): RuntimeEvent -> bool { (e: RuntimeEvent) => e.entity == Some(entity) }

  function ForBot(bot: string): Reconciliation -> bool { (r: Reconciliation) => r.bot == bot }

  function OnLane(lane: (string, string)): Reconciliation -> bool {
    (r: Reconciliation) => (r.bot, r.symbol) == lane
  }

  function BotOf(): Reconciliation -> string { (r: Reconciliation) => r.bot }

  function LaneOf(): Reconciliation -> (string, string) { (r: Reconciliation) => (r.bot, r.symbol) }

  function EventIdOf(): RuntimeEvent -> int { (e: RuntimeEvent) => e.id }

  function IdOf(): Reconciliation -> int { (r: Reconciliation) => r.id }

  // ------------------------------------------------------------ the journal

  function NextEventId(journal: seq<RuntimeEvent>): int {
    if journal == [] then 1 else Succ(journal[|journal| - 1].id)
  }

  function NextReconciliationId(journal: seq<Reconciliation>): int {
    if journal == [] then 1 else Succ(journal[|journal| - 1].id)
  }

  class InMemoryJournal {
    var events: seq<RuntimeEvent>
    var reconciliations: seq<Reconciliation>

    constructor ()
      ensures events == [] && reconciliations == []
    {
      events, reconciliations := [], [];
    }

    method AppendEvent(w: EventWrite)
      modifies this`events
      ensures events == old(events) + [EventRecord(w, NextEventId(old(events)))]
    {
      var id := if events == [] then 1 else Succ(events[|events| - 1].id);
      events := events + [EventRecord(w, id)];
    }

    method AppendReconciliation(w: ReconciliationWrite)
      modifies this`reconciliations
      ensures reconciliations ==
              old(reconciliations) + [ReconciliationRecord(w, NextReconciliationId(old(reconciliations)))]
    {
      var id := if reconciliations == [] then 1 else Succ(reconciliations[|reconciliations| - 1].id);
      reconciliations := reconciliations + [ReconciliationRecord(w, id)];
    }

    method RecentEventsByScope(scope: string, limit: nat) returns (r: seq<RuntimeEvent>)
      ensures r == Suffix(Filter(events, InScope(scope)), limit)
    {
      if limit == 0 {
        return [];
      }
      r := [];
      for i := 0 to |events|
        invariant r == Filter(events[..i], InScope(scope))
      {
        assert events[..i + 1] == events[..i] + [events[i]];
        FilterSnoc(events[..i], events[i], InScope(scope));
        if events[i].scope == scope {
          r := r + [events[i]];
        }
      }
      assert events[..|events|] == events;
      r := Suffix(r, limit);
    }

    /** Scans backwards for the newest record of a lane. */
    method LatestReconciliationForLane(bot: string, symbol: string) returns (r: Option<Reconciliation>)
      ensures r == LastMatch(reconciliations, OnLane((bot, symbol)))
    {
      var i := |reconciliations|;
      assert reconciliations[..i] == reconciliations;
      while i > 0
        invariant 0 <= i <= |reconciliations|
        invariant LastMatch(reconciliations, OnLane((bot, symbol))) ==
                  LastMatch(reconciliations[..i], OnLane((bot, symbol)))
      {
        i := i - 1;
        assert reconciliations[..i + 1][..i] == reconciliations[..i];
        if reconciliations[i].bot == bot && reconciliations[i].symbol == symbol {
          return Some(reconciliations[i]);
        }
      }
      r := None;
    }
  }

  function LastMatch<T>(s: seq<T>, p: T -> bool): Option<T>
    decreases |s|
  {
    if s == [] then None
    else if p(s[|s| - 1]) then Some(s[|s| - 1])
    else LastMatch(s[..|s| - 1], p)
  }

  predicate InOrder(earlier: int, later: int) { earlier < later || earlier == later == I64_MAX }

  /** Ids as the journal hands them out: positive and strictly increasing, until they
      stay at the largest integer there is. */
  predicate Ordered<T>(journal: seq<T>, id: T -> int) {
    && (forall i :: 0 <= i < |journal| ==> 1 <= id(journal[i]) <= I64_MAX)
    && (forall i, j :: 0 <= i < j < |journal| ==> InOrder(id(journal[i]), id(journal[j])))
  }

  predicate OrderedEvents(journal: seq<RuntimeEvent>) { Ordered(journal, EventIdOf()) }

  predicate OrderedReconciliations(journal: seq<Reconciliation>) { Ordered(journal, IdOf()) }

  function NextId<T>(journal: seq<T>, id: T -> int): int {
    if journal == [] then 1 else Succ(id(journal[|journal| - 1]))
  }

  /** Appending with the next id and pruning keep any journal in order, so every journal a
      service can start from is an ordered one, and the next id follows every id in use. */
  lemma JournalStaysOrdered<T>(journal: seq<T>, id: T -> int, x: T, keep: T -> bool)
    requires Ordered(journal, id) && id(x) == NextId(journal, id)
    ensures Ordered(journal + [x], id)
    ensures Ordered(Filter(journal, keep), id)
    ensures forall i :: 0 <= i < |journal| ==> InOrder(id(journal[i]), NextId(journal, id))
  {
    FilterStaysOrdered(journal, id, keep);
    forall i | 0 <= i < |journal| ensures InOrder(id(journal[i]), NextId(journal, id)) {
      assert i < |journal| - 1 ==> InOrder(id(journal[i]), id(journal[|journal| - 1]));
    }
  }

  lemma {:induction false} FilterStaysOrdered<T>(journal: seq<T>, id: T -> int, keep: T -> bool)
    requires Ordered(journal, id)
    ensures Ordered(Filter(journal, keep), id)
    decreases |journal|
  {
    if journal != [] {
      var n := |journal| - 1;
      FilterStaysOrdered(journal[..n], id, keep);
      var kept := Filter(journal[..n], keep);
      forall i | 0 <= i < |kept| ensures InOrder(id(kept[i]), id(journal[n])) {
        FilterMembers(journal[..n], keep, kept[i]);
        var j :| 0 <= j < n && journal[..n][j] == kept[i];
        assert InOrder(id(journal[j]), id(journal[n]));
      }
      hide InOrder;
    }
  }

  /** The two families append as the lemma asks. */
  lemma AppendsUseNextId(events: seq<RuntimeEvent>, e: EventWrite, records: seq<Reconciliation>, r: ReconciliationWrite)
    ensures EventIdOf()(EventRecord(e, NextEventId(events))) == NextId(events, EventIdOf())
    ensures IdOf()(ReconciliationRecord(r, NextReconciliationId(records))) == NextId(records, IdOf())
  {
  }

  /** An appended record carries what was written, under the number after the last one in use. */
  lemma AppendOnInputs(events: seq<RuntimeEvent>, e: EventWrite, records: seq<Reconciliation>, r: ReconciliationWrite)
    ensures var x := EventRecord(e, NextEventId(events));
            && x.scope == e.scope && x.entity == e.entity && x.payload == e.payload
            && x.id == if events == [] then 1
                       else if events[|events| - 1].id >= I64_MAX then I64_MAX
                       else events[|events| - 1].id + 1
    ensures var x := ReconciliationRecord(r, NextReconciliationId(records));
            && x.bot == r.bot && x.symbol == r.symbol && x.detail == r.detail
            && x.id == if records == [] then 1
                       else if records[|records| - 1].id >= I64_MAX then I64_MAX
                       else records[|records| - 1].id + 1
  {
  }

  // ------------------------------------------------------- the read models

  datatype EventModel = EventModel(
    feed: seq<RuntimeEvent>,
    byScope: map<string, seq<RuntimeEvent>>,
    byEntity: map<string, seq<RuntimeEvent>>,
    nextId: int)

  datatype ReconciliationModel = ReconciliationModel(
    feed: seq<Reconciliation>,
    byBot: map<string, seq<Reconciliation>>,
    latestByBot: map<string, Reconciliation>,
    latestByLane: map<(string, string), Reconciliation>,
    nextId: int)

  const NO_EVENTS := EventModel([], map[], map[], 1)
  const NO_RECONCILIATIONS := ReconciliationModel([], map[], map[], map[], 1)

  function Indexed<T>(index: map<string, seq<T>>, key: string, x: T, cap: nat): map<string, seq<T>> {
    index[key := Suffix(IndexAt(index, key) + [x], cap)]
  }

  function PushedEvent(m: EventModel, e: RuntimeEvent): EventModel {
    m.(feed := Suffix(m.feed + [e], GLOBAL_FEED_CAPACITY),
       byScope := Indexed(m.byScope, e.scope, e, GLOBAL_FEED_CAPACITY),
       byEntity := if e.entity.Some? then Indexed(m.byEntity, e.entity.value, e, ENTITY_TIMELINE_CAPACITY)
                   else m.byEntity)
  }

  function IngestedEvent(m: EventModel, e: RuntimeEvent): EventModel {
    PushedEvent(m.(nextId := Max(m.nextId, Succ(e.id))), e)
  }

  function RecordedEvent(m: EventModel, w: EventWrite): EventModel {
    PushedEvent(m.(nextId := Succ(m.nextId)), EventRecord(w, m.nextId))
  }

  function IngestedEvents(m: EventModel, es: seq<RuntimeEvent>): EventModel
    decreases |es|
  {
    if es == [] then m else IngestedEvent(IngestedEvents(m, es[..|es| - 1]), es[|es| - 1])
  }

  function PushedReconciliation(m: ReconciliationModel, r: Reconciliation): ReconciliationModel {
    m.(feed := Suffix(m.feed + [r], GLOBAL_FEED_CAPACITY),
       byBot := Indexed(m.byBot, r.bot, r, BOT_FEED_CAPACITY),
       latestByBot := Upserted(m.latestByBot, BotOf()(r), r, IdOf()),
       latestByLane := Upserted(m.latestByLane, LaneOf()(r), r, IdOf()))
  }

  function IngestedReconciliation(m: ReconciliationModel, r: Reconciliation): ReconciliationModel {
    PushedReconciliation(m.(nextId := Max(m.nextId, Succ(r.id))), r)
  }

  function RecordedReconciliation(m: ReconciliationModel, w: ReconciliationWrite): ReconciliationModel {
    PushedReconciliation(m.(nextId := Succ(m.nextId)), ReconciliationRecord(w, m.nextId))
  }

  function IngestedReconciliations(m: ReconciliationModel, rs: seq<Reconciliation>): ReconciliationModel
    decreases |rs|
  {
    if rs == [] then m
    else IngestedReconciliation(IngestedReconciliations(m, rs[..|rs| - 1]), rs[|rs| - 1])
  }

  class OperatorReadModels {
    var events: EventModel
    var reconciliations: ReconciliationModel

    constructor Bootstrap(journal: InMemoryJournal)
      ensures events == IngestedEvents(NO_EVENTS, Suffix(journal.events, GLOBAL_FEED_CAPACITY))
      ensures reconciliations ==
              IngestedReconciliations(NO_RECONCILIATIONS, Suffix(journal.reconciliations, GLOBAL_FEED_CAPACITY))
    {
      events, reconciliations := NO_EVENTS, NO_RECONCILIATIONS;
      new;
      IngestEvents(Suffix(journal.events, GLOBAL_FEED_CAPACITY));
      IngestReconciliations(Suffix(journal.reconciliations, GLOBAL_FEED_CAPACITY));
    }

    method IngestEvents(es: seq<RuntimeEvent>)
      modifies this`events
      ensures events == IngestedEvents(old(events), es)
    {
      hide IngestedEvent;
      for i := 0 to |es|
        invariant events == IngestedEvents(old(events), es[..i])
      {
        assert es[..i + 1][..i] == es[..i];
        IngestEvent(es[i]);
      }
      assert es[..|es|] == es;
    }

    method IngestReconciliations(rs: seq<Reconciliation>)
      modifies this`reconciliations
      ensures reconciliations == IngestedReconciliations(old(reconciliations), rs)
    {
      hide IngestedReconciliation;
      for i := 0 to |rs|
        invariant reconciliations == IngestedReconciliations(old(reconciliations), rs[..i])
      {
        assert rs[..i + 1][..i] == rs[..i];
        IngestReconciliation(rs[i]);
      }
      assert rs[..|rs|] == rs;
    }

    method PushEvent(e: RuntimeEvent)
      modifies this`events
      ensures events == PushedEvent(old(events), e)
    {
      var feed := PushBounded(events.feed, e, GLOBAL_FEED_CAPACITY);
      var scoped := PushBounded(IndexAt(events.byScope, e.scope), e, GLOBAL_FEED_CAPACITY);
      var byEntity := events.byEntity;
      if e.entity.Some? {
        var timeline := PushBounded(IndexAt(byEntity, e.entity.value), e, ENTITY_TIMELINE_CAPACITY);
        byEntity := byEntity[e.entity.value := timeline];
      }
      events := events.(feed := feed, byScope := events.byScope[e.scope := scoped], byEntity := byEntity);
    }

    method IngestEvent(e: RuntimeEvent)
      modifies this`events
      ensures events == IngestedEvent(old(events), e)
    {
      events := events.(nextId := Max(events.nextId, Succ(e.id)));
      PushEvent(e);
    }

    method RecordEventWrite(w: EventWrite)
      modifies this`events
      ensures events == RecordedEvent(old(events), w)
    {
      var id := events.nextId;
      events := events.(nextId := Succ(id));
      PushEvent(EventRecord(w, id));
    }

    method PushReconciliation(r: Reconciliation)
      modifies this`reconciliations
      ensures reconciliations == PushedReconciliation(old(reconciliations), r)
    {
      var m := reconciliations;
      var feed := PushBounded(m.feed, r, GLOBAL_FEED_CAPACITY);
      var mine := PushBounded(IndexAt(m.byBot, r.bot), r, BOT_FEED_CAPACITY);
      reconciliations := m.(
        feed := feed,
        byBot := m.byBot[r.bot := mine],
        latestByBot := Upserted(m.latestByBot, r.bot, r, IdOf()),
        latestByLane := Upserted(m.latestByLane, (r.bot, r.symbol), r, IdOf()));
    }

    method IngestReconciliation(r: Reconciliation)
      modifies this`reconciliations
      ensures reconciliations == IngestedReconciliation(old(reconciliations), r)
    {
      reconciliations := reconciliations.(nextId := Max(reconciliations.nextId, Succ(r.id)));
      PushReconciliation(r);
    }

    method RecordReconciliationWrite(w: ReconciliationWrite)
      modifies this`reconciliations
      ensures reconciliations == RecordedReconciliation(old(reconciliations), w)
    {
      var id := reconciliations.nextId;
      reconciliations := reconciliations.(nextId := Succ(id));
      PushReconciliation(ReconciliationRecord(w, id));
    }
  }

  // ------------------------------------------------- the models mirror the journal

  /** The event model summarises `window`, the part of the journal it has seen. */
  ghost predicate SummarisesEvents(m: EventModel, window: seq<RuntimeEvent>) {
    && m.feed == Suffix(window, GLOBAL_FEED_CAPACITY)
    && (forall s :: IndexAt(m.byScope, s) == Suffix(Filter(window, InScope(s)), GLOBAL_FEED_CAPACITY))
    && (forall e :: IndexAt(m.byEntity, e) == Suffix(Filter(window, ForEntity(e)), ENTITY_TIMELINE_CAPACITY))
  }

  ghost predicate SummarisesReconciliations(m: ReconciliationModel, window: seq<Reconciliation>) {
    && m.feed == Suffix(window, GLOBAL_FEED_CAPACITY)
    && (forall b :: IndexAt(m.byBot, b) == Suffix(Filter(window, ForBot(b)), BOT_FEED_CAPACITY))
    && m.latestByBot == UpsertedAll(map[], window, BotOf(), IdOf())
    && m.latestByLane == UpsertedAll(map[], window, LaneOf(), IdOf())
  }

  /** Pushing keeps an index in step with filtering. */
  lemma IndexFollowsFilter<T>(index: map<string, seq<T>>, window: seq<T>, x: T, key: string, k: string,
                              p: T -> bool, cap: nat)
    requires IndexAt(index, k) == Suffix(Filter(window, p), cap)
    requires p(x) <==> key == k
    ensures IndexAt(Indexed(index, key, x, cap), k) == Suffix(Filter(window + [x], p), cap)
  {
    FilterSnoc(window, x, p);
    if key == k {
      SuffixOfPush(Filter(window, p), x, cap);
    } else {
      assert Filter(window, p) + [] == Filter(window, p);
    }
  }

  lemma PushSummarises(m: EventModel, window: seq<RuntimeEvent>, e: RuntimeEvent)
    requires SummarisesEvents(m, window)
    ensures SummarisesEvents(PushedEvent(m, e), window + [e])
  {
    var m' := PushedEvent(m, e);
    SuffixOfPush(window, e, GLOBAL_FEED_CAPACITY);
    forall s ensures IndexAt(m'.byScope, s) == Suffix(Filter(window + [e], InScope(s)), GLOBAL_FEED_CAPACITY) {
      IndexFollowsFilter(m.byScope, window, e, e.scope, s, InScope(s), GLOBAL_FEED_CAPACITY);
    }
    forall k ensures IndexAt(m'.byEntity, k) == Suffix(Filter(window + [e], ForEntity(k)), ENTITY_TIMELINE_CAPACITY) {
      if e.entity.Some? {
        IndexFollowsFilter(m.byEntity, window, e, e.entity.value, k, ForEntity(k), ENTITY_TIMELINE_CAPACITY);
      } else {
        FilterSnoc(window, e, ForEntity(k));
        assert Filter(window, ForEntity(k)) + [] == Filter(window, ForEntity(k));
      }
    }
  }

  lemma PushSummarisesReconciliation(m: ReconciliationModel, window: seq<Reconciliation>, r: Reconciliation)
    requires SummarisesReconciliations(m, window)
    ensures SummarisesReconciliations(PushedReconciliation(m, r), window + [r])
  {
    var m' := PushedReconciliation(m, r);
    SuffixOfPush(window, r, GLOBAL_FEED_CAPACITY);
    forall b ensures IndexAt(m'.byBot, b) == Suffix(Filter(window + [r], ForBot(b)), BOT_FEED_CAPACITY) {
      IndexFollowsFilter(m.byBot, window, r, r.bot, b, ForBot(b), BOT_FEED_CAPACITY);
    }
    assert (window + [r])[..|window|] == window;
  }

  /** The id counter plays no part in the summary, and pushing leaves it alone. */
  lemma CounterIsSeparate(m: EventModel, id: int, window: seq<RuntimeEvent>, e: RuntimeEvent)
    requires SummarisesEvents(m, window)
    ensures SummarisesEvents(m.(nextId := id), window) && PushedEvent(m, e).nextId == m.nextId
  {
  }

  lemma ReconciliationCounterIsSeparate(m: ReconciliationModel, id: int, window: seq<Reconciliation>, r: Reconciliation)
    requires SummarisesReconciliations(m, window)
    ensures SummarisesReconciliations(m.(nextId := id), window) && PushedReconciliation(m, r).nextId == m.nextId
  {
  }

  lemma NothingSummarised()
    ensures SummarisesEvents(NO_EVENTS, []) && SummarisesReconciliations(NO_RECONCILIATIONS, [])
  {
  }

  /** Ingesting the newest part of an ordered journal also finds its next id. */
  lemma {:induction false} IngestingSummarises(window: seq<RuntimeEvent>)
    requires OrderedEvents(window)
    ensures var m := IngestedEvents(NO_EVENTS, window);
            SummarisesEvents(m, window) && m.nextId == NextEventId(window)
    decreases |window|
  {
    hide PushedEvent, SummarisesEvents;
    if window == [] {
      NothingSummarised();
    } else {
      var n := |window| - 1;
      IngestingSummarises(window[..n]);
      var m := IngestedEvents(NO_EVENTS, window[..n]);
      var m1 := m.(nextId := Max(m.nextId, Succ(window[n].id)));
      CounterIsSeparate(m, m1.nextId, window[..n], window[n]);
      CounterIsSeparate(m1, 0, window[..n], window[n]);
      PushSummarises(m1, window[..n], window[n]);
      assert window[..n] + [window[n]] == window;
    }
  }

  lemma {:induction false} IngestingSummarisesReconciliations(window: seq<Reconciliation>)
    requires OrderedReconciliations(window)
    ensures var m := IngestedReconciliations(NO_RECONCILIATIONS, window);
            SummarisesReconciliations(m, window) && m.nextId == NextReconciliationId(window)
    decreases |window|
  {
    hide PushedReconciliation, SummarisesReconciliations;
    if window == [] {
      NothingSummarised();
    } else {
      var n := |window| - 1;
      IngestingSummarisesReconciliations(window[..n]);
      var m := IngestedReconciliations(NO_RECONCILIATIONS, window[..n]);
      var m1 := m.(nextId := Max(m.nextId, Succ(window[n].id)));
      ReconciliationCounterIsSeparate(m, m1.nextId, window[..n], window[n]);
      ReconciliationCounterIsSeparate(m1, 0, window[..n], window[n]);
      PushSummarisesReconciliation(m1, window[..n], window[n]);
      assert window[..n] + [window[n]] == window;
    }
  }

  /** The journal after a run of appends. */
  function Appended(journal: seq<RuntimeEvent>, ws: seq<EventWrite>): (r: seq<RuntimeEvent>)
    ensures journal <= r && |r| == |journal| + |ws|
    decreases |ws|
  {
    if ws == [] then journal
    else Appended(journal + [EventRecord(ws[0], NextEventId(journal))], ws[1..])
  }

  function Recorded(m: EventModel, ws: seq<EventWrite>): EventModel
    decreases |ws|
  {
    if ws == [] then m else Recorded(RecordedEvent(m, ws[0]), ws[1..])
  }

  function AppendedReconciliations(journal: seq<Reconciliation>, ws: seq<ReconciliationWrite>): (r: seq<Reconciliation>)
    ensures journal <= r && |r| == |journal| + |ws|
    decreases |ws|
  {
    if ws == [] then journal
    else AppendedReconciliations(journal + [ReconciliationRecord(ws[0], NextReconciliationId(journal))], ws[1..])
  }

  function RecordedReconciliations(m: ReconciliationModel, ws: seq<ReconciliationWrite>): ReconciliationModel
    decreases |ws|
  {
    if ws == [] then m else RecordedReconciliations(RecordedReconciliation(m, ws[0]), ws[1..])
  }

  lemma {:induction false} PairedWritesSummarise(m: EventModel, journal: seq<RuntimeEvent>, start: nat, ws: seq<EventWrite>)
    requires start <= |journal| && SummarisesEvents(m, journal[start..]) && m.nextId == NextEventId(journal)
    ensures var journal' := Appended(journal, ws);
            SummarisesEvents(Recorded(m, ws), journal'[start..]) && Recorded(m, ws).nextId == NextEventId(journal')
    decreases |ws|
  {
    if ws != [] {
      var e := EventRecord(ws[0], m.nextId);
      PushSummarises(m.(nextId := Succ(m.nextId)), journal[start..], e);
      assert (journal + [e])[start..] == journal[start..] + [e];
      PairedWritesSummarise(RecordedEvent(m, ws[0]), journal + [e], start, ws[1..]);
    }
  }

  lemma {:induction false} PairedReconciliationsSummarise(
    m: ReconciliationModel, journal: seq<Reconciliation>, start: nat, ws: seq<ReconciliationWrite>)
    requires start <= |journal| && SummarisesReconciliations(m, journal[start..])
    requires m.nextId == NextReconciliationId(journal)
    ensures SummarisesReconciliations(RecordedReconciliations(m, ws), AppendedReconciliations(journal, ws)[start..])
    ensures RecordedReconciliations(m, ws).nextId == NextReconciliationId(AppendedReconciliations(journal, ws))
    decreases |ws|
  {
    if ws != [] {
      var r := ReconciliationRecord(ws[0], m.nextId);
      PushSummarisesReconciliation(m.(nextId := Succ(m.nextId)), journal[start..], r);
      assert (journal + [r])[start..] == journal[start..] + [r];
      PairedReconciliationsSummarise(RecordedReconciliation(m, ws[0]), journal + [r], start, ws[1..]);
    }
  }

  /** Where the bootstrap window of a journal begins. */
  function WindowStart(n: nat): nat { if n <= GLOBAL_FEED_CAPACITY then 0 else n - GLOBAL_FEED_CAPACITY }

  ghost function EventsAfter(journal: seq<RuntimeEvent>, ws: seq<EventWrite>): EventModel {
    Recorded(IngestedEvents(NO_EVENTS, Suffix(journal, GLOBAL_FEED_CAPACITY)), ws)
  }

  ghost function ReconciliationsAfter(journal: seq<Reconciliation>, ws: seq<ReconciliationWrite>): ReconciliationModel {
    RecordedReconciliations(IngestedReconciliations(NO_RECONCILIATIONS, Suffix(journal, GLOBAL_FEED_CAPACITY)), ws)
  }

  lemma EventsSummarise(journal: seq<RuntimeEvent>, ws: seq<EventWrite>)
    requires OrderedEvents(journal)
    ensures SummarisesEvents(EventsAfter(journal, ws), Appended(journal, ws)[WindowStart(|journal|)..])
  {
    var window := Suffix(journal, GLOBAL_FEED_CAPACITY);
    assert window == journal[WindowStart(|journal|)..];
    assert forall i :: 0 <= i < |window| ==> window[i] == journal[WindowStart(|journal|) + i];
    IngestingSummarises(window);
    PairedWritesSummarise(IngestedEvents(NO_EVENTS, window), journal, WindowStart(|journal|), ws);
  }

  lemma ReconciliationsSummarise(journal: seq<Reconciliation>, ws: seq<ReconciliationWrite>)
    requires OrderedReconciliations(journal)
    ensures SummarisesReconciliations(ReconciliationsAfter(journal, ws),
                                      AppendedReconciliations(journal, ws)[WindowStart(|journal|)..])
  {
    var window := Suffix(journal, GLOBAL_FEED_CAPACITY);
    assert window == journal[WindowStart(|journal|)..];
    assert forall i :: 0 <= i < |window| ==> window[i] == journal[WindowStart(|journal|) + i];
    IngestingSummarisesReconciliations(window);
    PairedReconciliationsSummarise(IngestedReconciliations(NO_RECONCILIATIONS, window), journal,
                                   WindowStart(|journal|), ws);
  }

  lemma RecentOfWindow<T>(s: seq<T>, start: nat, limit: nat)
    requires start <= |s| && limit <= GLOBAL_FEED_CAPACITY
    requires start == 0 || |s| - start >= GLOBAL_FEED_CAPACITY
    ensures Suffix(Suffix(s[start..], GLOBAL_FEED_CAPACITY), limit) == Suffix(s, limit)
  {
  }

  /** After bootstrap and any run of paired writes, a recent-events query within capacity
      answers with exactly the journal's records and ids. */
  lemma RecentEventsAgree(journal: seq<RuntimeEvent>, ws: seq<EventWrite>, limit: nat)
    requires OrderedEvents(journal) && limit <= GLOBAL_FEED_CAPACITY
    ensures Suffix(EventsAfter(journal, ws).feed, limit) == Suffix(Appended(journal, ws), limit)
  {
    EventsSummarise(journal, ws);
    RecentOfWindow(Appended(journal, ws), WindowStart(|journal|), limit);
  }

  lemma SuffixesOfFilter<T>(s: seq<T>, start: nat, p: T -> bool, cap: nat, limit: nat)
    requires start <= |s|
    ensures IsSuffix(Suffix(Suffix(Filter(s[start..], p), cap), limit), Suffix(Filter(s, p), limit))
    ensures start == 0 && limit <= cap ==>
              Suffix(Suffix(Filter(s[start..], p), cap), limit) == Suffix(Filter(s, p), limit)
  {
    hide *;
    FilterConcat(s[..start], s[start..], p);
    assert s[..start] + s[start..] == s;
    SuffixOfTail(Filter(s[..start], p), Filter(s[start..], p), cap, limit);
    if start == 0 && limit <= cap {
      assert s[start..] == s;
      SuffixOfSuffix(Filter(s, p), limit, cap);
    }
  }

  /** A scoped query answers with a suffix of the journal's answer, and with all of it
      when the bootstrapped journal fitted the window. */
  lemma ScopedEventsAgree(journal: seq<RuntimeEvent>, ws: seq<EventWrite>, scope: string, limit: nat)
    requires OrderedEvents(journal)
    ensures var mine := Suffix(IndexAt(EventsAfter(journal, ws).byScope, scope), limit);
            var theirs := Suffix(Filter(Appended(journal, ws), InScope(scope)), limit);
            && IsSuffix(mine, theirs)
            && (|journal| <= GLOBAL_FEED_CAPACITY && limit <= GLOBAL_FEED_CAPACITY ==> mine == theirs)
  {
    EventsSummarise(journal, ws);
    SuffixesOfFilter(Appended(journal, ws), WindowStart(|journal|), InScope(scope), GLOBAL_FEED_CAPACITY, limit);
  }

  lemma EntityEventsAgree(journal: seq<RuntimeEvent>, ws: seq<EventWrite>, entity: string, limit: nat)
    requires OrderedEvents(journal)
    ensures var mine := Suffix(IndexAt(EventsAfter(journal, ws).byEntity, entity), limit);
            var theirs := Suffix(Filter(Appended(journal, ws), ForEntity(entity)), limit);
            && IsSuffix(mine, theirs)
            && (|journal| <= GLOBAL_FEED_CAPACITY && limit <= ENTITY_TIMELINE_CAPACITY ==> mine == theirs)
  {
    EventsSummarise(journal, ws);
    SuffixesOfFilter(Appended(journal, ws), WindowStart(|journal|), ForEntity(entity), ENTITY_TIMELINE_CAPACITY, limit);
  }

  lemma BotReconciliationsAgree(journal: seq<Reconciliation>, ws: seq<ReconciliationWrite>, bot: string, limit: nat)
    requires OrderedReconciliations(journal)
    ensures var m, all := ReconciliationsAfter(journal, ws), AppendedReconciliations(journal, ws);
            var mine, theirs := Suffix(IndexAt(m.byBot, bot), limit), Suffix(Filter(all, ForBot(bot)), limit);
            && (limit <= GLOBAL_FEED_CAPACITY ==> Suffix(m.feed, limit) == Suffix(all, limit))
            && IsSuffix(mine, theirs)
            && (|journal| <= GLOBAL_FEED_CAPACITY && limit <= BOT_FEED_CAPACITY ==> mine == theirs)
  {
    ReconciliationsSummarise(journal, ws);
    SuffixesOfFilter(AppendedReconciliations(journal, ws), WindowStart(|journal|), ForBot(bot), BOT_FEED_CAPACITY, limit);
    if limit <= GLOBAL_FEED_CAPACITY {
      RecentOfWindow(AppendedReconciliations(journal, ws), WindowStart(|journal|), limit);
    }
  }

  lemma {:induction false} AppendsStayOrdered(journal: seq<Reconciliation>, ws: seq<ReconciliationWrite>)
    requires OrderedReconciliations(journal)
    ensures OrderedReconciliations(AppendedReconciliations(journal, ws))
    decreases |ws|
  {
    if ws != [] {
      AppendsStayOrdered(journal + [ReconciliationRecord(ws[0], NextReconciliationId(journal))], ws[1..]);
    }
  }

  /** In an ordered window, upserting by id keeps the last record of each key. */
  lemma {:induction false} LatestIsLastMatch<K(!new)>(
    window: seq<Reconciliation>, key: Reconciliation -> K, matches: Reconciliation -> bool, k: K)
    requires OrderedReconciliations(window) && forall r :: matches(r) <==> key(r) == k
    ensures var m := UpsertedAll(map[], window, key, IdOf());
            LastMatch(window, matches) == if k in m then Some(m[k]) else None
    ensures var m := UpsertedAll(map[], window, key, IdOf());
            k in m ==> m[k] in window
    decreases |window|
  {
    if window != [] {
      LatestIsLastMatch(window[..|window| - 1], key, matches, k);
    }
  }

  /** What a query for the latest match answers: the last record that matches, and none exactly when none does. */
  lemma {:induction false} LastMatchIsLast<T>(s: seq<T>, p: T -> bool)
    ensures match LastMatch(s, p)
            case None => forall i :: 0 <= i < |s| ==> !p(s[i])
            case Some(x) => exists i :: 0 <= i < |s| && s[i] == x && p(x) && forall j :: i < j < |s| ==> !p(s[j])
    decreases |s|
  {
    if s != [] {
      var n := |s| - 1;
      LastMatchIsLast(s[..n], p);
      if !p(s[n]) {
        assert forall i :: 0 <= i < n ==> s[..n][i] == s[i];
        if LastMatch(s, p).Some? {
          var i :| 0 <= i < n && s[..n][i] == LastMatch(s, p).value && forall j :: i < j < n ==> !p(s[..n][j]);
          assert s[i] == LastMatch(s, p).value;
        }
      }
    }
  }

  lemma {:induction false} LastMatchOfTail<T>(s: seq<T>, start: nat, p: T -> bool)
    requires start <= |s|
    ensures LastMatch(s[start..], p).Some? ==> LastMatch(s, p) == LastMatch(s[start..], p)
    decreases |s|
  {
    if start < |s| {
      var n := |s| - 1;
      assert s[start..][..n - start] == s[..n][start..];
      LastMatchOfTail(s[..n], start, p);
    }
  }

  /** The latest reconciliation of a lane, when the read model has one, is the journal's; and it
      has one whenever the journal does, provided the bootstrapped journal fitted the window. */
  lemma LatestReconciliationAgrees(journal: seq<Reconciliation>, ws: seq<ReconciliationWrite>, bot: string, symbol: string)
    requires OrderedReconciliations(journal)
    ensures var m := ReconciliationsAfter(journal, ws).latestByLane;
            (bot, symbol) in m ==>
              LastMatch(AppendedReconciliations(journal, ws), OnLane((bot, symbol)))
              == Some(m[(bot, symbol)])
    ensures var m := ReconciliationsAfter(journal, ws).latestByLane;
            |journal| <= GLOBAL_FEED_CAPACITY ==>
              ((bot, symbol) in m <==> LastMatch(AppendedReconciliations(journal, ws), OnLane((bot, symbol))).Some?)
  {
    hide UpsertedAll, LastMatch, AppendedReconciliations, RecordedReconciliations, IngestedReconciliations;
    var all, start := AppendedReconciliations(journal, ws), WindowStart(|journal|);
    ReconciliationsSummarise(journal, ws);
    AppendsStayOrdered(journal, ws);
    assert forall i :: 0 <= i < |all| - start ==> all[start..][i] == all[start + i];
    LatestIsLastMatch(all[start..], LaneOf(), OnLane((bot, symbol)), (bot, symbol));
    LastMatchOfTail(all, start, OnLane((bot, symbol)));
    assert start == 0 ==> all[start..] == all;
  }

  /** The same for the latest reconciliation of a bot, over all its symbols. */
  lemma LatestOfBotAgrees(journal: seq<Reconciliation>, ws: seq<ReconciliationWrite>, bot: string)
    requires OrderedReconciliations(journal)
    ensures var m, all := ReconciliationsAfter(journal, ws).latestByBot, AppendedReconciliations(journal, ws);
            && (bot in m ==> LastMatch(all, ForBot(bot)) == Some(m[bot]))
            && (|journal| <= GLOBAL_FEED_CAPACITY ==> (bot in m <==> LastMatch(all, ForBot(bot)).Some?))
  {
    hide UpsertedAll, LastMatch, AppendedReconciliations, RecordedReconciliations, IngestedReconciliations;
    var all, start := AppendedReconciliations(journal, ws), WindowStart(|journal|);
    ReconciliationsSummarise(journal, ws);
    AppendsStayOrdered(journal, ws);
    assert forall i :: 0 <= i < |all| - start ==> all[start..][i] == all[start + i];
    LatestIsLastMatch(all[start..], BotOf(), ForBot(bot), bot);
    LastMatchOfTail(all, start, ForBot(bot));
    assert start == 0 ==> all[start..] == all;
  }
}
