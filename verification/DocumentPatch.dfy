/**
 * Editing a configuration document in place.
 *
 * A document is a tree that remembers formatting; a configuration is read from it
 * through a schema that fills in defaults and ignores unknown keys.
 */
module DocumentPatch {
  import opened Options

  datatype Scalar =
    | Text(text: string)
    | Integer(number: int)
    | Decimal(amount: real)
    | Boolean(flag: bool)
    | Datetime(stamp: string)

  datatype Value = Leaf(scalar: Scalar) | Arr(items: seq<Value>) | Tbl(entries: map<string, Value>)

  /** Block tables have headers of their own, implicit ones only appear through their
      children; inline tables and arrays are written as values. */
  datatype Style = Block(implicit: bool) | Inline

  /** A document node; `decor` stands for comments and white space. */
  datatype Item =
    | Atom(scalar: Scalar, decor: string)
    | List(elements: seq<Item>, style: Style, decor: string)
    | Table(nodes: map<string, Item>, style: Style, decor: string)

  function Read(item: Item): Value {
    match item
    case Atom(scalar, _) => Leaf(scalar)
    case List(elements, _, _) => Arr(seq(|elements|, i requires 0 <= i < |elements| => Read(elements[i])))
    case Table(nodes, _, _) => Tbl(map k | k in nodes :: Read(nodes[k]))
  }

  // ------------------------------------------------ from values to document nodes

  predicate IsArrayOfTables(values: seq<Value>) {
    values != [] && forall i :: 0 <= i < |values| ==> values[i].Tbl?
  }

  function ValueToInline(value: Value): Item {
    match value
    case Leaf(scalar) => Atom(scalar, "")
    case Arr(items) => List(seq(|items|, i requires 0 <= i < |items| => ValueToInline(items[i])), Inline, "")
    case Tbl(entries) => Table(map k | k in entries :: ValueToInline(entries[k]), Inline, "")
  }

  function ValueToItem(value: Value): Item {
    match value
    case Tbl(entries) => Table(map k | k in entries :: ValueToItem(entries[k]), Block(false), "")
    case Arr(items) =>
      if IsArrayOfTables(items) then
        List(seq(|items|, i requires 0 <= i < |items| => ValueToItem(items[i])), Block(false), "")
      else ValueToInline(value)
    case Leaf(_) => ValueToInline(value)
  }

  /** Putting a node into an inline table turns block tables into inline ones. */
  function Inlined(item: Item): Item {
    match item
    case Atom(_, _) => item
    case List(elements, _, decor) =>
      List(seq(|elements|, i requires 0 <= i < |elements| => Inlined(elements[i])), Inline, decor)
    case Table(nodes, _, decor) => Table(map k | k in nodes :: Inlined(nodes[k]), Inline, decor)
  }

  function Fitted(style: Style, item: Item): Item {
    if style.Inline? then Inlined(item) else item
  }

  /** Conversion loses nothing at any nesting. */
  lemma {:induction false} InlineReadsBack(value: Value)
    ensures Read(ValueToInline(value)) == value
  {
    match value
    case Leaf(_) =>
    case Arr(items) => forall i | 0 <= i < |items| { InlineReadsBack(items[i]); }
    case Tbl(entries) => forall k | k in entries { InlineReadsBack(entries[k]); }
  }

  lemma {:induction false} ItemReadsBack(value: Value)
    ensures Read(ValueToItem(value)) == value
  {
    match value
    case Leaf(_) => InlineReadsBack(value);
    case Arr(items) =>
      InlineReadsBack(value);
      forall i | 0 <= i < |items| { ItemReadsBack(items[i]); }
    case Tbl(entries) => forall k | k in entries { ItemReadsBack(entries[k]); }
  }

  lemma {:induction false} InlinedReadsSame(item: Item)
    ensures Read(Inlined(item)) == Read(item)
  {
    match item
    case Atom(_, _) =>
    case List(elements, _, _) => forall i | 0 <= i < |elements| { InlinedReadsSame(elements[i]); }
    case Table(nodes, _, _) => forall k | k in nodes { InlinedReadsSame(nodes[k]); }
  }

  // ------------------------------------------------------------- the patch

  const PLACEHOLDER := Table(map[], Block(true), "")

  /** The changed value is a table before and after, and on disk if present at all. */
  predicate Descends(doc: Item, cur: Value, next: Value, k: string)
    requires doc.Table? && cur.Tbl? && next.Tbl? && k in next.entries
  {
    && k in cur.entries && cur.entries[k].Tbl? && next.entries[k].Tbl?
    && (k in doc.nodes ==> doc.nodes[k].Table?)
  }

  predicate Unchanged(cur: Value, next: Value, k: string)
    requires cur.Tbl? && next.Tbl?
  {
    k in next.entries && k in cur.entries && cur.entries[k] == next.entries[k]
  }

  function ChildNode(doc: Item, k: string): Item
    requires doc.Table?
  {
    if k in doc.nodes then doc.nodes[k] else Fitted(doc.style, PLACEHOLDER)
  }

  function NodeOf(nodes: map<string, Item>, k: string): Option<Item> {
    if k in nodes then Some(nodes[k]) else None
  }

  /** What the edit leaves under one key. */
  function PatchedNode(doc: Item, cur: Value, next: Value, k: string): Option<Item>
    requires doc.Table? && cur.Tbl? && next.Tbl?
    decreases next, 0
  {
    if k !in next.entries then (if k in cur.entries then None else NodeOf(doc.nodes, k))
    else if Unchanged(cur, next, k) then NodeOf(doc.nodes, k)
    else if Descends(doc, cur, next, k) then
      Some(Patched(ChildNode(doc, k), cur.entries[k], next.entries[k]))
    else Some(Fitted(doc.style, ValueToItem(next.entries[k])))
  }

  /** What the edited document is: keys are treated independently of one another. */
  function Patched(doc: Item, cur: Value, next: Value): (r: Item)
    requires doc.Table? && cur.Tbl? && next.Tbl?
    ensures r.Table?
    decreases next, 1
  {
    Table(
      map k | k in doc.nodes.Keys + next.entries.Keys && PatchedNode(doc, cur, next, k).Some? ::
        PatchedNode(doc, cur, next, k).value,
      doc.style, doc.decor)
  }

  lemma PatchedNodes(doc: Item, cur: Value, next: Value, nodes: map<string, Item>)
    requires doc.Table? && cur.Tbl? && next.Tbl?
    requires forall k :: NodeOf(nodes, k) == PatchedNode(doc, cur, next, k)
    ensures Patched(doc, cur, next) == Table(nodes, doc.style, doc.decor)
  {
    var goal := Patched(doc, cur, next).nodes;
    forall k ensures NodeOf(goal, k) == NodeOf(nodes, k) {
      assert NodeOf(nodes, k) == PatchedNode(doc, cur, next, k);
    }
    SameNodes(goal, nodes);
  }

  lemma SameNodes(a: map<string, Item>, b: map<string, Item>)
    requires forall k :: NodeOf(a, k) == NodeOf(b, k)
    ensures a == b
  {
    assert forall k :: k in a <==> NodeOf(a, k).Some?;
    assert forall k :: k in b <==> NodeOf(b, k).Some?;
    assert forall k | k in a :: a[k] == NodeOf(a, k).value == NodeOf(b, k).value == b[k];
  }

  /** Drops the keys that `next` no longer has. */
  method RemoveDropped(doc: Item, cur: Value, next: Value) returns (nodes: map<string, Item>)
    requires doc.Table? && cur.Tbl? && next.Tbl?
    ensures forall k :: NodeOf(nodes, k) ==
              if k in cur.entries && k !in next.entries then None else NodeOf(doc.nodes, k)
  {
    nodes := doc.nodes;
    var left := cur.entries.Keys;
    while left != {}
      invariant left <= cur.entries.Keys
      invariant forall k ::
        NodeOf(nodes, k) ==
        if k in cur.entries && k !in left && k !in next.entries then None else NodeOf(doc.nodes, k)
      decreases |left|
    {
      var k :| k in left;
      ghost var before := nodes;
      if k !in next.entries {
        nodes := nodes - {k};
      }
      assert forall j :: j != k ==> NodeOf(nodes, j) == NodeOf(before, j);
      left := left - {k};
    }
  }

  /** Rewrites one key whose value changed. */
  method RewriteKey(doc: Item, cur: Value, next: Value, k: string) returns (node: Item)
    requires doc.Table? && cur.Tbl? && next.Tbl? && k in next.entries && !Unchanged(cur, next, k)
    ensures Some(node) == PatchedNode(doc, cur, next, k)
    decreases next, 0
  {
    var value := next.entries[k];
    if k in cur.entries && cur.entries[k].Tbl? && value.Tbl? {
      var child := if k in doc.nodes then doc.nodes[k] else Fitted(doc.style, PLACEHOLDER);
      if child.Table? {
        node := ApplyTableDiff(child, cur.entries[k], value);
        return;
      }
    }
    node := Fitted(doc.style, ValueToItem(value));
  }

  /** The removal loop followed by the rewrite loop, each over its keys in any order. */
  method ApplyTableDiff(doc: Item, cur: Value, next: Value) returns (r: Item)
    requires doc.Table? && cur.Tbl? && next.Tbl?
    ensures r == Patched(doc, cur, next)
    decreases next, 1
  {
    var nodes := RemoveDropped(doc, cur, next);
    var left := next.entries.Keys;
    while left != {}
      invariant left <= next.entries.Keys
      invariant forall k ::
        NodeOf(nodes, k) ==
        if k in left then NodeOf(doc.nodes, k) else PatchedNode(doc, cur, next, k)
      decreases |left|
    {
      var k :| k in left;
      ghost var before := nodes;
      if !(k in cur.entries && cur.entries[k] == next.entries[k]) {
        var node := RewriteKey(doc, cur, next, k);
        nodes := nodes[k := node];
      }
      assert forall j :: j != k ==> NodeOf(nodes, j) == NodeOf(before, j);
      left := left - {k};
    }
    PatchedNodes(doc, cur, next, nodes);
    r := Table(nodes, doc.style, doc.decor);
  }

  // --------------------------------------------------- reading through a schema

  /** Whether a field may be absent, and how it then reads; `Skippable` fields are lists that are left
      out when empty. */
  datatype Presence = Required | Optional | Skippable | Default(value: Value)

  datatype Field = Field(schema: Schema, presence: Presence)

  /** `Typed` converts a scalar or refuses it; `FreeForm` keeps whatever is there, and `AnyTable`
      whatever table is there. */
  datatype Schema =
    | Typed(convert: Scalar -> Option<Scalar>)
    | FreeForm
    | AnyTable
    | ListOf(element: Schema)
    | Struct(fields: map<string, Field>)

  datatype Lookup = Broken | Absent | Present(value: Value)

  /** Deserialise and serialise again: defaults filled in, unknown keys dropped. */
  ghost function Normal(s: Schema, v: Value): Option<Value>
    decreases s, 1
  {
    match s
    case Typed(convert) =>
      if v.Leaf? && convert(v.scalar).Some? then Some(Leaf(convert(v.scalar).value)) else None
    case FreeForm => Some(v)
    case AnyTable => if v.Tbl? then Some(v) else None
    case ListOf(element) =>
      if v.Arr? && forall i :: 0 <= i < |v.items| ==> Normal(element, v.items[i]).Some? then
        Some(Arr(seq(|v.items|, i requires 0 <= i < |v.items| => Normal(element, v.items[i]).value)))
      else None
    case Struct(fields) =>
      if v.Tbl? && forall k :: k in fields ==> !ReadField(s, v.entries, k).Broken? then
        Some(Tbl(map k | k in fields && ReadField(s, v.entries, k).Present? :: ReadField(s, v.entries, k).value))
      else None
  }

  ghost function ReadField(s: Schema, t: map<string, Value>, k: string): Lookup
    requires s.Struct? && k in s.fields
    decreases s, 0
  {
    var f := s.fields[k];
    if k in t then
      var v := Normal(f.schema, t[k]);
      if v.None? then Broken else if f.presence.Skippable? && v.value == Arr([]) then Absent else Present(v.value)
    else
      match f.presence
      case Required => Broken
      case Optional => Absent
      case Skippable => Absent
      case Default(value) => Present(value)
  }

  /** What a table-shaped schema sees under a key. */
  ghost function ReadKey(s: Schema, t: map<string, Value>, k: string): Lookup {
    match s
    case FreeForm => At(t, k)
    case AnyTable => At(t, k)
    case Struct(fields) => if k in fields then ReadField(s, t, k) else Absent
    case _ => Broken
  }

  function At(t: map<string, Value>, k: string): Lookup {
    if k in t then Present(t[k]) else Absent
  }

  function Child(s: Schema, k: string): Schema {
    if s.Struct? && k in s.fields then s.fields[k].schema else FreeForm
  }

  predicate TableShaped(s: Schema) { s.FreeForm? || s.AnyTable? || s.Struct? }

  /** A serialised configuration: reading it changes nothing. */
  ghost predicate Saturated(s: Schema, v: Value) { Normal(s, v) == Some(v) }

  /** Reading a table is reading its keys. */
  lemma ReadsTo(s: Schema, t: map<string, Value>, n: map<string, Value>)
    requires TableShaped(s)
    ensures Normal(s, Tbl(t)) == Some(Tbl(n)) <==> forall k :: ReadKey(s, t, k) == At(n, k)
  {
    if s.FreeForm? || s.AnyTable? {
      if forall k :: ReadKey(s, t, k) == At(n, k) {
        assert forall k :: k in t <==> ReadKey(s, t, k).Present?;
        assert forall k :: k in n <==> At(n, k).Present?;
        assert forall k | k in n :: At(n, k).value == n[k] && ReadKey(s, t, k).value == t[k];
        assert t == n;
      }
    } else {
      if forall k :: ReadKey(s, t, k) == At(n, k) {
        assert forall k :: k in s.fields ==> ReadKey(s, t, k) == ReadField(s, t, k);
        var r := Normal(s, Tbl(t)).value.entries;
        forall k ensures (k in r <==> k in n) && (k in r ==> r[k] == n[k]) {
          assert ReadKey(s, t, k) == At(n, k);
        }
        assert r == n;
      }
    }
  }

  // --------------------------------------- when reading back gives what was meant

  /** The exact condition: every key that the patch leaves alone must already read as it
      should, through tables that are edited in place or conjured up empty. */
  ghost predicate Faithful(s: Schema, t: map<string, Value>, cur: Value, next: Value)
    requires cur.Tbl? && next.Tbl?
    decreases next
  {
    && (forall k :: k !in next.entries && k !in cur.entries ==> ReadKey(s, t, k) == Absent)
    && (forall k :: k in next.entries ==>
          if Unchanged(cur, next, k) then ReadKey(s, t, k) == Present(next.entries[k])
          else if k in cur.entries && cur.entries[k].Tbl? && next.entries[k].Tbl? && (k in t ==> t[k].Tbl?) then
            Faithful(Child(s, k), if k in t then t[k].entries else map[], cur.entries[k], next.entries[k])
          else true)
  }

  /** What the patched document reads as under one key. */
  lemma PatchedKey(doc: Item, cur: Value, next: Value, k: string)
    requires doc.Table? && cur.Tbl? && next.Tbl?
    ensures var t, t' := Read(doc).entries, Read(Patched(doc, cur, next)).entries;
            At(t', k) ==
              if k !in next.entries then (if k in cur.entries then Absent else At(t, k))
              else if Unchanged(cur, next, k) then At(t, k)
              else if Descends(doc, cur, next, k) then
                Present(Read(Patched(ChildNode(doc, k), cur.entries[k], next.entries[k])))
              else Present(next.entries[k])
  {
    if k in next.entries {
      ItemReadsBack(next.entries[k]);
      InlinedReadsSame(ValueToItem(next.entries[k]));
    }
  }

  lemma ChildReads(doc: Item, k: string)
    requires doc.Table?
    ensures Read(ChildNode(doc, k)) == if k in doc.nodes then Read(doc).entries[k] else Tbl(map[])
  {
    InlinedReadsSame(PLACEHOLDER);
    assert Read(PLACEHOLDER) == Tbl(map[]);
  }

  lemma SaturatedKey(s: Schema, next: Value, k: string)
    requires TableShaped(s) && next.Tbl? && Saturated(s, next)
    ensures ReadKey(s, next.entries, k) == At(next.entries, k)
    ensures k in next.entries ==> Saturated(Child(s, k), next.entries[k])
    ensures k in next.entries && s.Struct? ==> k in s.fields
    ensures k !in next.entries && s.Struct? && k in s.fields ==>
              s.fields[k].presence.Optional? || s.fields[k].presence.Skippable?
  {
    ReadsTo(s, next.entries, next.entries);
    assert ReadKey(s, next.entries, k) == At(next.entries, k);
  }

  /** A saturated table only fits a table-shaped schema. */
  lemma SaturatedTable(s: Schema, v: Value)
    requires v.Tbl? && Saturated(s, v)
    ensures TableShaped(s)
  {
  }

  lemma ReadKeyOfPresent(s: Schema, t: map<string, Value>, k: string)
    requires TableShaped(s) && k in t && (s.Struct? ==> k in s.fields)
    ensures ReadKey(s, t, k) ==
            if Normal(Child(s, k), t[k]).None? then Broken
            else if s.Struct? && s.fields[k].presence.Skippable? && Normal(Child(s, k), t[k]).value == Arr([]) then Absent
            else Present(Normal(Child(s, k), t[k]).value)
  {
  }

  /** One key reads back right exactly when the condition holds for it. */
  lemma {:induction false} KeyReadsBack(s: Schema, doc: Item, cur: Value, next: Value, k: string)
    requires TableShaped(s) && doc.Table? && cur.Tbl? && next.Tbl? && Saturated(s, next)
    ensures var t := Read(doc).entries;
            ReadKey(s, Read(Patched(doc, cur, next)).entries, k) == At(next.entries, k) <==>
            if k !in next.entries then k in cur.entries || ReadKey(s, t, k) == Absent
            else if Unchanged(cur, next, k) then ReadKey(s, t, k) == Present(next.entries[k])
            else if k in cur.entries && cur.entries[k].Tbl? && next.entries[k].Tbl? && (k in t ==> t[k].Tbl?) then
              Faithful(Child(s, k), if k in t then t[k].entries else map[], cur.entries[k], next.entries[k])
            else true
    decreases next, 0
  {
    var t, t' := Read(doc).entries, Read(Patched(doc, cur, next)).entries;
    PatchedKey(doc, cur, next, k);
    SaturatedKey(s, next, k);
    if k in next.entries && !Unchanged(cur, next, k) {
      ReadKeyOfPresent(s, t', k);
      if Descends(doc, cur, next, k) {
        ChildReads(doc, k);
        SaturatedTable(Child(s, k), next.entries[k]);
        ReadsBackIffFaithful(Child(s, k), ChildNode(doc, k), cur.entries[k], next.entries[k]);
      }
    }
  }

  /** Reading the patched document back gives exactly `next` if and only if the patch is
      faithful; nothing is assumed about how `cur` was obtained. */
  lemma {:induction false} ReadsBackIffFaithful(s: Schema, doc: Item, cur: Value, next: Value)
    requires TableShaped(s) && doc.Table? && cur.Tbl? && next.Tbl? && Saturated(s, next)
    ensures Normal(s, Read(Patched(doc, cur, next))) == Some(next) <==>
            Faithful(s, Read(doc).entries, cur, next)
    decreases next, 1
  {
    var t' := Read(Patched(doc, cur, next)).entries;
    ReadsTo(s, t', next.entries);
    forall k
      ensures ReadKey(s, t', k) == At(next.entries, k) <==>
              if k !in next.entries then k in cur.entries || ReadKey(s, Read(doc).entries, k) == Absent
              else if Unchanged(cur, next, k) then ReadKey(s, Read(doc).entries, k) == Present(next.entries[k])
              else if k in cur.entries && cur.entries[k].Tbl? && next.entries[k].Tbl? &&
                      (k in Read(doc).entries ==> Read(doc).entries[k].Tbl?) then
                Faithful(Child(s, k), if k in Read(doc).entries then Read(doc).entries[k].entries else map[],
                         cur.entries[k], next.entries[k])
              else true
    {
      KeyReadsBack(s, doc, cur, next, k);
    }
  }

  // ---------------------------------------------------- schemas for which it holds

  /** Every default that is a table is what an empty table would read as. */
  ghost predicate Coherent(s: Schema) {
    match s
    case Struct(fields) =>
      forall k :: k in fields ==>
        && Coherent(fields[k].schema)
        && (fields[k].presence.Default? && fields[k].presence.value.Tbl? ==>
              Normal(fields[k].schema, Tbl(map[])) == Some(fields[k].presence.value))
    case ListOf(element) => Coherent(element)
    case _ => true
  }

  /** With coherent defaults every patch computed from what is on disk is faithful. */
  lemma {:induction false} CoherentIsFaithful(s: Schema, t: map<string, Value>, cur: Value, next: Value)
    requires TableShaped(s) && Coherent(s) && cur.Tbl? && next.Tbl? && Saturated(s, next)
    requires Normal(s, Tbl(t)) == Some(cur)
    ensures Faithful(s, t, cur, next)
    decreases next
  {
    ReadsTo(s, t, cur.entries);
    assert forall k :: ReadKey(s, t, k) == At(cur.entries, k);
    forall k | k in next.entries && !Unchanged(cur, next, k) && k in cur.entries && cur.entries[k].Tbl? &&
               next.entries[k].Tbl? && (k in t ==> t[k].Tbl?)
      ensures Faithful(Child(s, k), if k in t then t[k].entries else map[], cur.entries[k], next.entries[k])
    {
      SaturatedKey(s, next, k);
      SaturatedTable(Child(s, k), next.entries[k]);
      assert ReadKey(s, t, k) == At(cur.entries, k);
      var sub := if k in t then t[k].entries else map[];
      if k in t {
        ReadKeyOfPresent(s, t, k);
        assert t[k] == Tbl(sub);
      }
      CoherentIsFaithful(Child(s, k), sub, cur.entries[k], next.entries[k]);
    }
  }

  /** `render_updated_document`: refuses an unreadable document, else patches it. */
  ghost function RenderUpdated(s: Schema, doc: Item, next: Value): Option<Item>
    requires TableShaped(s) && doc.Table? && next.Tbl?
  {
    var cur := Normal(s, Read(doc));
    if cur.None? then None else Some(Patched(doc, cur.value, next))
  }

  lemma NormalTable(s: Schema, t: map<string, Value>)
    requires TableShaped(s) && Normal(s, Tbl(t)).Some?
    ensures Normal(s, Tbl(t)).value.Tbl?
  {
  }

  /** The law of the writer: whatever readable document it starts from, the updated
      document reads back as exactly the configuration that was written. */
  lemma UpdatedDocumentMeansNext(s: Schema, doc: Item, next: Value)
    requires TableShaped(s) && Coherent(s) && doc.Table? && next.Tbl? && Saturated(s, next)
    ensures var r := RenderUpdated(s, doc, next);
            if Normal(s, Read(doc)).None? then r.None?
            else r.Some? && Normal(s, Read(r.value)) == Some(next)
  {
    if Normal(s, Read(doc)).Some? {
      NormalTable(s, Read(doc).entries);
      var cur := Normal(s, Read(doc)).value;
      CoherentIsFaithful(s, Read(doc).entries, cur, next);
      ReadsBackIffFaithful(s, doc, cur, next);
    }
  }

  lemma PatchingNothing(doc: Item, v: Value)
    requires doc.Table? && v.Tbl?
    ensures Patched(doc, v, v) == doc
  {
    PatchedNodes(doc, v, v, doc.nodes);
  }

  /** Writing the same configuration twice is writing it once. */
  lemma WritingTwiceIsWritingOnce(s: Schema, doc: Item, next: Value)
    requires TableShaped(s) && Coherent(s) && doc.Table? && next.Tbl? && Saturated(s, next)
    requires Normal(s, Read(doc)).Some?
    ensures var once := RenderUpdated(s, doc, next);
            once.Some? && once.value.Table? && RenderUpdated(s, once.value, next) == once
  {
    UpdatedDocumentMeansNext(s, doc, next);
    NormalTable(s, Read(doc).entries);
    PatchingNothing(RenderUpdated(s, doc, next).value, next);
  }

  /** Without coherence the law fails: the default table has two keys, only one is
      changed, and the other silently reverts because an empty table lacks it. */
  lemma IncoherentDefaultLosesKeys()
    ensures var one, two := Leaf(Integer(1)), Leaf(Integer(2));
            var s := Struct(map["d" := Field(FreeForm, Default(Tbl(map["a" := one, "b" := one])))]);
            var doc := Table(map[], Block(false), "");
            var next := Tbl(map["d" := Tbl(map["a" := one, "b" := two])]);
            && Saturated(s, next) && Normal(s, Read(doc)).Some?
            && Normal(s, Read(RenderUpdated(s, doc, next).value)) != Some(next)
  {
    var one, two := Leaf(Integer(1)), Leaf(Integer(2));
    var old' := Tbl(map["a" := one, "b" := one]);
    var s := Struct(map["d" := Field(FreeForm, Default(old'))]);
    var doc := Table(map[], Block(false), "");
    var next := Tbl(map["d" := Tbl(map["a" := one, "b" := two])]);
    assert Normal(FreeForm, next.entries["d"]) == Some(next.entries["d"]);
    assert ReadField(s, next.entries, "d") == Present(next.entries["d"]);
    assert forall k :: ReadKey(s, next.entries, k) == At(next.entries, k);
    ReadsTo(s, next.entries, next.entries);
    var cur := Tbl(map["d" := old']);
    assert Read(doc) == Tbl(map[]);
    assert forall k :: ReadKey(s, map[], k) == At(cur.entries, k);
    ReadsTo(s, map[], cur.entries);
    assert "a" in next.entries["d"].entries && Unchanged(old', next.entries["d"], "a");
    assert ReadKey(FreeForm, map[], "a") == Absent;
    assert !Faithful(FreeForm, map[], old', next.entries["d"]);
    assert next.entries["d"].entries["b"] != old'.entries["b"];
    assert !Unchanged(cur, next, "d");
    assert !Faithful(s, map[], cur, next);
    ReadsBackIffFaithful(s, doc, cur, next);
  }

  // ------------------------------------------------------ what stays untouched

  function NodeAt(item: Item, path: seq<string>): Option<Item>
    decreases |path|
  {
    if path == [] then Some(item)
    else if item.Table? && path[0] in item.nodes then NodeAt(item.nodes[path[0]], path[1..])
    else None
  }

  /** Current and next configuration agree at the end of the path, and on the way there
      disagree only about the contents of tables. */
  predicate Agree(doc: Item, cur: Value, next: Value, path: seq<string>)
    requires doc.Table? && cur.Tbl? && next.Tbl?
    decreases |path|
  {
    path != [] &&
    var k := path[0];
    || Unchanged(cur, next, k)
    || (k !in cur.entries && k !in next.entries)
    || (k in next.entries && Descends(doc, cur, next, k) &&
        Agree(ChildNode(doc, k), cur.entries[k], next.entries[k], path[1..]))
  }

  /** Wherever the configurations agree, at any depth, the node on disk keeps its value and
      its formatting, and an absent key stays absent; unknown keys are never touched. */
  lemma {:induction false} AgreedPathsAreUntouched(doc: Item, cur: Value, next: Value, path: seq<string>)
    requires doc.Table? && cur.Tbl? && next.Tbl? && Agree(doc, cur, next, path)
    ensures NodeAt(Patched(doc, cur, next), path) == NodeAt(doc, path)
    decreases |path|
  {
    var k := path[0];
    if k in next.entries && !Unchanged(cur, next, k) {
      AgreedPathsAreUntouched(ChildNode(doc, k), cur.entries[k], next.entries[k], path[1..]);
      if k !in doc.nodes {
        assert ChildNode(doc, k).nodes == map[];
      }
    }
  }

  /** The path leads through tables that are edited in place. */
  predicate Leads(doc: Item, cur: Value, next: Value, path: seq<string>)
    requires doc.Table? && cur.Tbl? && next.Tbl?
    decreases |path|
  {
    path == [] ||
    (var k := path[0];
     && k in next.entries && !Unchanged(cur, next, k) && Descends(doc, cur, next, k)
     && Leads(ChildNode(doc, k), cur.entries[k], next.entries[k], path[1..]))
  }

  /** A table that is edited in place keeps its own comments and its style; one that was not there is implicit. */
  lemma {:induction false} EditedTablesKeepTheirHeaders(doc: Item, cur: Value, next: Value, path: seq<string>)
    requires doc.Table? && cur.Tbl? && next.Tbl? && Leads(doc, cur, next, path)
    ensures var old_, new_ := NodeAt(doc, path), NodeAt(Patched(doc, cur, next), path);
            && new_.Some? && new_.value.Table?
            && (old_.Some? ==> old_.value.Table? && new_.value.style == old_.value.style && new_.value.decor == old_.value.decor)
            && (old_.None? ==> new_.value.decor == "" && (new_.value.style == Block(true) || new_.value.style == Inline))
    decreases |path|
  {
    if path != [] {
      var k := path[0];
      EditedTablesKeepTheirHeaders(ChildNode(doc, k), cur.entries[k], next.entries[k], path[1..]);
      if k !in doc.nodes && path[1..] != [] {
        assert ChildNode(doc, k).nodes == map[];
      }
    }
  }

  // ------------------------------------------------------ a document stays a document

  /** Written as a value: no part of it has a header of its own. */
  predicate InlineOnly(item: Item) {
    match item
    case Atom(_, _) => true
    case List(elements, style, _) => style.Inline? && forall i :: 0 <= i < |elements| ==> InlineOnly(elements[i])
    case Table(nodes, style, _) => style.Inline? && forall k :: k in nodes ==> InlineOnly(nodes[k])
  }

  /** Nothing with a header of its own is inside a value. */
  predicate WellFormed(item: Item) {
    match item
    case Atom(_, _) => true
    case List(elements, style, _) =>
      if style.Inline? then InlineOnly(item) else forall i :: 0 <= i < |elements| ==> WellFormed(elements[i])
    case Table(nodes, style, _) =>
      if style.Inline? then InlineOnly(item) else forall k :: k in nodes ==> WellFormed(nodes[k])
  }

  lemma {:induction false} InlineIsInline(value: Value)
    ensures InlineOnly(ValueToInline(value))
  {
    match value
    case Leaf(_) =>
    case Arr(items) => forall i | 0 <= i < |items| { InlineIsInline(items[i]); }
    case Tbl(entries) => forall k | k in entries { InlineIsInline(entries[k]); }
  }

  lemma {:induction false} InlinedIsInline(item: Item)
    ensures InlineOnly(Inlined(item))
  {
    match item
    case Atom(_, _) =>
    case List(elements, _, _) => forall i | 0 <= i < |elements| { InlinedIsInline(elements[i]); }
    case Table(nodes, _, _) => forall k | k in nodes { InlinedIsInline(nodes[k]); }
  }

  lemma {:induction false} InlineOnlyIsWellFormed(item: Item)
    requires InlineOnly(item)
    ensures WellFormed(item)
  {
  }

  /** Fresh nodes are well formed: a table and a list of tables get headers, any other list is a value. */
  lemma {:induction false} FreshNodesAreWellFormed(value: Value)
    ensures WellFormed(ValueToItem(value))
    ensures value.Tbl? ==> ValueToItem(value).Table? && ValueToItem(value).style == Block(false)
    ensures value.Arr? ==>
              && ValueToItem(value).List?
              && (ValueToItem(value).style.Block? <==>
                    value.items != [] && forall i :: 0 <= i < |value.items| ==> value.items[i].Tbl?)
  {
    match value
    case Leaf(_) => InlineIsInline(value);
    case Arr(items) =>
      InlineIsInline(value);
      forall i | 0 <= i < |items| { FreshNodesAreWellFormed(items[i]); }
    case Tbl(entries) => forall k | k in entries { FreshNodesAreWellFormed(entries[k]); }
  }

  predicate Suits(style: Style, item: Item) { if style.Inline? then InlineOnly(item) else WellFormed(item) }

  lemma KeptNodeSuits(doc: Item, k: string)
    requires doc.Table? && WellFormed(doc) && k in doc.nodes
    ensures Suits(doc.style, doc.nodes[k])
  {
  }

  lemma {:induction false} NodeSuits(doc: Item, cur: Value, next: Value, k: string)
    requires doc.Table? && cur.Tbl? && next.Tbl? && WellFormed(doc) && PatchedNode(doc, cur, next, k).Some?
    ensures Suits(doc.style, PatchedNode(doc, cur, next, k).value)
    decreases next, 0
  {
    if k in next.entries && !Unchanged(cur, next, k) {
      if Descends(doc, cur, next, k) {
        ChildIsWellFormed(doc, k);
        PatchKeepsWellFormed(ChildNode(doc, k), cur.entries[k], next.entries[k]);
      } else {
        FreshNodesAreWellFormed(next.entries[k]);
        InlinedIsInline(ValueToItem(next.entries[k]));
        hide InlineOnly, WellFormed;
      }
    } else {
      KeptNodeSuits(doc, k);
    }
  }

  /** Whatever is written into a well-formed document, at any depth, it stays well formed. */
  lemma {:induction false} PatchKeepsWellFormed(doc: Item, cur: Value, next: Value)
    requires doc.Table? && cur.Tbl? && next.Tbl? && WellFormed(doc)
    ensures WellFormed(Patched(doc, cur, next))
    decreases next, 1
  {
    var r := Patched(doc, cur, next);
    forall k | k in r.nodes ensures Suits(doc.style, r.nodes[k]) {
      NodeSuits(doc, cur, next, k);
    }
    NodesSuit(r);
  }

  lemma NodesSuit(r: Item)
    requires r.Table? && forall k :: k in r.nodes ==> Suits(r.style, r.nodes[k])
    ensures WellFormed(r)
  {
    if r.style.Inline? {
      forall k | k in r.nodes ensures InlineOnly(r.nodes[k]) { assert Suits(r.style, r.nodes[k]); }
    } else {
      forall k | k in r.nodes ensures WellFormed(r.nodes[k]) { assert Suits(r.style, r.nodes[k]); }
    }
  }

  lemma ChildIsWellFormed(doc: Item, k: string)
    requires doc.Table? && WellFormed(doc)
    ensures WellFormed(ChildNode(doc, k)) && (doc.style.Inline? ==> InlineOnly(ChildNode(doc, k)))
  {
    InlinedIsInline(PLACEHOLDER);
    InlineOnlyIsWellFormed(Inlined(PLACEHOLDER));
    if k in doc.nodes && doc.style.Inline? {
      InlineOnlyIsWellFormed(doc.nodes[k]);
    }
  }
}
