// The declarative tree of loader entries: its structure check and the disable cascade.

module EntryTree {
  import opened Basics
  import opened Sorting

  /** Entry ids stand for strings in their lexicographic order; 0 is the empty string. */
  type EntryId = nat
  type KindName = nat
  type Config = nat

  datatype Spec = Spec(id: EntryId, plugin: Option<KindName>, parent: Option<EntryId>,
                       config: Option<Config>, disabled: Option<bool>)
  {
    predicate Enabled() { disabled != Some(true) }

    predicate IsGroup() { plugin.None? }
  }

  type Entries = map<EntryId, Spec>

  /** A row of the document, or one that does not deserialize. */
  datatype Row = Malformed | Row(spec: Spec)

  datatype Document = Rows(rows: seq<Row>) | NotAnArray

  datatype Fault =
    | BadDocument
    | BadRow
    | EmptyId
    | GroupWithConfig(id: EntryId)
    | DuplicateId(id: EntryId)
    | UnknownParent(id: EntryId, parent: EntryId)
    | ParentNotGroup(id: EntryId, parent: EntryId)
    | ParentCycle(id: EntryId)

  datatype Result<+T, +E> = Ok(value: T) | Err(error: E)

  // ---- parents ----

  function ParentOf(es: Entries, id: EntryId): Option<EntryId>
  {
    if id in es && es[id].parent.Some? && es[id].parent.value in es then es[id].parent else None
  }

  /** The ancestor `n` steps up, if the chain is that long. */
  function Climb(es: Entries, id: EntryId, n: nat): Option<EntryId>
  {
    if n == 0 then Some(id)
    else
      match Climb(es, id, n - 1)
      case None => None
      case Some(x) => ParentOf(es, x)
  }

  ghost predicate ParentsAreGroups(es: Entries)
  {
    forall id {:trigger es[id].parent} :: id in es && es[id].parent.Some? ==>
      es[id].parent.value in es && es[es[id].parent.value].IsGroup()
  }

  /** The parent relation is a forest: nothing is its own proper ancestor. */
  ghost predicate Forest(es: Entries)
  {
    forall id: EntryId, n: nat :: id in es && n > 0 ==> Climb(es, id, n) != Some(id)
  }

  ghost predicate WellStructured(es: Entries)
  {
    ParentsAreGroups(es) && Forest(es)
  }

  // ---- pigeonhole ----

  lemma {:induction false} ClimbAdds(es: Entries, id: EntryId, m: nat, n: nat)
    requires Climb(es, id, m).Some?
    ensures Climb(es, id, m + n) == Climb(es, Climb(es, id, m).value, n)
  {
    if n > 0 {
      ClimbAdds(es, id, m, n - 1);
      assert m + n - 1 == m + (n - 1);
    }
  }

  lemma {:induction false} ClimbShorter(es: Entries, id: EntryId, m: nat, n: nat)
    requires m <= n && Climb(es, id, n).Some? && id in es
    ensures Climb(es, id, m).Some? && Climb(es, id, m).value in es
    decreases n
  {
    if m < n {
      ClimbShorter(es, id, m, n - 1);
    } else if n > 0 {
      ClimbShorter(es, id, n - 1, n - 1);
    }
  }

  /** A chain with more steps than there are entries runs through a cycle. */
  lemma LongClimbFindsCycle(es: Entries, id: EntryId)
    requires id in es && Climb(es, id, |es|).Some?
    ensures !Forest(es)
  {
    forall i: nat | i <= |es| ensures Climb(es, id, i).Some? && Climb(es, id, i).value in es {
      ClimbShorter(es, id, i, |es|);
    }
    var walk := seq(|es| + 1, i requires 0 <= i <= |es| => Climb(es, id, i).value);
    assert forall x :: x in walk ==> x in es.Keys;
    Pigeonhole(walk, es.Keys);
    var i, j :| 0 <= i < j < |walk| && walk[i] == walk[j];
    var x := walk[i];
    ClimbAdds(es, id, i, j - i);
    assert Climb(es, x, j - i) == Some(x);
  }

  /** On a cycle the chain never ends. */
  lemma {:induction false} CycleNeverEnds(es: Entries, id: EntryId, m: nat, n: nat)
    requires m > 0 && Climb(es, id, m) == Some(id)
    ensures Climb(es, id, n).Some?
    decreases n
  {
    if n >= m {
      CycleNeverEnds(es, id, m, n - m);
      ClimbAdds(es, id, m, n - m);
    } else {
      ClimbPrefix(es, id, n, m);
    }
  }

  lemma {:induction false} ClimbPrefix(es: Entries, id: EntryId, m: nat, n: nat)
    requires m <= n && Climb(es, id, n).Some?
    ensures Climb(es, id, m).Some?
    decreases n
  {
    if m < n { ClimbPrefix(es, id, m, n - 1); }
  }

  /** The bound of the cycle check is sound and complete. */
  lemma ForestIffChainsEnd(es: Entries)
    ensures Forest(es) <==> forall id :: id in es ==> Climb(es, id, |es|).None?
  {
    if Forest(es) {
      forall id | id in es ensures Climb(es, id, |es|).None? {
        if Climb(es, id, |es|).Some? { LongClimbFindsCycle(es, id); }
      }
    } else {
      var id, n :| id in es && n > 0 && Climb(es, id, n) == Some(id);
      CycleNeverEnds(es, id, n, |es|);
    }
  }

  // ---- validation ----

  /** What a reported fault says about the tree. */
  ghost predicate Explains(es: Entries, fault: Fault)
  {
    match fault
    case UnknownParent(id, p) => id in es && es[id].parent == Some(p) && p !in es
    case ParentNotGroup(id, p) => id in es && es[id].parent == Some(p) && p in es && !es[p].IsGroup()
    case ParentCycle(id) => id in es && Climb(es, id, |es|).Some?
    case _ => false
  }

  /** Whether the walk up from `id` outlasts the number of entries. */
  method OnCycle(es: Entries, id: EntryId) returns (cyclic: bool)
    requires id in es
    ensures cyclic <==> Climb(es, id, |es|).Some?
  {
    var seen := 0;
    var cursor := Some(id);
    while cursor.Some?
      invariant seen <= |es| + 1
      invariant seen <= |es| ==> cursor == Climb(es, id, seen)
      invariant seen > 0 ==> Climb(es, id, seen - 1).Some?
      invariant seen <= |es|
      decreases |es| + 1 - seen
    {
      seen := seen + 1;
      if seen > |es| { return true; }
      cursor := ParentOf(es, cursor.value);
    }
    if Climb(es, id, |es|).Some? { ClimbPrefix(es, id, seen, |es|); }
    return false;
  }

  /** The parent of `id`, if it declares one, exists, is a group, and starts a chain that ends. */
  ghost predicate ParentFine(es: Entries, id: EntryId)
    requires id in es
  {
    && (es[id].parent.Some? ==> es[id].parent.value in es && es[es[id].parent.value].IsGroup())
    && Climb(es, id, |es|).None?
  }

  method CheckParent(es: Entries, id: EntryId) returns (r: Result<(), Fault>)
    requires id in es
    ensures r.Ok? <==> ParentFine(es, id)
    ensures r.Err? ==> Explains(es, r.error)
  {
    if es[id].parent.None? {
      RootsEndAtOnce(es, id, |es|);
      return Ok(());
    }
    var parent := es[id].parent.value;
    if parent !in es { return Err(UnknownParent(id, parent)); }
    if !es[parent].IsGroup() { return Err(ParentNotGroup(id, parent)); }
    var cyclic := OnCycle(es, id);
    if cyclic { return Err(ParentCycle(id)); }
    return Ok(());
  }

  lemma FineIsWellStructured(es: Entries)
    ensures WellStructured(es) <==> forall id :: id in es ==> ParentFine(es, id)
  {
    ForestIffChainsEnd(es);
  }

  /** The structure check: reports a fault exactly when some entry is not fine. */
  method ValidateStructure(es: Entries) returns (r: Result<(), Fault>)
    ensures r.Ok? <==> WellStructured(es)
    ensures r.Err? ==> Explains(es, r.error)
  {
    FineIsWellStructured(es);
    var keys := Enumerate(es.Keys);
    var ids := SortIds(keys);
    for i := 0 to |ids|
      invariant forall j :: 0 <= j < i ==> ids[j] in es && ParentFine(es, ids[j])
    {
      assert ids[i] in es;
      var checked := CheckParent(es, ids[i]);
      if checked.Err? { return checked; }
    }
    assert forall id :: id in es ==> id in ids;
    return Ok(());
  }

  lemma {:induction false} RootsEndAtOnce(es: Entries, id: EntryId, n: nat)
    requires id in es && es[id].parent.None? && n > 0
    ensures Climb(es, id, n).None?
  {
    if n > 1 { RootsEndAtOnce(es, id, n - 1); }
  }

  // ---- the disable cascade ----

  /** The entry or some ancestor is disabled. */
  ghost predicate DisabledAbove(es: Entries, id: EntryId)
  {
    exists n: nat, x: EntryId :: Climb(es, id, n) == Some(x) && x in es && !es[x].Enabled()
  }

  ghost predicate EffectivelyEnabled(es: Entries, id: EntryId)
  {
    id in es && !DisabledAbove(es, id)
  }

  /** Mounted under this tree: an entry, not a group, with no disabled ancestor-or-self. */
  ghost predicate Mountable(es: Entries, id: EntryId)
  {
    EffectivelyEnabled(es, id) && !es[id].IsGroup()
  }

  /** Above an enabled entry, the question moves to its parent. */
  lemma DisabledStepsUp(es: Entries, id: EntryId)
    requires id in es && es[id].Enabled()
    ensures DisabledAbove(es, id) <==> ParentOf(es, id).Some? && DisabledAbove(es, ParentOf(es, id).value)
  {
    assert Climb(es, id, 0) == Some(id);
    if DisabledAbove(es, id) {
      var n: nat, x :| Climb(es, id, n) == Some(x) && x in es && !es[x].Enabled();
      ClimbPrefix(es, id, 1, n);
      ClimbAdds(es, id, 1, n - 1);
      assert Climb(es, ParentOf(es, id).value, n - 1) == Some(x);
    }
    if ParentOf(es, id).Some? && DisabledAbove(es, ParentOf(es, id).value) {
      var n: nat, x :| Climb(es, ParentOf(es, id).value, n) == Some(x) && x in es && !es[x].Enabled();
      ClimbAdds(es, id, 1, n);
      assert Climb(es, id, 1 + n) == Some(x);
    }
  }

  /** Walks up while rows are enabled; on a validated tree every chain ends, so the walk does. */
  method DisabledUpTheChain(es: Entries, id: EntryId) returns (disabled: bool)
    requires id in es && Climb(es, id, |es|).None?
    ensures disabled <==> DisabledAbove(es, id)
  {
    ghost var steps := 0;
    var current := Some(id);
    while current.Some?
      invariant current == Climb(es, id, steps) && steps <= |es|
      invariant current.Some? ==> current.value in es
      invariant DisabledAbove(es, id) <==> current.Some? && DisabledAbove(es, current.value)
      decreases |es| - steps
    {
      var row := es[current.value];
      if !row.Enabled() {
        assert Climb(es, current.value, 0) == current;
        return true;
      }
      DisabledStepsUp(es, current.value);
      current := ParentOf(es, current.value);
      assert steps < |es|;
      steps := steps + 1;
    }
    return false;
  }

  method IsEffectivelyEnabled(es: Entries, id: EntryId) returns (enabled: bool)
    requires WellStructured(es)
    ensures enabled <==> EffectivelyEnabled(es, id)
  {
    if id !in es { return false; }
    ForestIffChainsEnd(es);
    var disabled := DisabledUpTheChain(es, id);
    return !disabled;
  }

  /** Disabling cascades: an entry is enabled exactly when it and its parent's whole chain are. */
  lemma DisableCascades(es: Entries, id: EntryId)
    requires id in es
    ensures EffectivelyEnabled(es, id) <==>
              es[id].Enabled() && (ParentOf(es, id).Some? ==> EffectivelyEnabled(es, ParentOf(es, id).value))
  {
    if es[id].Enabled() {
      DisabledStepsUp(es, id);
    } else {
      assert Climb(es, id, 0) == Some(id);
    }
  }

  // ---- documents ----

  /** A row that parses: it deserializes, has a non-empty id, and carries no config if it is a group. */
  predicate Parses(row: Row)
  {
    row.Row? && row.spec.id != 0 && !(row.spec.IsGroup() && row.spec.config.Some?)
  }

  method ParseRow(row: Row) returns (r: Result<Spec, Fault>)
    ensures r.Ok? <==> Parses(row)
    ensures r.Ok? <==> row.Row? && row.spec.id != 0 && (row.spec.plugin.None? ==> row.spec.config.None?)
    ensures r.Ok? ==> r.value == row.spec
    ensures r.Err? ==> r.error == if row.Malformed? then BadRow
                                  else if row.spec.id == 0 then EmptyId
                                  else GroupWithConfig(row.spec.id)
  {
    if row.Malformed? { return Err(BadRow); }
    if row.spec.id == 0 { return Err(EmptyId); }
    if row.spec.IsGroup() && row.spec.config.Some? { return Err(GroupWithConfig(row.spec.id)); }
    return Ok(row.spec);
  }

  /** The rows by id, later rows overriding earlier ones. */
  function Merged(rows: seq<Row>): Entries
  {
    if rows == [] then map[]
    else
      var before := Merged(rows[..|rows| - 1]);
      if Parses(rows[|rows| - 1]) then before[rows[|rows| - 1].spec.id := rows[|rows| - 1].spec] else before
  }

  ghost predicate AllParse(rows: seq<Row>)
  {
    forall i :: 0 <= i < |rows| ==> Parses(rows[i])
  }

  ghost predicate UniqueIds(rows: seq<Row>)
    requires AllParse(rows)
  {
    forall i, j :: 0 <= i < j < |rows| ==> rows[i].spec.id != rows[j].spec.id
  }

  lemma {:induction false} MergedKeys(rows: seq<Row>)
    requires AllParse(rows)
    ensures forall id :: id in Merged(rows) <==> exists i :: 0 <= i < |rows| && rows[i].spec.id == id
    ensures forall id :: id in Merged(rows) ==> Merged(rows)[id].id == id
  {
    if rows != [] {
      var before := rows[..|rows| - 1];
      MergedKeys(before);
      forall id | id in Merged(rows) ensures exists i :: 0 <= i < |rows| && rows[i].spec.id == id {
        if id in Merged(before) {
          var i :| 0 <= i < |before| && before[i].spec.id == id;
          assert rows[i].spec.id == id;
        } else {
          assert rows[|rows| - 1].spec.id == id;
        }
      }
      forall i | 0 <= i < |rows| ensures rows[i].spec.id in Merged(rows) {
        if i < |before| { assert before[i].spec.id in Merged(before); }
      }
    }
  }

  /** With unique ids every row is kept as it is. */
  lemma {:induction false} MergedHoldsRows(rows: seq<Row>)
    requires AllParse(rows) && UniqueIds(rows)
    ensures forall i :: 0 <= i < |rows| ==>
          rows[i].spec.id in Merged(rows) && Merged(rows)[rows[i].spec.id] == rows[i].spec
  {
    if rows != [] {
      var before := rows[..|rows| - 1];
      MergedHoldsRows(before);
      forall i | 0 <= i < |rows|
        ensures rows[i].spec.id in Merged(rows) && Merged(rows)[rows[i].spec.id] == rows[i].spec
      {
        if i < |before| { assert before[i] == rows[i]; }
      }
    }
  }

  /** Layers stack: later rows win by id, all other entries stay. */
  lemma {:induction false} LayersOverride(a: seq<Row>, b: seq<Row>)
    ensures Merged(a + b) == Merged(a) + Merged(b)
  {
    if b == [] {
      assert a + b == a;
    } else {
      LayersOverride(a, b[..|b| - 1]);
      assert (a + b)[..|a + b| - 1] == a + b[..|b| - 1];
      assert (a + b)[|a + b| - 1] == b[|b| - 1];
    }
  }

  ghost predicate Acceptable(doc: Document)
  {
    doc.Rows? && AllParse(doc.rows) && UniqueIds(doc.rows) && WellStructured(Merged(doc.rows))
  }

  method CollectRows(rows: seq<Row>) returns (r: Result<Entries, Fault>)
    ensures r.Ok? <==> AllParse(rows) && UniqueIds(rows)
    ensures r.Ok? ==> r.value == Merged(rows)
  {
    var es: Entries := map[];
    assert rows[..0] == [];
    for i := 0 to |rows|
      invariant AllParse(rows[..i]) && UniqueIds(rows[..i]) && es == Merged(rows[..i])
    {
      assert rows[..i + 1][..i] == rows[..i];
      MergedKeys(rows[..i]);
      var spec := ParseRow(rows[i]);
      if spec.Err? { return Err(spec.error); }
      if spec.value.id in es {
        ghost var j :| 0 <= j < i && rows[..i][j].spec.id == spec.value.id;
        assert rows[j].spec.id == rows[i].spec.id;
        return Err(DuplicateId(spec.value.id));
      }
      es := es[spec.value.id := spec.value];
    }
    assert rows[..|rows|] == rows;
    return Ok(es);
  }

  /** `EntryTree::from_value`: accepts exactly the well-formed documents. */
  method FromValue(doc: Document) returns (r: Result<Entries, Fault>)
    ensures r.Ok? <==> Acceptable(doc)
    ensures r.Ok? ==> r.value == Merged(doc.rows) && RoundTrips(r.value)
  {
    if doc.NotAnArray? { return Err(BadDocument); }
    var collected := CollectRows(doc.rows);
    if collected.Err? { return collected; }
    var structure := ValidateStructure(collected.value);
    if structure.Err? { return Err(structure.error); }
    AcceptedRoundTrip(doc.rows);
    return collected;
  }

  /** The rows of all layers, in order. */
  function Flat(layers: seq<seq<Row>>): seq<Row>
  {
    if layers == [] then [] else Flat(layers[..|layers| - 1]) + layers[|layers| - 1]
  }

  lemma FlatGrows(layers: seq<seq<Row>>, i: nat)
    requires i < |layers|
    ensures Flat(layers[..i + 1]) == Flat(layers[..i]) + layers[i]
  {
    assert layers[..i + 1][..i] == layers[..i];
  }

  ghost predicate LayersParse(docs: seq<Document>)
  {
    forall i :: 0 <= i < |docs| ==> LayerParses(docs[i])
  }

  ghost predicate LayerParses(doc: Document)
  {
    doc.Rows? && AllParse(doc.rows)
  }

  function RowsOf(docs: seq<Document>): seq<seq<Row>>
  {
    seq(|docs|, i requires 0 <= i < |docs| => if docs[i].Rows? then docs[i].rows else [])
  }

  method MergeLayer(merged: Entries, rows: seq<Row>, ghost before: seq<Row>) returns (r: Result<Entries, Fault>)
    requires merged == Merged(before)
    ensures r.Ok? <==> AllParse(rows)
    ensures r.Ok? ==> r.value == Merged(before + rows)
  {
    var es := merged;
    assert before + rows[..0] == before;
    for j := 0 to |rows|
      invariant AllParse(rows[..j]) && es == Merged(before + rows[..j])
    {
      assert (before + rows[..j + 1])[..|before| + j] == before + rows[..j];
      var spec := ParseRow(rows[j]);
      if spec.Err? { return Err(spec.error); }
      es := es[spec.value.id := spec.value];
    }
    assert rows[..|rows|] == rows;
    return Ok(es);
  }

  /** `EntryTree::compose`: patch layers stacked over a base, checked once as a whole. */
  method Compose(docs: seq<Document>) returns (r: Result<Entries, Fault>)
    ensures r.Ok? <==> LayersParse(docs) && WellStructured(Merged(Flat(RowsOf(docs))))
    ensures r.Ok? ==> r.value == Merged(Flat(RowsOf(docs))) && RoundTrips(r.value)
  {
    var merged: Entries := map[];
    ghost var layers := RowsOf(docs);
    assert layers[..0] == [];
    for i := 0 to |docs|
      invariant forall j :: 0 <= j < i ==> LayerParses(docs[j])
      invariant merged == Merged(Flat(layers[..i]))
    {
      if docs[i].NotAnArray? { return Err(BadDocument); }
      var layer := MergeLayer(merged, docs[i].rows, Flat(layers[..i]));
      if layer.Err? { return Err(layer.error); }
      merged := layer.value;
      FlatGrows(layers, i);
    }
    assert layers[..|docs|] == layers;
    var structure := ValidateStructure(merged);
    if structure.Err? { return Err(structure.error); }
    FlatParses(docs, |docs|);
    AcceptedRoundTrip(Flat(layers));
    return Ok(merged);
  }

  // ---- the document form of a tree ----

  /** What a tree obtained from a document satisfies. */
  ghost predicate TreeOk(es: Entries)
  {
    WellStructured(es) && forall id :: id in es ==> es[id].id == id && Parses(Row(es[id]))
  }

  /** The rows of a tree in id order (`to_json_str`). */
  ghost function ToRows(es: Entries): (rows: seq<Row>)
    ensures |rows| == |InOrder(es.Keys)|
    ensures forall i :: 0 <= i < |rows| ==> InOrder(es.Keys)[i] in es && rows[i] == Row(es[InOrder(es.Keys)[i]])
  {
    var ids := InOrder(es.Keys);
    seq(|ids|, i requires 0 <= i < |ids| => assert ids[i] in ids; Row(es[ids[i]]))
  }

  lemma RowsAreDistinct(es: Entries)
    requires TreeOk(es)
    ensures AllParse(ToRows(es)) && UniqueIds(ToRows(es))
    ensures forall i :: 0 <= i < |ToRows(es)| ==>
          InOrder(es.Keys)[i] in es && ToRows(es)[i].spec == es[InOrder(es.Keys)[i]]
  {
  }

  lemma RowOf(es: Entries, id: EntryId) returns (i: nat)
    requires TreeOk(es) && id in es
    ensures i < |ToRows(es)| && ToRows(es)[i] == Row(es[id]) && es[id].id == id
  {
    var ids := InOrder(es.Keys);
    assert id in ids;
    i :| 0 <= i < |ids| && ids[i] == id;
  }

  /** The tree's document is accepted and reads back as the tree. */
  ghost predicate RoundTrips(es: Entries)
  {
    Acceptable(Rows(ToRows(es))) && Merged(ToRows(es)) == es
  }

  /** Writing a tree out and reading it back gives the same tree. */
  lemma DocumentRoundTrip(es: Entries)
    requires TreeOk(es)
    ensures RoundTrips(es)
  {
    RowsAreDistinct(es);
    MergedIsTree(es, ToRows(es));
  }

  lemma MergedIsTree(es: Entries, rows: seq<Row>)
    requires TreeOk(es) && rows == ToRows(es) && AllParse(rows) && UniqueIds(rows)
    ensures Merged(rows) == es
  {
    forall id | id in es ensures id in Merged(rows) && Merged(rows)[id] == es[id] {
      OldIdIsMerged(es, rows, id);
    }
    forall id | id in Merged(rows) ensures id in es {
      MergedIdIsOld(es, rows, id);
    }
    SameEntries(Merged(rows), es);
  }

  lemma SameEntries(a: Entries, b: Entries)
    requires forall id :: id in b ==> id in a && a[id] == b[id]
    requires forall id :: id in a ==> id in b
    ensures a == b
  {
  }

  lemma OldIdIsMerged(es: Entries, rows: seq<Row>, id: EntryId)
    requires TreeOk(es) && rows == ToRows(es) && AllParse(rows) && UniqueIds(rows) && id in es
    ensures id in Merged(rows) && Merged(rows)[id] == es[id]
  {
    var i := RowOf(es, id);
    MergedHoldsRows(rows);
    assert rows[i].spec == es[id];
  }

  lemma MergedIdIsOld(es: Entries, rows: seq<Row>, id: EntryId)
    requires TreeOk(es) && rows == ToRows(es) && AllParse(rows) && id in Merged(rows)
    ensures id in es
  {
    RowsAreDistinct(es);
    MergedKeys(rows);
    var i :| 0 <= i < |rows| && rows[i].spec.id == id;
    assert es[InOrder(es.Keys)[i]].id == InOrder(es.Keys)[i];
  }

  /** Every merged entry is the spec of some row. */
  lemma {:induction false} MergedComesFromRows(rows: seq<Row>, id: EntryId)
    requires AllParse(rows) && id in Merged(rows)
    ensures Merged(rows)[id].id == id && Parses(Row(Merged(rows)[id]))
  {
    var last := |rows| - 1;
    if rows[last].spec.id != id { MergedComesFromRows(rows[..last], id); }
  }

  /**
   * Whatever `from_value` accepts, or `compose` makes of its layers, can be written out and read back as the
   * same tree.
   */
  lemma AcceptedRoundTrip(rows: seq<Row>)
    requires AllParse(rows) && WellStructured(Merged(rows))
    ensures TreeOk(Merged(rows)) && RoundTrips(Merged(rows))
  {
    forall id | id in Merged(rows) ensures Merged(rows)[id].id == id && Parses(Row(Merged(rows)[id])) {
      MergedComesFromRows(rows, id);
    }
    DocumentRoundTrip(Merged(rows));
  }

  lemma {:induction false} FlatParses(docs: seq<Document>, n: nat)
    requires LayersParse(docs) && n <= |docs|
    ensures AllParse(Flat(RowsOf(docs)[..n]))
  {
    if n > 0 {
      FlatParses(docs, n - 1);
      FlatGrows(RowsOf(docs), n - 1);
      assert LayerParses(docs[n - 1]);
    }
  }

  // ---- in terms of the rows alone ----

  /** Each row of the path names the next one as its parent. */
  ghost predicate ParentPath(es: Entries, p: seq<EntryId>)
  {
    |p| > 0 && p[0] in es && forall i :: 0 <= i < |p| - 1 ==> Names(es, p[i], p[i + 1])
  }

  ghost predicate Names(es: Entries, child: EntryId, parent: EntryId)
  {
    child in es && parent in es && es[child].parent == Some(parent)
  }

  lemma {:induction false} ClimbHasPath(es: Entries, id: EntryId, n: nat) returns (p: seq<EntryId>)
    requires id in es && Climb(es, id, n).Some?
    ensures ParentPath(es, p) && |p| == n + 1 && p[0] == id && Some(p[n]) == Climb(es, id, n) && p[n] in es
  {
    if n == 0 {
      p := [id];
    } else {
      var q := ClimbHasPath(es, id, n - 1);
      p := q + [Climb(es, id, n).value];
      assert Names(es, q[n - 1], p[n]);
      forall i | 0 <= i < |p| - 1 ensures Names(es, p[i], p[i + 1]) {
        if i < n - 1 { assert Names(es, q[i], q[i + 1]); }
      }
    }
  }

  lemma {:induction false} PathIsClimb(es: Entries, p: seq<EntryId>, n: nat)
    requires ParentPath(es, p) && n < |p|
    ensures Climb(es, p[0], n) == Some(p[n]) && p[n] in es
  {
    if n > 0 {
      PathIsClimb(es, p, n - 1);
      assert Names(es, p[n - 1], p[n - 1 + 1]);
    }
  }

  /** A valid structure: every named parent exists and has no plugin, and no path of parents comes back. */
  lemma WellStructuredIff(es: Entries)
    ensures WellStructured(es) <==>
              && (forall id, p :: id in es && es[id].parent == Some(p) ==> p in es && es[p].plugin.None?)
              && (forall p :: ParentPath(es, p) && |p| > 1 ==> p[0] != p[|p| - 1])
  {
    ForestIffNoPathReturns(es);
    if forall id, p :: id in es && es[id].parent == Some(p) ==> p in es && es[p].plugin.None? {
      forall id | id in es && es[id].parent.Some?
        ensures es[id].parent.value in es && es[es[id].parent.value].IsGroup()
      {
        assert es[id].parent == Some(es[id].parent.value);
      }
    }
  }

  lemma ForestIffNoPathReturns(es: Entries)
    ensures Forest(es) <==> forall p :: ParentPath(es, p) && |p| > 1 ==> p[0] != p[|p| - 1]
  {
    if Forest(es) {
      forall p | ParentPath(es, p) && |p| > 1 ensures p[0] != p[|p| - 1] {
        PathIsClimb(es, p, |p| - 1);
      }
    } else {
      var id: EntryId, n: nat :| id in es && n > 0 && Climb(es, id, n) == Some(id);
      var p := ClimbHasPath(es, id, n);
      assert ParentPath(es, p) && |p| > 1 && p[0] == p[|p| - 1];
    }
  }

  /** Mountable: an entry with a plugin such that no path of parents from it reaches a row marked disabled. */
  lemma MountableIff(es: Entries, id: EntryId)
    ensures Mountable(es, id) <==>
              && id in es && es[id].plugin.Some?
              && forall p :: ParentPath(es, p) && p[0] == id ==>
                   p[|p| - 1] in es && es[p[|p| - 1]].disabled != Some(true)
  {
    if id in es && DisabledAbove(es, id) {
      var n: nat, x: EntryId :| Climb(es, id, n) == Some(x) && x in es && !es[x].Enabled();
      var p := ClimbHasPath(es, id, n);
      assert ParentPath(es, p) && p[0] == id && p[|p| - 1] == x;
    }
    forall p | ParentPath(es, p) && p[0] == id
      ensures p[|p| - 1] in es && (es[p[|p| - 1]].disabled == Some(true) ==> DisabledAbove(es, id))
    {
      PathIsClimb(es, p, |p| - 1);
    }
  }
}
