// Table shapes and their baselines (internal/cdc/relation.go).
module Relation {
  import opened Cdc

  datatype ShapeColumn = ShapeColumn(name: string, typeOid: uint32)

  // What row decoding depends on in a table. `key` is sorted.
  datatype Shape = Shape(table: string, oid: uint32, identity: char, columns: seq<ShapeColumn>, key: seq<string>)

  datatype RelationColumn = RelationColumn(flags: nat, name: string, typeOid: uint32)

  // A pgoutput Relation message.
  datatype RelationMessage = RelationMessage(id: uint32, namespace: string, name: string, identity: char,
                                             columns: seq<RelationColumn>)

  function QualifiedTable(namespace: string, name: string): string {
    if namespace == "" then name else namespace + "." + name
  }

  // Key names in the order of the message, and sorted

  function KeyNames(columns: seq<RelationColumn>): seq<string> {
    if columns == [] then []
    else
      var c := columns[|columns| - 1];
      KeyNames(columns[..|columns| - 1]) + if c.flags == 1 then [c.name] else []
  }

  // The order slices.Sort puts names in.
  predicate AtMost(a: string, b: string) {
    a == [] || (b != [] && (a[0] < b[0] || (a[0] == b[0] && AtMost(a[1..], b[1..]))))
  }

  predicate Ascending(s: seq<string>) {
    forall i, j :: 0 <= i < j < |s| ==> AtMost(s[i], s[j])
  }

  lemma {:induction false} AtMostTotal(a: string, b: string)
    ensures AtMost(a, b) || AtMost(b, a)
    ensures AtMost(a, b) && AtMost(b, a) ==> a == b
  {
    if a != [] && b != [] && a[0] == b[0] {
      AtMostTotal(a[1..], b[1..]);
      assert a == [a[0]] + a[1..] && b == [b[0]] + b[1..];
    }
  }

  lemma {:induction false} AtMostTransitive(a: string, b: string, c: string)
    requires AtMost(a, b) && AtMost(b, c)
    ensures AtMost(a, c)
  {
    if a != [] && a[0] == b[0] == c[0] { AtMostTransitive(a[1..], b[1..], c[1..]); }
  }

  function InsertName(name: string, s: seq<string>): (r: seq<string>)
    ensures multiset(r) == multiset(s) + multiset{name}
  {
    if s == [] then [name]
    else if AtMost(name, s[0]) then [name] + s
    else
      assert s == [s[0]] + s[1..];
      [s[0]] + InsertName(name, s[1..])
  }

  lemma {:induction false} InsertNameAscends(name: string, s: seq<string>)
    requires Ascending(s)
    ensures Ascending(InsertName(name, s))
  {
    if s != [] {
      AtMostTotal(name, s[0]);
      if AtMost(name, s[0]) {
        forall i | 0 <= i < |s| ensures AtMost(name, s[i]) {
          if i > 0 { AtMostTransitive(name, s[0], s[i]); }
        }
      } else {
        InsertNameAscends(name, s[1..]);
        var rest := InsertName(name, s[1..]);
        forall i | 0 <= i < |rest| ensures AtMost(s[0], rest[i]) {
          assert rest[i] in multiset(s[1..]) + multiset{name};
        }
      }
    }
  }

  function SortNames(names: seq<string>): (r: seq<string>)
    ensures multiset(r) == multiset(names)
  {
    if names == [] then []
    else
      var n := |names| - 1;
      assert names == names[..n] + [names[n]];
      InsertName(names[n], SortNames(names[..n]))
  }

  lemma {:induction false} SortAscends(names: seq<string>)
    ensures Ascending(SortNames(names))
  {
    if names != [] {
      SortAscends(names[..|names| - 1]);
      InsertNameAscends(names[|names| - 1], SortNames(names[..|names| - 1]));
    }
  }

  // There is one ascending arrangement of a multiset of names.
  lemma {:induction false} AscendingUnique(a: seq<string>, b: seq<string>)
    requires Ascending(a) && Ascending(b) && multiset(a) == multiset(b)
    ensures a == b
  {
    if a == [] {
      assert |multiset(a)| == |a| && |multiset(b)| == |b|;
    } else {
      assert a[0] in multiset(b);
      assert b != [];
      assert b[0] in multiset(a);
      var i :| 0 <= i < |b| && b[i] == a[0];
      var j :| 0 <= j < |a| && a[j] == b[0];
      AtMostTotal(a[0], b[0]);
      AtMostTotal(a[0], a[0]);
      assert a == [a[0]] + a[1..] && b == [b[0]] + b[1..];
      assert multiset(a[1..]) == multiset(a) - multiset{a[0]};
      assert multiset(b[1..]) == multiset(b) - multiset{b[0]};
      AscendingUnique(a[1..], b[1..]);
    }
  }

  function ShapeColumns(columns: seq<RelationColumn>): (r: seq<ShapeColumn>)
    ensures |r| == |columns|
  {
    seq(|columns|, i requires 0 <= i < |columns| => ShapeColumn(columns[i].name, columns[i].typeOid))
  }

  function ShapeOf(message: RelationMessage): Shape {
    Shape(QualifiedTable(message.namespace, message.name), message.id, message.identity,
          ShapeColumns(message.columns), SortNames(KeyNames(message.columns)))
  }

  method ShapeOfRelation(message: RelationMessage) returns (shape: Shape)
    ensures shape == ShapeOf(message)
  {
    var columns: seq<ShapeColumn>, key: seq<string> := [], [];
    for i := 0 to |message.columns|
      invariant columns == ShapeColumns(message.columns[..i])
      invariant key == KeyNames(message.columns[..i])
    {
      var column := message.columns[i];
      assert message.columns[..i + 1][..i] == message.columns[..i];
      columns := columns + [ShapeColumn(column.name, column.typeOid)];
      if column.flags == 1 {
        key := key + [column.name];
      }
    }
    assert message.columns[..|message.columns|] == message.columns;
    shape := Shape(QualifiedTable(message.namespace, message.name), message.id, message.identity, columns,
                   SortNames(key));
  }

  // How one shape departs from another

  datatype Difference =
    | Recreated
    | IdentityChanged
    | KeyChanged
    | ColumnDropped(name: string)
    | ColumnAdded(name: string)
    | ColumnDroppedOrRenamed(name: string)
    | ColumnAddedOrMoved(name: string)
    | ColumnRetyped(name: string)
    | Renamed(to: string)

  // What row decoding depends on is the same. The table name is not compared.
  predicate SameShape(s: Shape, actual: Shape) {
    s.oid == actual.oid && s.identity == actual.identity && s.key == actual.key && s.columns == actual.columns
  }

  // The difference at column i, all before it being equal.
  function ColumnDifference(s: Shape, actual: Shape, i: nat): Option<Difference> {
    if i >= |actual.columns| then (if i >= |s.columns| then None else Some(ColumnDropped(s.columns[i].name)))
    else if i >= |s.columns| then Some(ColumnAdded(actual.columns[i].name))
    else if s.columns[i].name != actual.columns[i].name then
      if forall c :: c in actual.columns ==> c.name != s.columns[i].name
      then Some(ColumnDroppedOrRenamed(s.columns[i].name))
      else Some(ColumnAddedOrMoved(actual.columns[i].name))
    else if s.columns[i].typeOid != actual.columns[i].typeOid then Some(ColumnRetyped(s.columns[i].name))
    else None
  }

  method HasColumn(columns: seq<ShapeColumn>, name: string) returns (found: bool)
    ensures found <==> exists c :: c in columns && c.name == name
  {
    for i := 0 to |columns|
      invariant forall c :: c in columns[..i] ==> c.name != name
    {
      if columns[i].name == name {
        return true;
      }
    }
    found := false;
  }

  function Longer(a: nat, b: nat): nat {
    if a > b then a else b
  }

  // diff: the first difference, or None exactly when nothing differs.
  method Diff(s: Shape, actual: Shape) returns (d: Option<Difference>)
    ensures d.None? <==> SameShape(s, actual)
    ensures d == DifferenceOf(s, actual)
  {
    if s.oid != actual.oid { return Some(Recreated); }
    if s.identity != actual.identity { return Some(IdentityChanged); }
    if s.key != actual.key { return Some(KeyChanged); }
    var n := Longer(|s.columns|, |actual.columns|);
    for i := 0 to n
      invariant i <= |s.columns| && i <= |actual.columns| && s.columns[..i] == actual.columns[..i]
    {
      if i >= |actual.columns| {
        d := Some(ColumnDropped(s.columns[i].name));
      } else if i >= |s.columns| {
        d := Some(ColumnAdded(actual.columns[i].name));
      } else if s.columns[i].name != actual.columns[i].name {
        var found := HasColumn(actual.columns, s.columns[i].name);
        d := Some(if !found then ColumnDroppedOrRenamed(s.columns[i].name)
                  else ColumnAddedOrMoved(actual.columns[i].name));
      } else if s.columns[i].typeOid != actual.columns[i].typeOid {
        d := Some(ColumnRetyped(s.columns[i].name));
      } else {
        continue;
      }
      FirstDifferenceAt(s, actual, i);
      return;
    }
    d := None;
    assert s.columns[..n] == s.columns && actual.columns[..n] == actual.columns;
  }

  // Where two column lists first differ.
  function FirstColumn(a: seq<ShapeColumn>, b: seq<ShapeColumn>): (i: nat)
    ensures i <= |a| && i <= |b| && a[..i] == b[..i]
    ensures i < |a| && i < |b| ==> a[i] != b[i]
  {
    if a == [] || b == [] || a[0] != b[0] then 0 else
      assert forall k :: 0 <= k < |a| && k < |b| && a[1..][..k] == b[1..][..k] && k + 1 <= |a| && k + 1 <= |b| ==>
        a[..k + 1] == [a[0]] + a[1..][..k] && b[..k + 1] == [b[0]] + b[1..][..k];
      1 + FirstColumn(a[1..], b[1..])
  }

  function DifferenceOf(s: Shape, actual: Shape): Option<Difference> {
    if s.oid != actual.oid then Some(Recreated)
    else if s.identity != actual.identity then Some(IdentityChanged)
    else if s.key != actual.key then Some(KeyChanged)
    else if s.columns == actual.columns then None
    else ColumnDifference(s, actual, FirstColumn(s.columns, actual.columns))
  }

  lemma FirstDifferenceAt(s: Shape, actual: Shape, i: nat)
    requires i <= |s.columns| && i <= |actual.columns| && s.columns[..i] == actual.columns[..i]
    requires i < |s.columns| || i < |actual.columns|
    requires i < |s.columns| && i < |actual.columns| ==> s.columns[i] != actual.columns[i]
    ensures FirstColumn(s.columns, actual.columns) == i && s.columns != actual.columns
  {
    var j := FirstColumn(s.columns, actual.columns);
    assert forall k :: 0 <= k < i ==> s.columns[k] == s.columns[..i][k] && actual.columns[k] == actual.columns[..i][k];
    assert forall k :: 0 <= k < j ==> s.columns[k] == s.columns[..j][k] && actual.columns[k] == actual.columns[..j][k];
  }

  lemma NoDifference(s: Shape, actual: Shape)
    ensures DifferenceOf(s, actual).None? <==> SameShape(s, actual)
  {
    var i := FirstColumn(s.columns, actual.columns);
    if i == |s.columns| == |actual.columns| {
      assert s.columns[..i] == s.columns && actual.columns[..i] == actual.columns;
    }
  }

  // Two Relation messages present the same shape exactly when they agree on the
  // relation, its identity, its columns in order, and which names are key
  // columns, in whatever order and however often.
  lemma SameRelations(a: RelationMessage, b: RelationMessage)
    ensures SameShape(ShapeOf(a), ShapeOf(b)) <==>
            && a.id == b.id && a.identity == b.identity
            && ShapeColumns(a.columns) == ShapeColumns(b.columns)
            && multiset(KeyNames(a.columns)) == multiset(KeyNames(b.columns))
  {
    SortAscends(KeyNames(a.columns));
    SortAscends(KeyNames(b.columns));
    if multiset(KeyNames(a.columns)) == multiset(KeyNames(b.columns)) {
      AscendingUnique(SortNames(KeyNames(a.columns)), SortNames(KeyNames(b.columns)));
    }
  }

  // The baselines of validated projection tables

  datatype Registry = Registry(byTable: map<string, Shape>, byOid: map<uint32, Shape>, generation: nat)

  predicate Unchanged(r: Registry, shape: Shape) {
    shape.table in r.byTable && SameShape(r.byTable[shape.table], shape)
  }

  function Recorded(r: Registry, shape: Shape): Registry {
    if Unchanged(r, shape) then r
    else
      var rest := if shape.table in r.byTable then r.byOid - {r.byTable[shape.table].oid} else r.byOid;
      Registry(r.byTable[shape.table := shape], rest[shape.oid := shape], r.generation + 1)
  }

  class Shapes {
    var byTable: map<string, Shape>
    var byOid: map<uint32, Shape>
    var generation: nat

    ghost function Model(): Registry
      reads this
    {
      Registry(byTable, byOid, generation)
    }

    constructor ()
      ensures Model() == EMPTY
    {
      byTable, byOid, generation := map[], map[], 0;
    }

    // record makes shape the baseline of its table. Recording an unchanged shape
    // leaves the generation alone.
    method Record(shape: Shape)
      modifies this
      ensures Model() == Recorded(old(Model()), shape)
    {
      if shape.table in byTable {
        var previous := byTable[shape.table];
        var difference := Diff(previous, shape);
        if difference.None? {
          return;
        }
        byOid := byOid - {previous.oid};
      }
      byTable := byTable[shape.table := shape];
      byOid := byOid[shape.oid := shape];
      generation := generation + 1;
    }
  }

  // Each table's baseline is its own, and whatever byOid holds is the current
  // baseline of some table, under that baseline's relation ID.
  ghost predicate Sound(r: Registry) {
    && (forall t :: t in r.byTable ==> r.byTable[t].table == t)
    && (forall o :: o in r.byOid ==>
          && r.byOid[o].oid == o
          && r.byOid[o].table in r.byTable && r.byTable[r.byOid[o].table] == r.byOid[o])
  }

  // Table t's baseline can be found by its relation ID.
  predicate Found(r: Registry, t: string)
    requires t in r.byTable
  {
    r.byTable[t].oid in r.byOid && r.byOid[r.byTable[t].oid] == r.byTable[t]
  }

  lemma RecordKeepsSound(r: Registry, shape: Shape)
    requires Sound(r)
    ensures Sound(Recorded(r, shape))
  {
    var r' := Recorded(r, shape);
    if !Unchanged(r, shape) {
      forall o | o in r'.byOid
        ensures r'.byOid[o].oid == o
        ensures r'.byOid[o].table in r'.byTable && r'.byTable[r'.byOid[o].table] == r'.byOid[o]
      {
        if o != shape.oid { assert o in r.byOid; }
      }
    }
  }

  // Exactly which baselines a record loses from byOid: those of other tables under
  // the new shape's relation ID, or under the ID its table had before.
  lemma RecordFinds(r: Registry, shape: Shape, t: string)
    requires Sound(r) && !Unchanged(r, shape) && (t in r.byTable || t == shape.table)
    ensures t in Recorded(r, shape).byTable
    ensures Found(Recorded(r, shape), t) <==>
            || t == shape.table
            || (&& Found(r, t) && r.byTable[t].oid != shape.oid
                && (shape.table in r.byTable ==> r.byTable[t].oid != r.byTable[shape.table].oid))
  {
  }

  // Every baseline can be found.
  ghost predicate Complete(r: Registry) {
    forall t :: t in r.byTable ==> Found(r, t)
  }

  // No other table's baseline has this shape's relation ID.
  ghost predicate OwnOid(r: Registry, shape: Shape) {
    forall t :: t in r.byTable && t != shape.table ==> r.byTable[t].oid != shape.oid
  }

  // The registry after a run of records.
  function RecordedAll(r: Registry, run: seq<Shape>): Registry {
    if run == [] then r else Recorded(RecordedAll(r, run[..|run| - 1]), run[|run| - 1])
  }

  const EMPTY := Registry(map[], map[], 0)

  // Complete after every step of a run.
  ghost predicate AlwaysComplete(run: seq<Shape>) {
    run == [] || (AlwaysComplete(run[..|run| - 1]) && Complete(RecordedAll(EMPTY, run)))
  }

  // Every step recorded an unchanged shape, or one whose relation ID no other
  // table's baseline had.
  ghost predicate NeverTaken(run: seq<Shape>) {
    run == [] ||
    (var before := RecordedAll(EMPTY, run[..|run| - 1]);
     NeverTaken(run[..|run| - 1]) && (Unchanged(before, run[|run| - 1]) || OwnOid(before, run[|run| - 1])))
  }

  // Over a whole run: byOid is always sound, and it stays complete throughout
  // exactly when no shape was recorded under a relation ID that another table's
  // baseline still had.
  lemma {:induction false} CompleteIff(run: seq<Shape>)
    ensures Sound(RecordedAll(EMPTY, run))
    ensures AlwaysComplete(run) <==> NeverTaken(run)
  {
    if run != [] {
      var m := |run| - 1;
      var before := RecordedAll(EMPTY, run[..m]);
      hide Sound, Complete, Unchanged, OwnOid, Recorded;
      CompleteIff(run[..m]);
      RecordKeepsSound(before, run[m]);
      if AlwaysComplete(run[..m]) {
        AlwaysCompleteNow(run[..m]);
        CompleteStep(before, run[m]);
      }
    }
  }

  lemma AlwaysCompleteNow(run: seq<Shape>)
    requires AlwaysComplete(run)
    ensures Complete(RecordedAll(EMPTY, run))
  {
  }

  lemma CompleteStep(r: Registry, shape: Shape)
    requires Sound(r) && Complete(r)
    ensures Complete(Recorded(r, shape)) <==> Unchanged(r, shape) || OwnOid(r, shape)
  {
    if !Unchanged(r, shape) {
      forall t | t in Recorded(r, shape).byTable
        ensures Found(Recorded(r, shape), t) <==> t == shape.table || r.byTable[t].oid != shape.oid
      {
        RecordFinds(r, shape, t);
      }
    }
  }

  // A table renamed and validated under its new name, then recreated under the
  // old one: the renamed table's live baseline is gone from byOid, although no
  // two baselines share a relation ID any more.
  lemma RenameThenRecreateLosesEntry()
    ensures var shape := (table: string, oid: uint32) => Shape(table, oid, 'd', [], []);
            var r := RecordedAll(EMPTY, [shape("a", 5), shape("b", 5), shape("a", 6)]);
            && r.byTable == map["a" := shape("a", 6), "b" := shape("b", 5)]
            && r.byOid == map[6 := shape("a", 6)]
  {
    var shape := (table: string, oid: uint32) => Shape(table, oid, 'd', [], []);
    var run := [shape("a", 5), shape("b", 5), shape("a", 6)];
    assert run[..2] == [shape("a", 5), shape("b", 5)] && run[..2][..1] == [shape("a", 5)];
    assert run[..2][..1][..0] == [];
    var one := Recorded(EMPTY, shape("a", 5));
    assert RecordedAll(EMPTY, [shape("a", 5)]) == one;
    var two := Recorded(one, shape("b", 5));
    assert RecordedAll(EMPTY, run[..2]) == two;
    assert two.byOid == map[5 := shape("b", 5)];
    assert RecordedAll(EMPTY, run) == Recorded(two, shape("a", 6));
    assert two.byOid - {5} == map[];
  }
}
