// The client's in-memory projection (sdk/go/watchd/store.go).
module Store {
  import opened Cdc
  import opened Sequences

  // The SDK's own operation codes; a code the server never sends is Unknown.
  datatype SdkOperation = SdkInsert | SdkUpdate | SdkDelete | Unknown

  datatype RowChange = RowChange(operation: SdkOperation, key: map<string, string>, values: Row)

  const NUL: char := '\0'

  // keyOf

  predicate HasKey(primaryKey: seq<string>, key: map<string, string>) {
    forall i :: 0 <= i < |primaryKey| ==> primaryKey[i] in key
  }

  function KeyParts(primaryKey: seq<string>, key: map<string, string>): (parts: seq<string>)
    requires HasKey(primaryKey, key)
    ensures |parts| == |primaryKey|
    ensures forall i :: 0 <= i < |primaryKey| ==> parts[i] == key[primaryKey[i]]
  {
    seq(|primaryKey|, i requires 0 <= i < |primaryKey| => key[primaryKey[i]])
  }

  // The row a key identifies, once its columns are known to be present.
  function RowId(primaryKey: seq<string>, key: map<string, string>): string
    requires HasKey(primaryKey, key)
  {
    Joined(KeyParts(primaryKey, key), NUL)
  }

  method KeyOf(primaryKey: seq<string>, key: map<string, string>) returns (id: Option<string>)
    ensures id.Some? <==> HasKey(primaryKey, key)
    ensures id.Some? ==> id.value == RowId(primaryKey, key)
  {
    var parts: seq<string> := [];
    for i := 0 to |primaryKey|
      invariant |parts| == i
      invariant forall j :: 0 <= j < i ==> primaryKey[j] in key && parts[j] == key[primaryKey[j]]
    {
      if primaryKey[i] !in key {
        return None;
      }
      parts := parts + [key[primaryKey[i]]];
    }
    assert parts == KeyParts(primaryKey, key);
    id := Some(Joined(parts, NUL));
  }

  ghost predicate NulFree(parts: seq<string>) {
    forall i :: 0 <= i < |parts| ==> NUL !in parts[i]
  }

  // Distinct keys never share a row: for values without NUL, which is every
  // PostgreSQL text value, the encoding is injective.
  lemma JoinInjective(a: seq<string>, b: seq<string>)
    requires |a| == |b| && NulFree(a) && NulFree(b) && Joined(a, NUL) == Joined(b, NUL)
    ensures a == b
  {
    if a != [] {
      SplitJoined(a, NUL);
      SplitJoined(b, NUL);
    }
  }

  lemma RowIdInjective(primaryKey: seq<string>, k1: map<string, string>, k2: map<string, string>)
    requires HasKey(primaryKey, k1) && HasKey(primaryKey, k2)
    requires NulFree(KeyParts(primaryKey, k1)) && NulFree(KeyParts(primaryKey, k2))
    ensures RowId(primaryKey, k1) == RowId(primaryKey, k2) <==>
            forall i :: 0 <= i < |primaryKey| ==> k1[primaryKey[i]] == k2[primaryKey[i]]
  {
    if RowId(primaryKey, k1) == RowId(primaryKey, k2) {
      JoinInjective(KeyParts(primaryKey, k1), KeyParts(primaryKey, k2));
    }
    if forall i :: 0 <= i < |primaryKey| ==> k1[primaryKey[i]] == k2[primaryKey[i]] {
      assert KeyParts(primaryKey, k1) == KeyParts(primaryKey, k2);
    }
  }

  // With a NUL in a value, two different keys can collide.
  lemma NulCollides()
    ensures Joined([[NUL], ""], NUL) == Joined(["", [NUL]], NUL)
  {
    assert [[NUL], ""][1..] == [""] && ["", [NUL]][1..] == [[NUL]];
    assert Joined([[NUL], ""], NUL) == [NUL] + [NUL] + "";
    assert Joined(["", [NUL]], NUL) == "" + [NUL] + [NUL];
  }

  // Apply

  // The row an insert or update leaves: the change's columns, keeping the
  // current value of an unchanged one if there is one.
  function Upserted(current: Row, values: Row): Row {
    map c | c in values && (!values[c].Unchanged? || c in current) ::
      if values[c].Unchanged? then current[c] else values[c]
  }

  predicate Applicable(primaryKey: seq<string>, c: RowChange) {
    HasKey(primaryKey, c.key) && !c.operation.Unknown?
  }

  function CurrentRow(rows: map<string, Row>, id: string): Row {
    if id in rows then rows[id] else map[]
  }

  function ApplyOne(primaryKey: seq<string>, rows: map<string, Row>, c: RowChange): map<string, Row>
    requires Applicable(primaryKey, c)
  {
    var id := RowId(primaryKey, c.key);
    if c.operation.SdkDelete? then rows - {id} else rows[id := Upserted(CurrentRow(rows, id), c.values)]
  }

  predicate AllApplicable(primaryKey: seq<string>, cs: seq<RowChange>) {
    forall i :: 0 <= i < |cs| ==> Applicable(primaryKey, cs[i])
  }

  function ApplyAll(primaryKey: seq<string>, rows: map<string, Row>, cs: seq<RowChange>): map<string, Row>
    requires AllApplicable(primaryKey, cs)
  {
    if cs == [] then rows
    else ApplyOne(primaryKey, ApplyAll(primaryKey, rows, cs[..|cs| - 1]), cs[|cs| - 1])
  }

  class MemoryStore {
    const primaryKey: seq<string>
    var rows: map<string, Row>
    var cursor: string

    constructor (primaryKey: seq<string>)
      ensures this.primaryKey == primaryKey && rows == map[] && cursor == ""
    {
      this.primaryKey, rows, cursor := primaryKey, map[], "";
    }

    method SaveCursor(cursor: string)
      modifies this`cursor
      ensures this.cursor == cursor
    {
      this.cursor := cursor;
    }

    method Get(key: map<string, string>) returns (row: Option<Row>)
      ensures row.Some? <==> HasKey(primaryKey, key) && RowId(primaryKey, key) in rows
      ensures row.Some? ==> row.value == rows[RowId(primaryKey, key)]
    {
      var id := KeyOf(primaryKey, key);
      if id.Some? && id.value in rows {
        return Some(rows[id.value]);
      }
      return None;
    }

    // Apply one batch. A change it cannot apply stops it there: the changes
    // before it stay applied and the cursor stays where it was.
    method Apply(cs: seq<RowChange>, batchCursor: string) returns (failed: Option<nat>)
      modifies this
      ensures failed.None? <==> AllApplicable(primaryKey, cs)
      ensures failed.None? ==> rows == ApplyAll(primaryKey, old(rows), cs) && cursor == batchCursor
      ensures failed.Some? ==>
                && failed.value < |cs| && !Applicable(primaryKey, cs[failed.value])
                && AllApplicable(primaryKey, cs[..failed.value])
                && rows == ApplyAll(primaryKey, old(rows), cs[..failed.value]) && cursor == old(cursor)
    {
      for i := 0 to |cs|
        modifies this`rows
        invariant AllApplicable(primaryKey, cs[..i])
        invariant rows == ApplyAll(primaryKey, old(rows), cs[..i])
      {
        var c := cs[i];
        assert cs[..i + 1][..i] == cs[..i];
        var id := KeyOf(primaryKey, c.key);
        if id.None? {
          return Some(i);
        }
        match c.operation
        case SdkDelete =>
          rows := rows - {id.value};
        case Unknown =>
          return Some(i);
        case _ =>
          var current := CurrentRow(rows, id.value);
          rows := rows[id.value := Upserted(current, c.values)];
      }
      assert cs[..|cs|] == cs;
      cursor := batchCursor;
      failed := None;
    }
  }

  // Snapshots. Rows collect beside the projection and replace it at once.

  function KeyOfRow(primaryKey: seq<string>, row: Row): (key: map<string, string>)
    requires KeyedRow(primaryKey, row)
    ensures HasKey(primaryKey, key)
  {
    map c | c in primaryKey :: row[c].text
  }

  predicate KeyedRow(primaryKey: seq<string>, row: Row) {
    forall i :: 0 <= i < |primaryKey| ==> primaryKey[i] in row && row[primaryKey[i]].Text?
  }

  predicate AllKeyed(primaryKey: seq<string>, rows: seq<Row>) {
    forall i :: 0 <= i < |rows| ==> KeyedRow(primaryKey, rows[i])
  }

  function PutAll(primaryKey: seq<string>, into: map<string, Row>, rows: seq<Row>): map<string, Row>
    requires AllKeyed(primaryKey, rows)
  {
    if rows == [] then into
    else
      var row := rows[|rows| - 1];
      PutAll(primaryKey, into, rows[..|rows| - 1])[RowId(primaryKey, KeyOfRow(primaryKey, row)) := row]
  }

  // Put's inner loop: a row's primary-key values, which must all be text.
  method RowKey(primaryKey: seq<string>, row: Row) returns (key: Option<map<string, string>>)
    ensures key.Some? <==> KeyedRow(primaryKey, row)
    ensures key.Some? ==> key.value == KeyOfRow(primaryKey, row)
  {
    var found: map<string, string> := map[];
    for j := 0 to |primaryKey|
      invariant forall k :: 0 <= k < j ==> primaryKey[k] in row && row[primaryKey[k]].Text?
      invariant forall c :: c in found <==> c in primaryKey[..j]
      invariant forall c :: c in found ==> c in row && row[c].Text? && found[c] == row[c].text
    {
      var column := primaryKey[j];
      if column !in row || !row[column].Text? {
        return None;
      }
      found := found[column := row[column].text];
    }
    assert primaryKey[..|primaryKey|] == primaryKey;
    assert found == KeyOfRow(primaryKey, row);
    key := Some(found);
  }

  class MemorySnapshot {
    const store: MemoryStore
    var rows: map<string, Row>

    constructor (store: MemoryStore)
      ensures this.store == store && rows == map[]
    {
      this.store, rows := store, map[];
    }

    // Adds rows to the new projection; the store's own are not touched.
    method Put(more: seq<Row>) returns (failed: bool)
      modifies this`rows
      ensures failed <==> !AllKeyed(store.primaryKey, more)
      ensures !failed ==> rows == PutAll(store.primaryKey, old(rows), more)
    {
      hide KeyOfRow, RowId, KeyedRow;
      for i := 0 to |more|
        invariant AllKeyed(store.primaryKey, more[..i])
        invariant rows == PutAll(store.primaryKey, old(rows), more[..i])
      {
        var row := more[i];
        assert more[..i + 1][..i] == more[..i];
        var key := RowKey(store.primaryKey, row);
        if key.None? {
          return true;
        }
        var id := KeyOf(store.primaryKey, key.value);
        rows := rows[id.value := row];
      }
      assert more[..|more|] == more;
      failed := false;
    }

    // Replaces the projection in one step, and forgets its cursor.
    method Commit()
      modifies store
      ensures store.rows == rows && store.cursor == ""
    {
      store.rows := rows;
      store.cursor := "";
    }

    method Abort()
      modifies this`rows
      ensures rows == map[]
    {
      rows := map[];
    }
  }

  // What a change list does to one row

  function Lookup(rows: map<string, Row>, id: string): Option<Row> {
    if id in rows then Some(rows[id]) else None
  }

  // Only the changes to row `id`, applied to that row alone.
  function RunRow(primaryKey: seq<string>, id: string, cs: seq<RowChange>, row: Option<Row>): Option<Row>
    requires AllApplicable(primaryKey, cs)
  {
    if cs == [] then row
    else
      var c := cs[|cs| - 1];
      var before := RunRow(primaryKey, id, cs[..|cs| - 1], row);
      if RowId(primaryKey, c.key) != id then before
      else if c.operation.SdkDelete? then None
      else Some(Upserted(if before.Some? then before.value else map[], c.values))
  }

  lemma {:induction false} ApplyIsPerRow(primaryKey: seq<string>, rows: map<string, Row>, cs: seq<RowChange>,
                                         id: string)
    requires AllApplicable(primaryKey, cs)
    ensures Lookup(ApplyAll(primaryKey, rows, cs), id) == RunRow(primaryKey, id, cs, Lookup(rows, id))
  {
    if cs != [] { ApplyIsPerRow(primaryKey, rows, cs[..|cs| - 1], id); }
  }

  lemma SameLookups(a: map<string, Row>, b: map<string, Row>)
    requires forall id :: Lookup(a, id) == Lookup(b, id)
    ensures a == b
  {
    assert forall id :: Lookup(a, id).Some? <==> id in a;
    assert forall id :: Lookup(b, id).Some? <==> id in b;
    assert a.Keys == b.Keys;
    forall id | id in a ensures a[id] == b[id] {
      assert Lookup(a, id) == Lookup(b, id);
    }
  }

  lemma {:induction false} RunRowConcat(primaryKey: seq<string>, id: string, a: seq<RowChange>, b: seq<RowChange>,
                                        row: Option<Row>)
    requires AllApplicable(primaryKey, a) && AllApplicable(primaryKey, b)
    ensures AllApplicable(primaryKey, a + b)
    ensures RunRow(primaryKey, id, a + b, row) == RunRow(primaryKey, id, b, RunRow(primaryKey, id, a, row))
  {
    if b == [] {
      assert a + b == a;
    } else {
      RunRowConcat(primaryKey, id, a, b[..|b| - 1], row);
      assert (a + b)[..|a + b| - 1] == a + b[..|b| - 1];
    }
  }

  // Any change list amounts, on one row, to leaving it alone, removing it, or
  // rewriting it column by column to a constant or to what it held. Such an
  // effect is idempotent.
  datatype Effect = Leave | Gone | Rewrite(columns: map<string, Option<Value>>)

  function Run(e: Effect, row: Option<Row>): Option<Row> {
    match e
    case Leave => row
    case Gone => None
    case Rewrite(columns) =>
      var current := if row.Some? then row.value else map[];
      Some(map c | c in columns && (columns[c].Some? || c in current) ::
             if columns[c].Some? then columns[c].value else current[c])
  }

  lemma EffectIdempotent(e: Effect, row: Option<Row>)
    ensures Run(e, Run(e, row)) == Run(e, row)
  {
    if e.Rewrite? {
      assert Run(e, Run(e, row)).value == Run(e, row).value;
    }
  }

  // An insert or update after an effect.
  function Then(e: Effect, values: Row): Effect {
    match e
    case Leave => Rewrite(map c | c in values :: if values[c].Unchanged? then None else Some(values[c]))
    case Gone => Rewrite(map c | c in values && !values[c].Unchanged? :: Some(values[c]))
    case Rewrite(columns) =>
      Rewrite(map c | c in values && (!values[c].Unchanged? || c in columns) ::
                if values[c].Unchanged? then columns[c] else Some(values[c]))
  }

  lemma ThenRuns(e: Effect, values: Row, row: Option<Row>)
    ensures var before := Run(e, row);
            Run(Then(e, values), row) == Some(Upserted(if before.Some? then before.value else map[], values))
  {
    var before := Run(e, row);
    assert Run(Then(e, values), row).value == Upserted(if before.Some? then before.value else map[], values);
  }

  function EffectOf(primaryKey: seq<string>, id: string, cs: seq<RowChange>): Effect
    requires AllApplicable(primaryKey, cs)
  {
    if cs == [] then Leave
    else
      var c := cs[|cs| - 1];
      var before := EffectOf(primaryKey, id, cs[..|cs| - 1]);
      if RowId(primaryKey, c.key) != id then before
      else if c.operation.SdkDelete? then Gone
      else Then(before, c.values)
  }

  lemma {:induction false} EffectRuns(primaryKey: seq<string>, id: string, cs: seq<RowChange>, row: Option<Row>)
    requires AllApplicable(primaryKey, cs)
    ensures RunRow(primaryKey, id, cs, row) == Run(EffectOf(primaryKey, id, cs), row)
  {
    if cs != [] {
      var n := |cs| - 1;
      EffectRuns(primaryKey, id, cs[..n], row);
      ThenRuns(EffectOf(primaryKey, id, cs[..n]), cs[n].values, row);
    }
  }

  lemma RunRowIdempotent(primaryKey: seq<string>, id: string, cs: seq<RowChange>, row: Option<Row>)
    requires AllApplicable(primaryKey, cs)
    ensures RunRow(primaryKey, id, cs, RunRow(primaryKey, id, cs, row)) == RunRow(primaryKey, id, cs, row)
  {
    EffectRuns(primaryKey, id, cs, row);
    EffectRuns(primaryKey, id, cs, RunRow(primaryKey, id, cs, row));
    EffectIdempotent(EffectOf(primaryKey, id, cs), row);
  }

  // At-least-once delivery is harmless: after any changes, redelivering any
  // suffix of them (one batch, several, or all) leaves the rows as they were.
  lemma RedeliveryHarmless(primaryKey: seq<string>, rows: map<string, Row>, a: seq<RowChange>, b: seq<RowChange>)
    requires AllApplicable(primaryKey, a) && AllApplicable(primaryKey, b)
    ensures AllApplicable(primaryKey, a + b)
    ensures var after := ApplyAll(primaryKey, rows, a + b);
            ApplyAll(primaryKey, after, b) == after
  {
    var after := ApplyAll(primaryKey, rows, a + b);
    var again := ApplyAll(primaryKey, after, b);
    forall id ensures Lookup(again, id) == Lookup(after, id) {
      ApplyIsPerRow(primaryKey, rows, a + b, id);
      ApplyIsPerRow(primaryKey, after, b, id);
      RunRowConcat(primaryKey, id, a, b, Lookup(rows, id));
      RunRowIdempotent(primaryKey, id, b, RunRow(primaryKey, id, a, Lookup(rows, id)));
    }
    SameLookups(again, after);
  }
}
