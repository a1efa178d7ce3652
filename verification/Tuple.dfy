// Row and key decoding (internal/cdc/decoder.go): one string per row, sliced into
// values, against decoding each column on its own.
module Tuple {
  import opened Cdc
  import R = Relation
  import opened Sequences

  // One tuple column: its pgoutput discriminator and data.
  datatype Column = Column(kind: char, data: string)

  const NULL := 'n'
  const TOAST := 'u'
  const TEXT := 't'

  datatype Error =
    | MissingTuple
    | ColumnCount
    | UnsupportedEncoding
    | ValueTooLarge
    | NoKeyColumns
    | KeyNotText
    | KeyEmpty
    | KeyCount
    | PrimaryKeyChange
    | UnknownRelation
    | TransactionInProgress
    | NoTransaction
    | TooManyChanges
    | TransactionTooLarge
    | UnsupportedMessage

  datatype Result<+T> = Ok(value: T) | Err(error: Error)

  datatype Incompatible = Incompatible(table: string, difference: R.Difference)

  // What row decoding needs from a Relation message. `checked` is the registry
  // generation `incompatible` was decided at.
  datatype RelationInfo = RelationInfo(table: string, columns: seq<string>, keyIndexes: seq<nat>, shape: R.Shape,
                                       oid: uint32, checked: nat, incompatible: Option<Incompatible>)

  // Positions in ascending order, all below n.
  ghost predicate Positions(indexes: seq<nat>, n: nat) {
    && (forall i :: 0 <= i < |indexes| ==> indexes[i] < n)
    && (forall i, j :: 0 <= i < j < |indexes| ==> indexes[i] < indexes[j])
  }

  ghost predicate WellFormed(info: RelationInfo) {
    Positions(info.keyIndexes, |info.columns|)
  }

  // newRelationInfo

  function KeyPositions(columns: seq<R.RelationColumn>): (r: seq<nat>)
    ensures Positions(r, |columns|)
    ensures forall i :: 0 <= i < |columns| ==> (i in r <==> columns[i].flags == 1)
  {
    if columns == [] then []
    else
      var n := |columns| - 1;
      var head := KeyPositions(columns[..n]);
      if columns[n].flags == 1 then head + [n] else head
  }

  function InfoOf(message: R.RelationMessage): (info: RelationInfo)
    ensures WellFormed(info)
  {
    RelationInfo(R.QualifiedTable(message.namespace, message.name),
                 seq(|message.columns|, i requires 0 <= i < |message.columns| => message.columns[i].name),
                 KeyPositions(message.columns), R.ShapeOf(message), message.id, 0, None)
  }

  method NewRelationInfo(message: R.RelationMessage) returns (info: RelationInfo)
    ensures info == InfoOf(message)
  {
    var columns: seq<string>, keyIndexes: seq<nat> := [], [];
    for i := 0 to |message.columns|
      invariant |columns| == i && forall j :: 0 <= j < i ==> columns[j] == message.columns[j].name
      invariant keyIndexes == KeyPositions(message.columns[..i])
    {
      assert message.columns[..i + 1][..i] == message.columns[..i];
      columns := columns + [message.columns[i].name];
      if message.columns[i].flags == 1 {
        keyIndexes := keyIndexes + [i];
      }
    }
    assert message.columns[..|message.columns|] == message.columns;
    var shape := R.ShapeOfRelation(message);
    info := RelationInfo(R.QualifiedTable(message.namespace, message.name), columns, keyIndexes, shape, message.id, 0,
                         None);
  }

  // Column checks

  function CheckColumn(c: Column, maxValueBytes: nat): Option<Error> {
    if c.kind == NULL || c.kind == TOAST then None
    else if c.kind == TEXT then (if |c.data| > maxValueBytes then Some(ValueTooLarge) else None)
    else Some(UnsupportedEncoding)
  }

  function CheckKeyColumn(c: Column, maxValueBytes: nat): Option<Error> {
    if c.kind != TEXT then Some(UnsupportedEncoding)
    else if c.data == "" then Some(KeyEmpty)
    else if |c.data| > maxValueBytes then Some(ValueTooLarge)
    else None
  }

  // What fails first in a tuple, column by column.
  function FirstBad(tuple: seq<Column>, maxValueBytes: nat): Option<Error> {
    if tuple == [] then None
    else
      var before := FirstBad(tuple[..|tuple| - 1], maxValueBytes);
      if before.Some? then before else CheckColumn(tuple[|tuple| - 1], maxValueBytes)
  }

  function FirstBadKey(tuple: seq<Column>, maxValueBytes: nat): Option<Error> {
    if tuple == [] then None
    else
      var before := FirstBadKey(tuple[..|tuple| - 1], maxValueBytes);
      if before.Some? then before else CheckKeyColumn(tuple[|tuple| - 1], maxValueBytes)
  }

  function RowError(info: RelationInfo, tuple: seq<Column>, maxValueBytes: nat): Option<Error> {
    if |tuple| != |info.columns| then Some(ColumnCount) else FirstBad(tuple, maxValueBytes)
  }

  function DataBytes(tuple: seq<Column>): nat {
    if tuple == [] then 0 else DataBytes(tuple[..|tuple| - 1]) + |tuple[|tuple| - 1].data|
  }

  lemma {:induction false} BadStays(tuple: seq<Column>, n: nat, maxValueBytes: nat)
    requires n <= |tuple|
    ensures FirstBad(tuple[..n], maxValueBytes).Some? ==>
              FirstBad(tuple, maxValueBytes) == FirstBad(tuple[..n], maxValueBytes)
    ensures FirstBadKey(tuple[..n], maxValueBytes).Some? ==>
              FirstBadKey(tuple, maxValueBytes) == FirstBadKey(tuple[..n], maxValueBytes)
  {
    if n == |tuple| {
      assert tuple[..n] == tuple;
    } else {
      assert tuple[..|tuple| - 1][..n] == tuple[..n];
      BadStays(tuple[..|tuple| - 1], n, maxValueBytes);
    }
  }

  lemma {:induction false} NoneBad(tuple: seq<Column>, maxValueBytes: nat)
    ensures FirstBad(tuple, maxValueBytes).None? <==>
            forall i :: 0 <= i < |tuple| ==> CheckColumn(tuple[i], maxValueBytes).None?
    ensures FirstBadKey(tuple, maxValueBytes).None? <==>
            forall i :: 0 <= i < |tuple| ==> CheckKeyColumn(tuple[i], maxValueBytes).None?
  {
    if tuple != [] {
      var n := |tuple| - 1;
      NoneBad(tuple[..n], maxValueBytes);
      assert forall i :: 0 <= i < n ==> tuple[..n][i] == tuple[i];
    }
  }

  method CheckRow(info: RelationInfo, tuple: seq<Column>, maxValueBytes: nat) returns (r: Result<nat>)
    ensures r == match RowError(info, tuple, maxValueBytes)
                 case Some(e) => Err(e)
                 case None => Ok(DataBytes(tuple))
  {
    if |tuple| != |info.columns| { return Err(ColumnCount); }
    var textBytes := 0;
    for i := 0 to |tuple|
      invariant FirstBad(tuple[..i], maxValueBytes).None? && textBytes == DataBytes(tuple[..i])
    {
      assert tuple[..i + 1][..i] == tuple[..i];
      var bad := CheckColumn(tuple[i], maxValueBytes);
      if bad.Some? {
        BadStays(tuple, i + 1, maxValueBytes);
        return Err(bad.value);
      }
      textBytes := textBytes + |tuple[i].data|;
    }
    assert tuple[..|tuple|] == tuple;
    r := Ok(textBytes);
  }

  // Rows

  // One column decoded on its own.
  function ValueOf(c: Column): Value {
    if c.kind == TEXT then Text(c.data) else if c.kind == TOAST then Unchanged else Null
  }

  function ValuesOf(tuple: seq<Column>): (r: seq<Value>)
    ensures |r| == |tuple| && forall i :: 0 <= i < |tuple| ==> r[i] == ValueOf(tuple[i])
  {
    seq(|tuple|, i requires 0 <= i < |tuple| => ValueOf(tuple[i]))
  }

  function RowOf(info: RelationInfo, tuple: Option<seq<Column>>, maxValueBytes: nat): Result<seq<Value>> {
    if tuple.None? then Err(MissingTuple)
    else
      match RowError(info, tuple.value, maxValueBytes)
      case Some(e) => Err(e)
      case None => Ok(ValuesOf(tuple.value))
  }

  function TextOf(tuple: seq<Column>): string {
    if tuple == [] then ""
    else
      var c := tuple[|tuple| - 1];
      TextOf(tuple[..|tuple| - 1]) + if c.kind == TEXT then c.data else ""
  }

  // The text of a column starts where the text before it ends.
  lemma {:induction false} TextAt(tuple: seq<Column>, i: nat)
    requires i < |tuple|
    ensures TextOf(tuple[..i + 1]) <= TextOf(tuple)
    ensures TextOf(tuple[..i + 1]) == TextOf(tuple[..i]) + if tuple[i].kind == TEXT then tuple[i].data else ""
  {
    assert tuple[..i + 1][..i] == tuple[..i];
    if i + 1 == |tuple| {
      assert tuple[..i + 1] == tuple;
    } else {
      var head := tuple[..|tuple| - 1];
      TextAt(head, i);
      assert head[..i + 1] == tuple[..i + 1];
    }
  }

  method RowText(columns: seq<Column>) returns (text: string)
    ensures text == TextOf(columns)
  {
    text := "";
    for i := 0 to |columns|
      invariant text == TextOf(columns[..i])
    {
      assert columns[..i + 1][..i] == columns[..i];
      if columns[i].kind == TEXT {
        text := text + columns[i].data;
      }
    }
    assert columns[..|columns|] == columns;
  }

  method SliceRow(columns: seq<Column>, text: string) returns (values: seq<Value>)
    requires text == TextOf(columns)
    ensures values == ValuesOf(columns)
  {
    values := [];
    var offset := 0;
    for i := 0 to |columns|
      invariant offset == |TextOf(columns[..i])|
      invariant |values| == i && forall j :: 0 <= j < i ==> values[j] == ValueOf(columns[j])
    {
      TextAt(columns, i);
      if columns[i].kind == TEXT {
        var end := offset + |columns[i].data|;
        assert text[offset..end] == TextOf(columns[..i + 1])[offset..end] == columns[i].data;
        values := values + [Text(text[offset..end])];
        offset := end;
      } else if columns[i].kind == TOAST {
        values := values + [Unchanged];
      } else {
        values := values + [Null];
      }
    }
  }

  // decodeRow: one string for the whole row, each value a slice of it.
  method DecodeRow(info: RelationInfo, tuple: Option<seq<Column>>, maxValueBytes: nat) returns (r: Result<seq<Value>>)
    ensures r == RowOf(info, tuple, maxValueBytes)
  {
    if tuple.None? { return Err(MissingTuple); }
    var checked := CheckRow(info, tuple.value, maxValueBytes);
    if checked.Err? { return Err(checked.error); }
    var text := RowText(tuple.value);
    var values := SliceRow(tuple.value, text);
    r := Ok(values);
  }

  // Keys

  // The key that gives the k-th key column the k-th text.
  function KeyMap(columns: seq<string>, keyIndexes: seq<nat>, texts: seq<string>): map<string, string>
    requires |texts| == |keyIndexes| && forall i :: 0 <= i < |keyIndexes| ==> keyIndexes[i] < |columns|
  {
    if texts == [] then map[]
    else
      var n := |texts| - 1;
      KeyMap(columns, keyIndexes[..n], texts[..n])[columns[keyIndexes[n]] := texts[n]]
  }

  predicate IsKeyText(v: Value) {
    v.Text? && v.text != ""
  }

  // The texts at the key positions, as far as they are key texts.
  predicate AllKeyTexts(keyIndexes: seq<nat>, values: seq<Value>)
    requires forall i :: 0 <= i < |keyIndexes| ==> keyIndexes[i] < |values|
  {
    forall k :: 0 <= k < |keyIndexes| ==> IsKeyText(values[keyIndexes[k]])
  }

  function KeyTexts(keyIndexes: seq<nat>, values: seq<Value>): (r: seq<string>)
    requires forall i :: 0 <= i < |keyIndexes| ==> keyIndexes[i] < |values|
    requires AllKeyTexts(keyIndexes, values)
    ensures |r| == |keyIndexes|
  {
    seq(|keyIndexes|, k requires 0 <= k < |keyIndexes| => values[keyIndexes[k]].text)
  }

  function KeyOfValues(info: RelationInfo, values: seq<Value>): Result<map<string, string>>
    requires WellFormed(info) && |values| == |info.columns|
  {
    if info.keyIndexes == [] then Err(NoKeyColumns)
    else if !AllKeyTexts(info.keyIndexes, values) then Err(KeyNotText)
    else Ok(KeyMap(info.columns, info.keyIndexes, KeyTexts(info.keyIndexes, values)))
  }

  method KeyFromValues(info: RelationInfo, values: seq<Value>) returns (r: Result<map<string, string>>)
    requires WellFormed(info) && |values| == |info.columns|
    ensures r == KeyOfValues(info, values)
  {
    if info.keyIndexes == [] { return Err(NoKeyColumns); }
    var key: map<string, string> := map[];
    for k := 0 to |info.keyIndexes|
      invariant AllKeyTexts(info.keyIndexes[..k], values)
      invariant key == KeyMap(info.columns, info.keyIndexes[..k], KeyTexts(info.keyIndexes[..k], values))
    {
      var value := values[info.keyIndexes[k]];
      if !value.Text? || value.text == "" { return Err(KeyNotText); }
      assert info.keyIndexes[..k + 1][..k] == info.keyIndexes[..k];
      assert KeyTexts(info.keyIndexes[..k + 1], values)[..k] == KeyTexts(info.keyIndexes[..k], values);
      key := key[info.columns[info.keyIndexes[k]] := value.text];
    }
    assert info.keyIndexes[..|info.keyIndexes|] == info.keyIndexes;
    r := Ok(key);
  }

  function KeyTupleError(info: RelationInfo, tuple: Option<seq<Column>>, maxValueBytes: nat): Option<Error>
    requires WellFormed(info)
  {
    if tuple.None? then Some(MissingTuple)
    else if info.keyIndexes == [] then Some(NoKeyColumns)
    else if |tuple.value| == |info.columns| then
      var bad := FirstBad(tuple.value, maxValueBytes);
      if bad.Some? then bad
      else if exists k :: 0 <= k < |info.keyIndexes| && !IsKeyText(ValueOf(tuple.value[info.keyIndexes[k]]))
      then Some(KeyNotText) else None
    else if |tuple.value| == |info.keyIndexes| then FirstBadKey(tuple.value, maxValueBytes)
    else Some(KeyCount)
  }

  method CheckKeyTuple(info: RelationInfo, tuple: Option<seq<Column>>, maxValueBytes: nat) returns (e: Option<Error>)
    requires WellFormed(info)
    ensures e == KeyTupleError(info, tuple, maxValueBytes)
  {
    if tuple.None? { return Some(MissingTuple); }
    if info.keyIndexes == [] { return Some(NoKeyColumns); }
    var columns := tuple.value;
    if |columns| == |info.columns| {
      var row := CheckRow(info, columns, maxValueBytes);
      if row.Err? { return Some(row.error); }
      for k := 0 to |info.keyIndexes|
        invariant forall j :: 0 <= j < k ==> IsKeyText(ValueOf(columns[info.keyIndexes[j]]))
      {
        var column := columns[info.keyIndexes[k]];
        if column.kind != TEXT || column.data == "" { return Some(KeyNotText); }
      }
      return None;
    }
    if |columns| == |info.keyIndexes| {
      for k := 0 to |columns|
        invariant FirstBadKey(columns[..k], maxValueBytes).None?
      {
        assert columns[..k + 1][..k] == columns[..k];
        var bad := CheckKeyColumn(columns[k], maxValueBytes);
        if bad.Some? {
          BadStays(columns, k + 1, maxValueBytes);
          return bad;
        }
      }
      assert columns[..|columns|] == columns;
      return None;
    }
    return Some(KeyCount);
  }

  // A tuple checkKeyTuple lets through: a complete row or key columns only.
  ghost predicate KeyTuple(info: RelationInfo, columns: seq<Column>) {
    WellFormed(info) && (|columns| == |info.columns| || |columns| == |info.keyIndexes|)
  }

  function KeyColumn(info: RelationInfo, columns: seq<Column>, k: nat): Column
    requires KeyTuple(info, columns) && k < |info.keyIndexes|
  {
    if |columns| == |info.columns| then columns[info.keyIndexes[k]] else columns[k]
  }

  function KeyData(info: RelationInfo, columns: seq<Column>, n: nat): (r: seq<string>)
    requires KeyTuple(info, columns) && n <= |info.keyIndexes|
    ensures |r| == n
  {
    seq(n, k requires 0 <= k < n => KeyColumn(info, columns, k).data)
  }

  function KeyOfTuple(info: RelationInfo, columns: seq<Column>): map<string, string>
    requires KeyTuple(info, columns)
  {
    KeyMap(info.columns, info.keyIndexes, KeyData(info, columns, |info.keyIndexes|))
  }

  method KeyText(info: RelationInfo, columns: seq<Column>) returns (text: string)
    requires KeyTuple(info, columns)
    ensures text == Concat(KeyData(info, columns, |info.keyIndexes|))
  {
    var n := |info.keyIndexes|;
    ghost var texts := KeyData(info, columns, n);
    text := "";
    for k := 0 to n
      invariant text == Concat(texts[..k])
    {
      ConcatAt(texts, k);
      text := text + KeyColumn(info, columns, k).data;
    }
    assert texts[..n] == texts;
  }

  // keyFromTuple: the key text in one string, each value a slice of it.
  method KeyFromTuple(info: RelationInfo, columns: seq<Column>) returns (key: map<string, string>)
    requires KeyTuple(info, columns)
    ensures key == KeyOfTuple(info, columns)
  {
    var n := |info.keyIndexes|;
    ghost var texts := KeyData(info, columns, n);
    var text := KeyText(info, columns);
    hide Concat;
    key := map[];
    assert Concat(texts[..0]) == "" by { ConcatNone<char>(); }
    var offset := 0;
    for k := 0 to n
      invariant offset == |Concat(texts[..k])|
      invariant key == KeyMap(info.columns, info.keyIndexes[..k], texts[..k])
    {
      ConcatAt(texts, k);
      var end := offset + |KeyColumn(info, columns, k).data|;
      assert text[offset..end] == Concat(texts[..k + 1])[offset..end] == texts[k];
      assert info.keyIndexes[..k + 1][..k] == info.keyIndexes[..k] && texts[..k + 1][..k] == texts[..k];
      key := key[info.columns[info.keyIndexes[k]] := text[offset..end]];
      offset := end;
    }
    assert info.keyIndexes[..n] == info.keyIndexes && texts[..n] == texts;
  }

  // The key columns of a complete row, alone.
  function KeyOnly(info: RelationInfo, row: seq<Column>): (r: seq<Column>)
    requires WellFormed(info) && |row| == |info.columns|
    ensures |r| == |info.keyIndexes|
  {
    seq(|info.keyIndexes|, k requires 0 <= k < |info.keyIndexes| => row[info.keyIndexes[k]])
  }

  // n ascending positions below n are all of them, in order.
  lemma {:induction false} AllPositions(indexes: seq<nat>, k: nat)
    requires Positions(indexes, |indexes|) && k < |indexes|
    ensures indexes[k] == k
  {
    AtLeast(indexes, k);
    AtMostFromEnd(indexes, |indexes|, k);
  }

  lemma {:induction false} AtLeast(indexes: seq<nat>, k: nat)
    requires (forall i, j :: 0 <= i < j < |indexes| ==> indexes[i] < indexes[j]) && k < |indexes|
    ensures indexes[k] >= k
  {
    if k > 0 { AtLeast(indexes, k - 1); }
  }

  lemma {:induction false} AtMostFromEnd(indexes: seq<nat>, n: nat, k: nat)
    requires Positions(indexes, n) && k < |indexes|
    ensures indexes[k] + (|indexes| - k) <= n
    decreases |indexes| - k
  {
    if k + 1 < |indexes| { AtMostFromEnd(indexes, n, k + 1); }
  }

  // The three ways to a row's key agree: from its decoded values, from the complete
  // old row, and from its key columns alone, also when every column is a key column.
  // A row that decodes has a key one way exactly when it has it the others.
  lemma KeysCoincide(info: RelationInfo, row: seq<Column>, maxValueBytes: nat)
    requires WellFormed(info) && RowError(info, row, maxValueBytes).None?
    ensures var values := RowOf(info, Some(row), maxValueBytes).value;
            var fromValues := KeyOfValues(info, values);
            && (fromValues.Ok? <==> KeyTupleError(info, Some(row), maxValueBytes).None?)
            && (fromValues.Ok? <==> KeyTupleError(info, Some(KeyOnly(info, row)), maxValueBytes).None?)
            && (fromValues.Ok? ==> fromValues.value == KeyOfTuple(info, row) == KeyOfTuple(info, KeyOnly(info, row)))
  {
    hide FirstBad, FirstBadKey, KeyMap;
    var values := ValuesOf(row);
    KeyOnlyError(info, row, maxValueBytes);
    if AllKeyTexts(info.keyIndexes, values) {
      KeyTextsAgree(info, row, values);
    }
  }

  // Key columns alone pass exactly when the complete row has a key.
  lemma KeyOnlyError(info: RelationInfo, row: seq<Column>, maxValueBytes: nat)
    requires WellFormed(info) && RowError(info, row, maxValueBytes).None?
    ensures info.keyIndexes != [] ==>
              (KeyTupleError(info, Some(KeyOnly(info, row)), maxValueBytes).None? <==>
               AllKeyTexts(info.keyIndexes, ValuesOf(row)))
  {
    hide FirstBad, FirstBadKey;
    var values, only := ValuesOf(row), KeyOnly(info, row);
    NoneBad(row, maxValueBytes);
    if |only| == |row| {
      forall k | 0 <= k < |only| ensures info.keyIndexes[k] == k { AllPositions(info.keyIndexes, k); }
      assert only == row;
    } else {
      NoneBad(only, maxValueBytes);
      forall k | 0 <= k < |only|
        ensures CheckKeyColumn(only[k], maxValueBytes).None? <==> IsKeyText(values[info.keyIndexes[k]])
      {
        assert only[k] == row[info.keyIndexes[k]] && CheckColumn(row[info.keyIndexes[k]], maxValueBytes).None?;
      }
    }
  }

  lemma KeyTextsAgree(info: RelationInfo, row: seq<Column>, values: seq<Value>)
    requires WellFormed(info) && |row| == |info.columns| && |values| == |row|
    requires forall i :: 0 <= i < |row| ==> values[i] == ValueOf(row[i])
    requires AllKeyTexts(info.keyIndexes, values)
    ensures KeyData(info, row, |info.keyIndexes|) == KeyTexts(info.keyIndexes, values)
    ensures KeyData(info, KeyOnly(info, row), |info.keyIndexes|) == KeyTexts(info.keyIndexes, values)
  {
    var n, only := |info.keyIndexes|, KeyOnly(info, row);
    forall k | 0 <= k < n
      ensures KeyColumn(info, row, k).data == KeyColumn(info, only, k).data == values[info.keyIndexes[k]].text
    {
      assert IsKeyText(values[info.keyIndexes[k]]);
      if |only| == |row| { AllPositions(info.keyIndexes, k); }
    }
  }

  // No two key columns share a name.
  ghost predicate DistinctNames(columns: seq<string>, keyIndexes: seq<nat>)
    requires forall i :: 0 <= i < |keyIndexes| ==> keyIndexes[i] < |columns|
  {
    forall i, j :: 0 <= i < j < |keyIndexes| ==> columns[keyIndexes[i]] != columns[keyIndexes[j]]
  }

  lemma {:induction false} KeyMapAt(columns: seq<string>, keyIndexes: seq<nat>, texts: seq<string>, k: nat)
    requires |texts| == |keyIndexes| && forall i :: 0 <= i < |keyIndexes| ==> keyIndexes[i] < |columns|
    requires DistinctNames(columns, keyIndexes) && k < |texts|
    ensures var key := KeyMap(columns, keyIndexes, texts);
            columns[keyIndexes[k]] in key && key[columns[keyIndexes[k]]] == texts[k]
  {
    var n := |texts| - 1;
    if k < n { KeyMapAt(columns, keyIndexes[..n], texts[..n], k); }
  }

  // Keys are equal exactly when their texts are.
  lemma KeyMapInjective(columns: seq<string>, keyIndexes: seq<nat>, a: seq<string>, b: seq<string>)
    requires |a| == |keyIndexes| == |b| && forall i :: 0 <= i < |keyIndexes| ==> keyIndexes[i] < |columns|
    requires DistinctNames(columns, keyIndexes)
    ensures KeyMap(columns, keyIndexes, a) == KeyMap(columns, keyIndexes, b) <==> a == b
  {
    if KeyMap(columns, keyIndexes, a) == KeyMap(columns, keyIndexes, b) {
      forall k | 0 <= k < |a| ensures a[k] == b[k] {
        KeyMapAt(columns, keyIndexes, a, k);
        KeyMapAt(columns, keyIndexes, b, k);
      }
    }
  }
}
