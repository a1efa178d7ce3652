// A snapshot's rows on their way out: read in keyset pages (internal/cdc/snapshot.go)
// and packed into messages (internal/server/server.go).
module Paging {
  import opened Cdc
  import opened Sequences

  type Key = seq<string>

  // Keyset paging

  predicate HasKey(primaryKey: seq<string>, row: Row) {
    forall c :: c in primaryKey ==> c in row && row[c].Text?
  }

  function KeyOf(primaryKey: seq<string>, row: Row): (key: Key)
    requires HasKey(primaryKey, row)
    ensures |key| == |primaryKey|
  {
    seq(|primaryKey|, i requires 0 <= i < |primaryKey| => row[primaryKey[i]].text)
  }

  // A scope as its table holds it: in key order, each row's key its own.
  ghost predicate Scope(primaryKey: seq<string>, rows: seq<Row>) {
    forall i, j :: 0 <= i < j < |rows| && HasKey(primaryKey, rows[i]) && HasKey(primaryKey, rows[j]) ==>
      KeyOf(primaryKey, rows[i]) != KeyOf(primaryKey, rows[j])
  }

  predicate IsAt(primaryKey: seq<string>, row: Row, key: Key) {
    HasKey(primaryKey, row) && KeyOf(primaryKey, row) == key
  }

  // How many rows are not after `key` in key order: all up to the row that has it.
  function UpTo(primaryKey: seq<string>, rows: seq<Row>, key: Key): (n: nat)
    ensures n <= |rows|
    ensures n > 0 ==> IsAt(primaryKey, rows[n - 1], key)
  {
    if rows == [] then 0
    else if IsAt(primaryKey, rows[|rows| - 1], key) then |rows|
    else UpTo(primaryKey, rows[..|rows| - 1], key)
  }

  lemma {:induction false} UpToIs(primaryKey: seq<string>, rows: seq<Row>, key: Key, i: nat)
    requires Scope(primaryKey, rows) && i < |rows| && IsAt(primaryKey, rows[i], key)
    ensures UpTo(primaryKey, rows, key) == i + 1
  {
    var n := |rows| - 1;
    if i < n {
      assert !IsAt(primaryKey, rows[n], key);
      UpToIs(primaryKey, rows[..n], key, i);
    }
  }

  // The page query: rows after `last`, in key order, at most `limit` of them.
  method FetchBatch(primaryKey: seq<string>, rows: seq<Row>, last: Option<Key>, limit: nat) returns (batch: seq<Row>)
    ensures var from := if last.Some? then UpTo(primaryKey, rows, last.value) else 0;
            batch == if from + limit <= |rows| then rows[from..from + limit] else rows[from..]
  {
    var from := if last.Some? then UpTo(primaryKey, rows, last.value) else 0;
    batch := if from + limit <= |rows| then rows[from..from + limit] else rows[from..];
  }

  datatype ScanResult = Done | MissingKey | SinkFailed | QueryFailed

  // The pages of a scan so far.
  ghost predicate Pages(rows: seq<Row>, pages: seq<seq<Row>>, batchRows: nat) {
    && Concat(pages) <= rows
    && (forall i :: 0 <= i < |pages| ==> 0 < |pages[i]| <= batchRows)
    && (forall i :: 0 <= i < |pages| - 1 ==> |pages[i]| == batchRows)
  }

  // The key of a page's last row, if the row has all of it.
  method NextKey(primaryKey: seq<string>, row: Row) returns (key: Option<Key>)
    ensures key == if HasKey(primaryKey, row) then Some(KeyOf(primaryKey, row)) else None
  {
    var values: seq<string> := [];
    for i := 0 to |primaryKey|
      invariant forall j :: 0 <= j < i ==> primaryKey[j] in row && row[primaryKey[j]].Text?
      invariant |values| == i && forall j :: 0 <= j < i ==> values[j] == row[primaryKey[j]].text
    {
      if primaryKey[i] !in row || !row[primaryKey[i]].Text? {
        return None;
      }
      values := values + [row[primaryKey[i]].text];
    }
    assert HasKey(primaryKey, row);
    assert values == KeyOf(primaryKey, row);
    key := Some(values);
  }

  // One more page read.
  lemma PageRead(rows: seq<Row>, pages: seq<seq<Row>>, read: nat, batch: seq<Row>, batchRows: nat)
    requires read <= |rows| && Concat(pages) == rows[..read] && FullPages(pages, batchRows)
    requires 0 < |batch| <= batchRows && read + |batch| <= |rows| && batch == rows[read..read + |batch|]
    ensures Concat(pages + [batch]) == rows[..read + |batch|]
    ensures Pages(rows, pages, batchRows) && Pages(rows, pages + [batch], batchRows)
    ensures batch[|batch| - 1] == rows[read + |batch| - 1]
    ensures |batch| == batchRows ==> FullPages(pages + [batch], batchRows)
  {
    ConcatOneMore(pages, batch);
    hide Concat;
    assert rows[..read] + batch == rows[..read + |batch|];
  }

  lemma FullSoFar(rows: seq<Row>, pages: seq<seq<Row>>, read: nat, batchRows: nat)
    requires read <= |rows| && Concat(pages) == rows[..read] && FullPages(pages, batchRows) && batchRows > 0
    ensures Pages(rows, pages, batchRows)
  {
    hide Concat;
  }

  ghost predicate FullPages(pages: seq<seq<Row>>, batchRows: nat) {
    forall i :: 0 <= i < |pages| ==> |pages[i]| == batchRows
  }

  // scanScopedRows, handing each page to a sink that fails on page `failAt`, from a
  // connection whose query for page `queryFailAt` fails. Every row is read once, in
  // order; a scan of rows that all have their keys, without failures, is complete.
  method ScanScopedRows(primaryKey: seq<string>, rows: seq<Row>, batchRows: nat, queryFailAt: Option<nat>,
                        failAt: Option<nat>)
    returns (pages: seq<seq<Row>>, result: ScanResult)
    requires Scope(primaryKey, rows) && batchRows > 0
    ensures Pages(rows, pages, batchRows)
    ensures result == Done ==> Concat(pages) == rows
    ensures result == MissingKey ==> exists i :: 0 <= i < |rows| && !HasKey(primaryKey, rows[i])
    ensures result == SinkFailed ==> failAt == Some(|pages|)
    ensures result == QueryFailed ==> queryFailAt == Some(|pages|)
    ensures (forall i :: 0 <= i < |rows| ==> HasKey(primaryKey, rows[i])) && failAt.None? && queryFailAt.None? ==>
              result == Done
  {
    hide Concat, Scope, HasKey, UpTo;
    pages := [];
    assert Concat(pages) == rows[..0] by { ConcatNone<Row>(); }
    var lastKey: Option<Key> := None;
    ghost var read := 0;
    while true
      invariant read <= |rows| && Concat(pages) == rows[..read]
      invariant read == if lastKey.Some? then UpTo(primaryKey, rows, lastKey.value) else 0
      invariant FullPages(pages, batchRows)
      decreases |rows| - read
    {
      if queryFailAt == Some(|pages|) {
        FullSoFar(rows, pages, read, batchRows);
        return pages, QueryFailed;
      }
      var batch := FetchBatch(primaryKey, rows, lastKey, batchRows);
      if |batch| == 0 {
        assert rows[..read] == rows;
        return pages, Done;
      }
      PageRead(rows, pages, read, batch, batchRows);
      if failAt == Some(|pages|) {
        return pages, SinkFailed;
      }
      pages := pages + [batch];
      read := read + |batch|;
      var nextKey := NextKey(primaryKey, batch[|batch| - 1]);
      if nextKey.None? {
        return pages, MissingKey;
      }
      UpToIs(primaryKey, rows, nextKey.value, read - 1);
      lastKey := nextKey;
      if |batch| < batchRows {
        assert rows[..read] == rows;
        return pages, Done;
      }
    }
  }

  // Packing

  function Total(sizes: seq<nat>): nat {
    if sizes == [] then 0 else Total(sizes[..|sizes| - 1]) + sizes[|sizes| - 1]
  }

  // A row as the wire message will carry it; None where conversion fails.
  datatype Converted = Converted(row: Row, bytes: nat)

  function Sizes(message: seq<Converted>): (r: seq<nat>)
    ensures |r| == |message|
  {
    seq(|message|, i requires 0 <= i < |message| => message[i].bytes)
  }

  function Bytes(message: seq<Converted>): nat {
    Total(Sizes(message))
  }

  lemma BytesOneMore(message: seq<Converted>, row: Converted)
    ensures Bytes(message + [row]) == Bytes(message) + row.bytes
  {
    assert Sizes(message + [row])[..|message|] == Sizes(message);
  }

  function All(rows: seq<Option<Converted>>): (r: seq<Converted>)
    requires forall i :: 0 <= i < |rows| ==> rows[i].Some?
    ensures |r| == |rows|
  {
    seq(|rows|, i requires 0 <= i < |rows| => rows[i].value)
  }

  ghost predicate Message(message: seq<Converted>, bound: nat) {
    message != [] && (Bytes(message) <= bound || |message| == 1)
  }

  // Each message is within the bound or a single row, and none could have held the
  // first row of the next.
  ghost predicate Packed(messages: seq<seq<Converted>>, bound: nat) {
    && (forall i :: 0 <= i < |messages| ==> Message(messages[i], bound))
    && (forall i :: 0 <= i < |messages| - 1 ==> Bytes(messages[i]) + messages[i + 1][0].bytes > bound)
  }

  // Rows not yet flushed: the message being filled.
  ghost predicate Filling(messages: seq<seq<Converted>>, message: seq<Converted>, bound: nat) {
    && (message != [] ==> Message(message, bound))
    && (message != [] && messages != [] ==> Bytes(messages[|messages| - 1]) + message[0].bytes > bound)
  }

  lemma Flushed(messages: seq<seq<Converted>>, message: seq<Converted>, bound: nat)
    requires Packed(messages, bound) && Filling(messages, message, bound) && message != []
    ensures Packed(messages + [message], bound)
  {
    hide Bytes;
  }

  // A row joins the message, or starts the next one.
  lemma Filled(messages: seq<seq<Converted>>, message: seq<Converted>, row: Converted, bound: nat)
    requires Filling(messages, message, bound)
    ensures Bytes(message) + row.bytes <= bound && message != [] ==> Filling(messages, message + [row], bound)
    ensures Bytes(message) + row.bytes > bound && message != [] ==> Filling(messages + [message], [row], bound)
    ensures messages == [] ==> Filling(messages, [row], bound)
    ensures Bytes(message + [row]) == Bytes(message) + row.bytes && Bytes([row]) == row.bytes
  {
    BytesOneMore(message, row);
    BytesOneMore([], row);
    assert [] + [row] == [row];
  }

  lemma AllOneMore(rows: seq<Option<Converted>>, i: nat)
    requires i < |rows| && forall j :: 0 <= j <= i ==> rows[j].Some?
    ensures All(rows[..i + 1]) == All(rows[..i]) + [rows[i].value]
  {
  }

  // How many rows convert before the first that does not.
  function Convertible(rows: seq<Option<Converted>>): (n: nat)
    ensures n <= |rows| && (forall i :: 0 <= i < n ==> rows[i].Some?) && (n < |rows| ==> rows[n].None?)
  {
    if rows == [] || rows[0].None? then 0 else 1 + Convertible(rows[1..])
  }

  lemma SentSoFar(rows: seq<Option<Converted>>, messages: seq<seq<Converted>>, message: seq<Converted>, i: nat)
    requires i <= |rows| && (forall j :: 0 <= j < i ==> rows[j].Some?) && Concat(messages) + message == All(rows[..i])
    ensures i <= Convertible(rows) && Concat(messages) <= All(rows[..Convertible(rows)])
  {
    hide Concat, Convertible;
    assert All(rows[..i]) <= All(rows[..Convertible(rows)]);
  }

  // sendRows, over a stream whose send fails on message `failAt`. What was sent is the
  // rows from their beginning, also when a row does not convert or a send fails.
  method SendRows(rows: seq<Option<Converted>>, bound: nat, failAt: Option<nat>)
    returns (messages: seq<seq<Converted>>, ok: bool)
    ensures Packed(messages, bound)
    ensures ok ==> (forall i :: 0 <= i < |rows| ==> rows[i].Some?) && Concat(messages) == All(rows)
    ensures failAt.None? && (forall i :: 0 <= i < |rows| ==> rows[i].Some?) ==> ok
    ensures Concat(messages) <= All(rows[..Convertible(rows)])
    ensures !ok ==> failAt == Some(|messages|) || Convertible(rows) < |rows|
  {
    messages := [];
    var message: seq<Converted> := [];
    var messageBytes := 0;
    assert Packed(messages, bound) && Filling(messages, message, bound) && Bytes(message) == 0;
    ConcatNone<Converted>();
    hide Packed, Filling, Bytes, Concat, All, Convertible;
    for i := 0 to |rows|
      invariant forall j :: 0 <= j < i ==> rows[j].Some?
      invariant Packed(messages, bound) && Filling(messages, message, bound) && messageBytes == Bytes(message)
      invariant Concat(messages) + message == All(rows[..i])
      invariant message == [] ==> messages == []
    {
      if rows[i].None? {
        SentSoFar(rows, messages, message, i);
        return messages, false;
      }
      var row := rows[i].value;
      AllOneMore(rows, i);
      Filled(messages, message, row, bound);
      if messageBytes + row.bytes > bound {
        if message != [] {
          if failAt == Some(|messages|) {
            SentSoFar(rows, messages, message, i);
            return messages, false;
          }
          Flushed(messages, message, bound);
          ConcatOneMore(messages, message);
          messages := messages + [message];
        }
        message, messageBytes := [], 0;
        assert [] + [row] == [row];
      } else if message == [] {
        assert [] + [row] == [row];
      }
      message := message + [row];
      messageBytes := messageBytes + row.bytes;
    }
    assert rows[..|rows|] == rows;
    SentSoFar(rows, messages, message, |rows|);
    if message != [] {
      if failAt == Some(|messages|) {
        return messages, false;
      }
      Flushed(messages, message, bound);
      ConcatOneMore(messages, message);
      messages := messages + [message];
    }
    ok := true;
  }

  // Rows as the wire carries them; a scanned row always converts.
  function Encoded(rows: seq<Row>, size: Row -> nat): (r: seq<Converted>)
    ensures |r| == |rows| && forall i :: 0 <= i < |rows| ==> r[i].row == rows[i]
  {
    seq(|rows|, i requires 0 <= i < |rows| => Converted(rows[i], size(rows[i])))
  }

  lemma EncodedOneMore(rows: seq<Row>, more: seq<Row>, size: Row -> nat)
    ensures Encoded(rows + more, size) == Encoded(rows, size) + Encoded(more, size)
  {
  }

  method SendPage(page: seq<Row>, size: Row -> nat, bound: nat, failAt: Option<nat>)
    returns (messages: seq<seq<Converted>>, ok: bool)
    ensures Packed(messages, bound) && Concat(messages) <= Encoded(page, size)
    ensures ok ==> Concat(messages) == Encoded(page, size)
    ensures !ok ==> failAt == Some(|messages|)
  {
    var converted := seq(|page|, i requires 0 <= i < |page| => Some(Converted(page[i], size(page[i]))));
    messages, ok := SendRows(converted, bound, failAt);
    assert converted[..|page|] == converted && All(converted) == Encoded(page, size);
  }

  // A whole snapshot: the scan's pages, each packed into messages as it is read, on a
  // stream that fails on message `failAt` of page `failPage`. What was sent is the
  // scope from its beginning; if nothing failed, the whole scope, in order.
  method SendSnapshot(primaryKey: seq<string>, rows: seq<Row>, batchRows: nat, size: Row -> nat, bound: nat,
                      queryFailAt: Option<nat>, failPage: Option<nat>, failAt: Option<nat>)
    returns (sent: seq<seq<seq<Converted>>>, ok: bool)
    requires Scope(primaryKey, rows) && batchRows > 0
    ensures forall i :: 0 <= i < |sent| ==> Packed(sent[i], bound)
    ensures Concat(Concat(sent)) <= Encoded(rows, size)
    ensures ok ==> Concat(Concat(sent)) == Encoded(rows, size)
    ensures (forall i :: 0 <= i < |rows| ==> HasKey(primaryKey, rows[i])) && queryFailAt.None? && failAt.None? ==> ok
  {
    hide Concat, Packed, Scope, HasKey, Pages;
    var pages, result := ScanScopedRows(primaryKey, rows, batchRows, queryFailAt, None);
    PagesPrefix(rows, pages, batchRows);
    sent := [];
    ConcatNone<seq<Converted>>();
    ConcatNone<Converted>();
    ConcatNone<Row>();
    for i := 0 to |pages|
      invariant |sent| == i && forall j :: 0 <= j < i ==> Packed(sent[j], bound)
      invariant Concat(Concat(sent)) == Encoded(Concat(pages[..i]), size)
    {
      var messages, sentAll := SendPage(pages[i], size, bound, if failPage == Some(i) then failAt else None);
      PageStarted(sent, messages, rows, pages, i, size);
      if !sentAll {
        return sent + [messages], false;
      }
      PageSent(sent, messages, pages, i, size);
      sent := sent + [messages];
    }
    assert pages[..|pages|] == pages;
    EncodedPrefix(Concat(pages), rows, size);
    ok := result == Done;
  }

  lemma EncodedPrefix(head: seq<Row>, rows: seq<Row>, size: Row -> nat)
    requires head <= rows
    ensures Encoded(head, size) <= Encoded(rows, size)
  {
  }

  lemma PagesPrefix(rows: seq<Row>, pages: seq<seq<Row>>, batchRows: nat)
    requires Pages(rows, pages, batchRows)
    ensures Concat(pages) <= rows
  {
  }

  // A page begun, whether or not it was sent whole.
  lemma PageStarted(sent: seq<seq<seq<Converted>>>, messages: seq<seq<Converted>>, rows: seq<Row>,
                    pages: seq<seq<Row>>, i: nat, size: Row -> nat)
    requires i < |pages| && Concat(pages) <= rows && Concat(Concat(sent)) == Encoded(Concat(pages[..i]), size)
    requires Concat(messages) <= Encoded(pages[i], size)
    ensures Concat(Concat(sent + [messages])) <= Encoded(rows, size)
  {
    ConcatOneMore(sent, messages);
    ConcatBoth(Concat(sent), messages);
    ConcatAt(pages, i);
    EncodedOneMore(Concat(pages[..i]), pages[i], size);
    EncodedPrefix(Concat(pages[..i + 1]), rows, size);
  }

  // One more page sent.
  lemma PageSent(sent: seq<seq<seq<Converted>>>, messages: seq<seq<Converted>>, pages: seq<seq<Row>>, i: nat,
                 size: Row -> nat)
    requires i < |pages| && Concat(Concat(sent)) == Encoded(Concat(pages[..i]), size)
    requires Concat(messages) == Encoded(pages[i], size)
    ensures Concat(Concat(sent + [messages])) == Encoded(Concat(pages[..i + 1]), size)
  {
    ConcatOneMore(sent, messages);
    ConcatBoth(Concat(sent), messages);
    ConcatAt(pages, i);
    EncodedOneMore(Concat(pages[..i]), pages[i], size);
  }
}
