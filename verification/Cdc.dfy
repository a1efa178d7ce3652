// The values that travel through watchd: PostgreSQL positions, row changes and
// committed transactions, as decoded from the replication stream.
module Cdc {
  datatype Option<+T> = None | Some(value: T)

  const TWO_32: int := 0x1_0000_0000
  const TWO_63: int := 0x8000_0000_0000_0000
  const TWO_64: int := 0x1_0000_0000_0000_0000

  type uint32 = x: int | 0 <= x < TWO_32
  type uint64 = x: int | 0 <= x < TWO_64

  // A WAL position. The hub and the reader only compare positions.
  type LSN = nat

  // One column value: SQL NULL, PostgreSQL text, or a TOASTed column an UPDATE
  // left unchanged and did not resend.
  datatype Value = Null | Text(text: string) | Unchanged

  // A row's values by column.
  type Row = map<string, Value>

  datatype Operation = Insert | Update | Delete

  // Values[i] is the value of Columns[i]; both are empty for a delete.
  datatype Change = Change(operation: Operation, table: string, key: map<string, string>,
                           columns: seq<string>, values: seq<Value>)

  // `cursor` is the position just after the commit, `commitLSN` the start of the
  // commit record, `incompatible` the tables that stopped matching their spec.
  datatype Transaction = Transaction(cursor: LSN, commitLSN: LSN, xid: uint32,
                                     changes: seq<Change>, incompatible: seq<string>)

  // A consumer resuming from `cursor` must still apply `t`.
  predicate After(t: Transaction, cursor: LSN) {
    t.commitLSN >= cursor
  }

  // The order PostgreSQL gives one source's commits: a commit record lies before
  // its end, and the next one starts at or after the previous end.
  ghost predicate SourceOrdered(log: seq<Transaction>) {
    && (forall i :: 0 <= i < |log| ==> log[i].commitLSN < log[i].cursor)
    && (forall i, j :: 0 <= i < j < |log| ==> log[i].cursor <= log[j].commitLSN)
  }
}
