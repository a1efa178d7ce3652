// MVCC visibility of a snapshot read (internal/cdc/visibility.go).
module Visibility {
  import opened Cdc

  const TWO_31: int := 0x8000_0000

  // pg_current_snapshot(): everything below xmin had finished, nothing at or
  // above xmax had, and inProgress lists the exceptions in between.
  datatype Visibility = Visibility(xmin: uint64, xmax: uint64, inProgress: set<uint64>)

  // Go's int32(x) for an unsigned 32-bit x.
  function AsInt32(x: uint32): (r: int)
    ensures -TWO_31 <= r < TWO_31 && (r - x) % TWO_32 == 0
  {
    if x < TWO_31 then x else x - TWO_32
  }

  // Go's int64(x) for an unsigned 64-bit x.
  function AsInt64(x: uint64): (r: int)
    ensures -TWO_63 <= r < TWO_63 && (r - x) % TWO_64 == 0
  {
    if x < TWO_63 then x else x - TWO_64
  }

  // Signed 64-bit addition, which wraps around.
  function AddInt64(a: int, b: int): (r: int)
    ensures -TWO_63 <= r < TWO_63 && (r - (a + b)) % TWO_64 == 0
  {
    var w := (a + b) % TWO_64;
    if w < TWO_63 then w else w - TWO_64
  }

  function Widen(xmax: uint64, xid: uint32): (full: uint64) {
    var distance := AsInt32((xid - xmax % TWO_32) % TWO_32);
    var full := AddInt64(AsInt64(xmax), distance);
    if full < 0 then 0 else full
  }

  predicate Includes(v: Visibility, xid: uint32) {
    var full := Widen(v.xmax, xid);
    if full >= v.xmax then false
    else if full < v.xmin then true
    else full !in v.inProgress
  }

  // The 64-bit rule PostgreSQL itself applies to a committed transaction.
  predicate VisibleXid8(v: Visibility, full: uint64) {
    full < v.xmax && (full < v.xmin || full !in v.inProgress)
  }

  // A snapshot read: where the stream takes over, and which transactions its
  // rows already hold.
  datatype Snapshot = Snapshot(cursor: LSN, visibility: Option<Visibility>)

  predicate Covers(s: Snapshot, t: Transaction) {
    s.visibility.Some? && Includes(s.visibility.value, t.xid)
  }

  // The signed 32-bit distance is congruent to the 64-bit one.
  lemma DistanceModulo(xmax: uint64, full: uint64) returns (k: int)
    ensures AsInt32((full % TWO_32 - xmax % TWO_32) % TWO_32) == full - xmax + k * TWO_32
  {
    var d := AsInt32((full % TWO_32 - xmax % TWO_32) % TWO_32);
    assert (full % TWO_32 - xmax % TWO_32) % TWO_32 == (full - xmax) % TWO_32;
    assert (d - (full - xmax)) % TWO_32 == 0;
    k := (d - (full - xmax)) / TWO_32;
  }

  // Widening the low 32 bits of a 64-bit transaction ID recovers it exactly
  // when the ID lies within 2^31 of xmax, on either side of a 32-bit
  // wraparound. The one other case is ID 0 (never a real transaction), which
  // the clamp also yields when int64 addition overflows just below 2^63.
  lemma WidenExact(xmax: uint64, full: uint64)
    requires xmax < TWO_63 && full < TWO_63
    ensures Widen(xmax, full % TWO_32) == full <==>
            (-TWO_31 <= full - xmax < TWO_31 || (full == 0 && xmax > TWO_63 - TWO_31))
  {
    var k := DistanceModulo(xmax, full);
    var d := AsInt32((full % TWO_32 - xmax % TWO_32) % TWO_32);
    var sum := xmax + d;
    assert AddInt64(xmax, d) == if sum < TWO_63 then sum else sum - TWO_64;
    if sum < TWO_63 {
      assert sum == full + k * TWO_32;
    } else {
      assert sum == full + k * TWO_32 && sum < TWO_63 + TWO_31;
      assert (TWO_63 - full) % TWO_32 == 0 <== full == 0;
    }
  }

  // So Covers agrees with PostgreSQL's own 64-bit visibility, across any number
  // of 32-bit wraparounds, for every transaction within 2^31 of the snapshot.
  lemma IncludesAgrees(v: Visibility, full: uint64)
    requires v.xmax < TWO_63 && full < TWO_63
    requires -TWO_31 <= full - v.xmax < TWO_31
    ensures Includes(v, full % TWO_32) <==> VisibleXid8(v, full)
  {
    WidenExact(v.xmax, full);
  }
}
