// The pgoutput decoder (internal/cdc/decoder.go): a stateful translation of
// messages into committed transactions, bounded in memory and gated on table
// shapes.
module Decoder {
  import opened Cdc
  import opened Tuple
  import R = Relation

  datatype Message =
    | Relation(relation: R.RelationMessage)
    | Begin(xid: uint32)
    | InsertRow(id: uint32, tuple: Option<seq<Column>>)
    | UpdateRow(id: uint32, oldTuple: Option<seq<Column>>, tuple: Option<seq<Column>>)
    | DeleteRow(id: uint32, oldTuple: Option<seq<Column>>)
    | Commit(commitLSN: LSN, endLSN: LSN)
    | Metadata
    | Unsupported

  predicate IsRow(m: Message) {
    m.InsertRow? || m.UpdateRow? || m.DeleteRow?
  }

  datatype Limits = Limits(maxBytes: nat, maxChanges: nat, maxValueBytes: nat)

  const DEFAULT_LIMITS := Limits(16 * 1024 * 1024, 100_000, 1024 * 1024)

  // The shape registry's answers while one message is consumed: the generation
  // skip compares with, then the generation and the baselines check reads. Other
  // goroutines record baselines meanwhile, so each answer may be from a later
  // registry than the one before. NoShapes: the decoder has no registry.
  datatype Look = NoShapes | Look(skipGeneration: nat, generation: nat, byOid: map<uint32, R.Shape>,
                                  byTable: map<string, R.Shape>)

  datatype State = State(relations: map<uint32, RelationInfo>, pending: Option<seq<Change>>, xid: uint32,
                         bytes: nat, events: seq<Incompatible>)

  datatype Outcome = Quiet | Emitted(transaction: Transaction) | Failed(error: Error)

  const EMPTY := State(map[], None, 0, 0, [])

  ghost predicate WellFormedState(s: State) {
    forall id :: id in s.relations ==> WellFormed(s.relations[id])
  }

  // report, check, skip

  predicate Names(events: seq<Incompatible>, table: string) {
    exists e :: e in events && e.table == table
  }

  function Reported(events: seq<Incompatible>, event: Incompatible): seq<Incompatible> {
    if Names(events, event.table) then events else events + [event]
  }

  // A baseline under another name with this relation ID is a rename.
  function RenameReported(look: Look, info: RelationInfo, events: seq<Incompatible>): seq<Incompatible>
    requires look.Look?
  {
    if info.oid in look.byOid && look.byOid[info.oid].table != info.table
    then Reported(events, Incompatible(look.byOid[info.oid].table, R.Renamed(info.table)))
    else events
  }

  function Verdict(look: Look, info: RelationInfo): Option<Incompatible>
    requires look.Look?
  {
    if info.table !in look.byTable then None
    else
      match R.DifferenceOf(look.byTable[info.table], info.shape)
      case None => None
      case Some(d) => Some(Incompatible(info.table, d))
  }

  function CheckedInfo(look: Look, info: RelationInfo): RelationInfo {
    if look.NoShapes? then info
    else info.(checked := look.generation, incompatible := Verdict(look, info))
  }

  function CheckedEvents(look: Look, info: RelationInfo, events: seq<Incompatible>): seq<Incompatible> {
    if look.NoShapes? then events
    else
      var renamed := RenameReported(look, info, events);
      match Verdict(look, info)
      case None => renamed
      case Some(event) => Reported(renamed, event)
  }

  predicate Rechecks(look: Look, info: RelationInfo) {
    look.Look? && info.checked != look.skipGeneration
  }

  // The state once skip has looked at relation id again, if it had to.
  function Refreshed(s: State, id: uint32, look: Look): State
    requires id in s.relations
  {
    var info := s.relations[id];
    if Rechecks(look, info)
    then s.(relations := s.relations[id := CheckedInfo(look, info)], events := CheckedEvents(look, info, s.events))
    else s
  }

  // insert, update, delete

  function InsertChange(info: RelationInfo, operation: Operation, tuple: Option<seq<Column>>, maxValueBytes: nat)
    : Result<Change>
    requires WellFormed(info)
  {
    match RowOf(info, tuple, maxValueBytes)
    case Err(e) => Err(e)
    case Ok(values) =>
      match KeyOfValues(info, values)
      case Err(e) => Err(e)
      case Ok(key) => Ok(Change(operation, info.table, key, info.columns, values))
  }

  // The old tuple of an update must carry the key the new row has.
  function UpdateChange(info: RelationInfo, oldTuple: Option<seq<Column>>, tuple: Option<seq<Column>>,
                        maxValueBytes: nat): Result<Change>
    requires WellFormed(info)
  {
    match InsertChange(info, Update, tuple, maxValueBytes)
    case Err(e) => Err(e)
    case Ok(change) =>
      if oldTuple.None? then Ok(change)
      else
        match KeyTupleError(info, oldTuple, maxValueBytes)
        case Some(e) => Err(e)
        case None =>
          if KeyData(info, oldTuple.value, |info.keyIndexes|) == KeyTexts(info.keyIndexes, change.values)
          then Ok(change) else Err(PrimaryKeyChange)
  }

  function DeleteChange(info: RelationInfo, oldTuple: Option<seq<Column>>, maxValueBytes: nat): Result<Change>
    requires WellFormed(info)
  {
    match KeyTupleError(info, oldTuple, maxValueBytes)
    case Some(e) => Err(e)
    case None => Ok(Change(Delete, info.table, KeyOfTuple(info, oldTuple.value), [], []))
  }

  function RowChange(info: RelationInfo, m: Message, maxValueBytes: nat): Result<Change>
    requires WellFormed(info) && IsRow(m)
  {
    match m
    case InsertRow(_, tuple) => InsertChange(info, Insert, tuple, maxValueBytes)
    case UpdateRow(_, oldTuple, tuple) => UpdateChange(info, oldTuple, tuple, maxValueBytes)
    case DeleteRow(_, oldTuple) => DeleteChange(info, oldTuple, maxValueBytes)
  }

  // Memory estimates

  const CHANGE_OVERHEAD: nat := 256

  function OperationName(o: Operation): string {
    match o
    case Insert => "insert"
    case Update => "update"
    case Delete => "delete"
  }

  ghost function KeyBytes(key: map<string, string>): nat
    decreases |key|
  {
    if key == map[] then 0
    else
      var k :| k in key;
      |k| + |key[k]| + KeyBytes(key - {k})
  }

  // The sum does not depend on the order the map is walked in.
  lemma {:induction false} KeyBytesAny(key: map<string, string>, k: string)
    requires k in key
    ensures KeyBytes(key) == |k| + |key[k]| + KeyBytes(key - {k})
    decreases |key|
  {
    var j :| j in key && KeyBytes(key) == |j| + |key[j]| + KeyBytes(key - {j});
    if j != k {
      KeyBytesAny(key - {j}, k);
      KeyBytesAny(key - {k}, j);
      assert key - {j} - {k} == key - {k} - {j};
    }
  }

  function ValueBytes(v: Value): nat {
    if v.Text? then |v.text| else 1
  }

  function RowBytes(columns: seq<string>, values: seq<Value>): nat
    requires |columns| >= |values|
  {
    if values == [] then 0
    else
      var n := |values| - 1;
      RowBytes(columns, values[..n]) + |columns[n]| + ValueBytes(values[n])
  }

  ghost predicate Rowed(change: Change) {
    |change.columns| >= |change.values|
  }

  ghost function ChangeBytes(change: Change): nat
    requires Rowed(change)
  {
    CHANGE_OVERHEAD + |OperationName(change.operation)| + |change.table| + KeyBytes(change.key)
    + RowBytes(change.columns, change.values)
  }

  method EstimatedChangeBytes(change: Change) returns (bytes: nat)
    requires Rowed(change)
    ensures bytes == ChangeBytes(change)
  {
    bytes := CHANGE_OVERHEAD + |OperationName(change.operation)| + |change.table|;
    var left := change.key;
    while left != map[]
      invariant left.Keys <= change.key.Keys && forall k :: k in left ==> left[k] == change.key[k]
      invariant bytes + KeyBytes(left) ==
                CHANGE_OVERHEAD + |OperationName(change.operation)| + |change.table| + KeyBytes(change.key)
      decreases |left|
    {
      var k :| k in left;
      KeyBytesAny(left, k);
      bytes := bytes + |k| + |left[k]|;
      left := left - {k};
    }
    ghost var fixed := bytes;
    for i := 0 to |change.values|
      invariant bytes == fixed + RowBytes(change.columns, change.values[..i])
    {
      assert change.values[..i + 1][..i] == change.values[..i];
      bytes := bytes + |change.columns[i]| + ValueBytes(change.values[i]);
    }
    assert change.values[..|change.values|] == change.values;
  }

  lemma RowChangeRowed(info: RelationInfo, m: Message, maxValueBytes: nat)
    requires WellFormed(info) && IsRow(m) && RowChange(info, m, maxValueBytes).Ok?
    ensures Rowed(RowChange(info, m, maxValueBytes).value)
  {
  }

  // append

  ghost function Appended(s: State, change: Change, limits: Limits): Result<State>
    requires Rowed(change)
  {
    if s.pending.None? then Err(NoTransaction)
    else if |s.pending.value| >= limits.maxChanges then Err(TooManyChanges)
    else if ChangeBytes(change) > limits.maxBytes - s.bytes then Err(TransactionTooLarge)
    else Ok(s.(pending := Some(s.pending.value + [change]), bytes := s.bytes + ChangeBytes(change)))
  }

  // Consume

  ghost function RowStep(s: State, m: Message, look: Look, limits: Limits): (State, Outcome)
    requires WellFormedState(s) && IsRow(m)
  {
    if m.id !in s.relations then (s, Failed(UnknownRelation))
    else
      var seen := Refreshed(s, m.id, look);
      var info := seen.relations[m.id];
      if info.incompatible.Some? then (seen, Quiet)
      else
        match RowChange(info, m, limits.maxValueBytes)
        case Err(e) => (seen, Failed(e))
        case Ok(change) =>
          RowChangeRowed(info, m, limits.maxValueBytes);
          match Appended(seen, change, limits)
          case Err(e) => (seen, Failed(e))
          case Ok(next) => (next, Quiet)
  }

  function Tables(events: seq<Incompatible>): (r: seq<string>)
    ensures |r| == |events|
  {
    seq(|events|, i requires 0 <= i < |events| => events[i].table)
  }

  function CommitStep(s: State, commitLSN: LSN, endLSN: LSN): (State, Outcome) {
    if s.pending.None? then (s, Failed(NoTransaction))
    else (s.(pending := None, bytes := 0, events := []),
          Emitted(Transaction(endLSN, commitLSN, s.xid, s.pending.value, Tables(s.events))))
  }

  function RelationStep(s: State, message: R.RelationMessage, look: Look): State {
    var info := InfoOf(message);
    s.(relations := s.relations[message.id := CheckedInfo(look, info)], events := CheckedEvents(look, info, s.events))
  }

  ghost function Step(s: State, m: Message, look: Look, limits: Limits): (State, Outcome)
    requires WellFormedState(s)
  {
    match m
    case Relation(message) => (RelationStep(s, message, look), Quiet)
    case Begin(xid) =>
      if s.pending.Some? then (s, Failed(TransactionInProgress))
      else (s.(pending := Some([]), xid := xid, bytes := 0), Quiet)
    case Commit(commitLSN, endLSN) => CommitStep(s, commitLSN, endLSN)
    case Metadata => (s, Quiet)
    case Unsupported => (s, Failed(UnsupportedMessage))
    case _ => RowStep(s, m, look, limits)
  }

  class Decoder {
    const limits: Limits
    var relations: map<uint32, RelationInfo>
    var pending: Option<seq<Change>>
    var pendingXid: uint32
    var pendingBytes: nat
    var events: seq<Incompatible>

    ghost function Model(): State
      reads this
    {
      State(relations, pending, pendingXid, pendingBytes, events)
    }

    ghost predicate Valid()
      reads this
    {
      WellFormedState(Model())
    }

    // NewDecoderWithLimits: a limit that is not positive selects its default.
    constructor (maxBytes: int, maxChanges: int, maxValueBytes: int)
      ensures Valid() && Model() == EMPTY
      ensures limits.maxBytes == if maxBytes <= 0 then DEFAULT_LIMITS.maxBytes else maxBytes
      ensures limits.maxChanges == if maxChanges <= 0 then DEFAULT_LIMITS.maxChanges else maxChanges
      ensures limits.maxValueBytes == if maxValueBytes <= 0 then DEFAULT_LIMITS.maxValueBytes else maxValueBytes
    {
      limits := Limits(if maxBytes <= 0 then DEFAULT_LIMITS.maxBytes else maxBytes,
                       if maxChanges <= 0 then DEFAULT_LIMITS.maxChanges else maxChanges,
                       if maxValueBytes <= 0 then DEFAULT_LIMITS.maxValueBytes else maxValueBytes);
      relations, pending, pendingXid, pendingBytes, events := map[], None, 0, 0, [];
    }

    method Report(event: Incompatible)
      modifies `events
      ensures events == Reported(old(events), event)
    {
      for i := 0 to |events|
        invariant events == old(events)
        invariant forall j :: 0 <= j < i ==> events[j].table != event.table
      {
        if events[i].table == event.table {
          return;
        }
      }
      events := events + [event];
    }

    // check decides relation id afresh against the registry's answers.
    method Check(id: uint32, look: Look)
      requires Valid() && id in relations
      modifies `relations, `events
      ensures Valid()
      ensures relations == old(relations)[id := CheckedInfo(look, old(relations)[id])]
      ensures events == CheckedEvents(look, old(relations)[id], old(events))
    {
      if look.NoShapes? {
        assert relations == relations[id := relations[id]];
        return;
      }
      var info := relations[id];
      relations := relations[id := info.(checked := look.generation, incompatible := None)];
      if info.oid in look.byOid && look.byOid[info.oid].table != info.table {
        Report(Incompatible(look.byOid[info.oid].table, R.Renamed(info.table)));
      }
      if info.table !in look.byTable {
        return;
      }
      var difference := R.Diff(look.byTable[info.table], info.shape);
      if difference.Some? {
        var event := Incompatible(info.table, difference.value);
        relations := relations[id := info.(checked := look.generation, incompatible := Some(event))];
        Report(event);
      }
    }

    // skip: whether relation id's row changes must be dropped.
    method Skip(id: uint32, look: Look) returns (r: Result<bool>)
      requires Valid()
      modifies `relations, `events
      ensures Valid()
      ensures id !in old(relations) ==> r == Err(UnknownRelation) && Model() == old(Model())
      ensures id in old(relations) ==>
                && Model() == Refreshed(old(Model()), id, look)
                && r == Ok(relations[id].incompatible.Some?)
    {
      if id !in relations {
        return Err(UnknownRelation);
      }
      if look.Look? && relations[id].checked != look.skipGeneration {
        Check(id, look);
      }
      r := Ok(relations[id].incompatible.Some?);
    }

    method Append(change: Change) returns (r: Outcome)
      requires Valid() && Rowed(change)
      modifies `pending, `pendingBytes
      ensures Valid()
      ensures match Appended(old(Model()), change, limits)
              case Ok(next) => r == Quiet && Model() == next
              case Err(e) => r == Failed(e) && Model() == old(Model())
    {
      if pending.None? {
        return Failed(NoTransaction);
      }
      if |pending.value| >= limits.maxChanges {
        return Failed(TooManyChanges);
      }
      var bytes := EstimatedChangeBytes(change);
      if bytes > limits.maxBytes - pendingBytes {
        return Failed(TransactionTooLarge);
      }
      pending := Some(pending.value + [change]);
      pendingBytes := pendingBytes + bytes;
      r := Quiet;
    }

    method ConsumeRow(m: Message, look: Look) returns (r: Outcome)
      requires Valid() && IsRow(m)
      modifies this
      ensures Valid() && (Model(), r) == RowStep(old(Model()), m, look, limits)
    {
      var skip := Skip(m.id, look);
      if skip.Err? {
        return Failed(skip.error);
      }
      if skip.value {
        return Quiet;
      }
      var change := DecodeChange(relations[m.id], m, limits.maxValueBytes);
      if change.Err? {
        return Failed(change.error);
      }
      RowChangeRowed(relations[m.id], m, limits.maxValueBytes);
      r := Append(change.value);
    }

    method Consume(m: Message, look: Look) returns (r: Outcome)
      requires Valid()
      modifies this
      ensures Valid() && (Model(), r) == Step(old(Model()), m, look, limits)
    {
      match m
      case Relation(message) =>
        var info := NewRelationInfo(message);
        relations := relations[message.id := info];
        Check(message.id, look);
        assert relations == old(relations)[message.id := CheckedInfo(look, info)];
        r := Quiet;
      case Begin(xid) =>
        if pending.Some? {
          return Failed(TransactionInProgress);
        }
        pending, pendingXid, pendingBytes := Some([]), xid, 0;
        r := Quiet;
      case Commit(commitLSN, endLSN) =>
        if pending.None? {
          return Failed(NoTransaction);
        }
        r := Emitted(Transaction(endLSN, commitLSN, pendingXid, pending.value, Tables(events)));
        events, pending, pendingBytes := [], None, 0;
      case Metadata =>
        r := Quiet;
      case Unsupported =>
        r := Failed(UnsupportedMessage);
      case _ =>
        r := ConsumeRow(m, look);
    }
  }

  method DecodeInsert(info: RelationInfo, operation: Operation, tuple: Option<seq<Column>>, maxValueBytes: nat)
    returns (r: Result<Change>)
    requires WellFormed(info)
    ensures r == InsertChange(info, operation, tuple, maxValueBytes)
  {
    var values := DecodeRow(info, tuple, maxValueBytes);
    if values.Err? { return Err(values.error); }
    var key := KeyFromValues(info, values.value);
    if key.Err? { return Err(key.error); }
    r := Ok(Change(operation, info.table, key.value, info.columns, values.value));
  }

  method DecodeUpdate(info: RelationInfo, oldTuple: Option<seq<Column>>, tuple: Option<seq<Column>>, maxValueBytes: nat)
    returns (r: Result<Change>)
    requires WellFormed(info)
    ensures r == UpdateChange(info, oldTuple, tuple, maxValueBytes)
  {
    r := DecodeInsert(info, Update, tuple, maxValueBytes);
    if r.Err? || oldTuple.None? { return; }
    var bad := CheckKeyTuple(info, oldTuple, maxValueBytes);
    if bad.Some? { return Err(bad.value); }
    ghost var was, now := KeyData(info, oldTuple.value, |info.keyIndexes|), KeyTexts(info.keyIndexes, r.value.values);
    for k := 0 to |info.keyIndexes|
      invariant forall j :: 0 <= j < k ==> was[j] == now[j]
    {
      if KeyColumn(info, oldTuple.value, k).data != r.value.values[info.keyIndexes[k]].text {
        assert was[k] != now[k];
        return Err(PrimaryKeyChange);
      }
    }
  }

  method DecodeChange(info: RelationInfo, m: Message, maxValueBytes: nat) returns (r: Result<Change>)
    requires WellFormed(info) && IsRow(m)
    ensures r == RowChange(info, m, maxValueBytes)
  {
    match m
    case InsertRow(_, tuple) => r := DecodeInsert(info, Insert, tuple, maxValueBytes);
    case UpdateRow(_, oldTuple, tuple) => r := DecodeUpdate(info, oldTuple, tuple, maxValueBytes);
    case DeleteRow(_, oldTuple) =>
      var bad := CheckKeyTuple(info, oldTuple, maxValueBytes);
      if bad.Some? { return Err(bad.value); }
      var key := KeyFromTuple(info, oldTuple.value);
      r := Ok(Change(Delete, info.table, key, [], []));
  }

  // An update with an old tuple goes through exactly when the row keeps its key, and
  // is otherwise refused as a key change.
  lemma UpdateKeepsKey(info: RelationInfo, oldTuple: seq<Column>, tuple: Option<seq<Column>>, maxValueBytes: nat)
    requires WellFormed(info) && DistinctNames(info.columns, info.keyIndexes)
    requires InsertChange(info, Update, tuple, maxValueBytes).Ok?
    requires KeyTupleError(info, Some(oldTuple), maxValueBytes).None?
    ensures var change := InsertChange(info, Update, tuple, maxValueBytes).value;
            UpdateChange(info, Some(oldTuple), tuple, maxValueBytes) ==
              if KeyOfTuple(info, oldTuple) == change.key then Ok(change) else Err(PrimaryKeyChange)
  {
    var change := InsertChange(info, Update, tuple, maxValueBytes).value;
    KeyMapInjective(info.columns, info.keyIndexes, KeyData(info, oldTuple, |info.keyIndexes|),
                    KeyTexts(info.keyIndexes, change.values));
  }
}
