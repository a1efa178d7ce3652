// No silent schema drop (internal/cdc/decoder.go, internal/cdc/relation.go): what
// the decoder leaves out it reports with the next COMMIT, and what it emits agrees
// with a baseline no older than the row.
module SchemaGate {
  import opened Cdc
  import opened Tuple
  import opened Decoder
  import opened DecoderRuns
  import R = Relation

  // The relation's ID is that of another table's baseline.
  predicate IsRename(look: Look, info: RelationInfo, table: string)
    requires look.Look?
  {
    info.oid in look.byOid && look.byOid[info.oid].table == table != info.table
  }

  // A check finds the table incompatible: its baseline was renamed away or differs.
  predicate Finds(look: Look, info: RelationInfo, table: string)
    requires look.Look?
  {
    IsRename(look, info, table) || (Verdict(look, info).Some? && info.table == table)
  }

  // Input j makes the decoder report the table.
  predicate ReportsAt(inputs: seq<Input>, j: nat, table: string)
    requires j < |inputs|
  {
    && var examined := Examined(inputs[..j], inputs[j].message, inputs[j].look);
    && examined.Some? && Finds(inputs[j].look, InfoOf(examined.value), table)
  }

  // Where the transaction being received began: after the last COMMIT that closed one.
  function Since(inputs: seq<Input>): (n: nat)
    ensures n <= |inputs|
    ensures n > 0 ==> inputs[n - 1].message.Commit? && Open(inputs[..n - 1])
  {
    if inputs == [] then 0
    else
      var n := |inputs| - 1;
      if inputs[n].message.Commit? && Open(inputs[..n]) then n + 1
      else
        var k := Since(inputs[..n]);
        assert k > 0 ==> inputs[..n][..k - 1] == inputs[..k - 1];
        k
  }

  lemma ReportedNames(events: seq<Incompatible>, event: Incompatible, table: string)
    ensures Names(Reported(events, event), table) <==> Names(events, table) || table == event.table
  {
    if Names(events, table) {
      var e :| e in events && e.table == table;
      assert e in Reported(events, event);
    }
    if table == event.table && !Names(events, table) {
      assert event in events + [event];
    }
  }

  // A check adds exactly what it finds.
  lemma CheckNames(look: Look, info: RelationInfo, events: seq<Incompatible>, table: string)
    requires look.Look?
    ensures Names(CheckedEvents(look, info, events), table) <==> Names(events, table) || Finds(look, info, table)
  {
    if info.oid in look.byOid {
      ReportedNames(events, Incompatible(look.byOid[info.oid].table, R.Renamed(info.table)), table);
    }
    var renamed := RenameReported(look, info, events);
    match Verdict(look, info)
    case None =>
    case Some(event) => ReportedNames(renamed, event, table);
  }

  lemma ReportsAtPrefix(inputs: seq<Input>, n: nat, j: nat, table: string)
    requires j < n <= |inputs|
    ensures ReportsAt(inputs[..n], j, table) <==> ReportsAt(inputs, j, table)
  {
    assert inputs[..n][..j] == inputs[..j];
  }

  // The table was reported since the last COMMIT.
  predicate FoundSince(inputs: seq<Input>, table: string) {
    inputs != [] &&
    (var n := |inputs| - 1;
     !(inputs[n].message.Commit? && Open(inputs[..n])) &&
     (FoundSince(inputs[..n], table) || ReportsAt(inputs, n, table)))
  }

  lemma {:induction false} ReportsAreFound(inputs: seq<Input>, table: string)
    ensures Names(Reports(inputs), table) <==> FoundSince(inputs, table)
  {
    if inputs != [] {
      var n := |inputs| - 1;
      var rest, last := inputs[..n], inputs[n];
      ReportsAreFound(rest, table);
      var examined := Examined(rest, last.message, last.look);
      if examined.Some? { CheckNames(last.look, InfoOf(examined.value), Reports(rest), table); }
      hide Names, CheckedEvents, Finds, InfoOf, Open, Examined;
    }
  }

  lemma {:induction false} FoundIs(inputs: seq<Input>, table: string)
    ensures FoundSince(inputs, table) <==>
            exists j :: Since(inputs) <= j < |inputs| && ReportsAt(inputs, j, table)
  {
    if inputs != [] {
      var n := |inputs| - 1;
      var rest := inputs[..n];
      FoundIs(rest, table);
      forall j | 0 <= j < n ensures ReportsAt(rest, j, table) <==> ReportsAt(inputs, j, table) {
        ReportsAtPrefix(inputs, n, j, table);
      }
      hide ReportsAt, Open;
      if FoundSince(rest, table) && Since(inputs) <= n {
        var j :| Since(rest) <= j < n && ReportsAt(rest, j, table);
        assert ReportsAt(inputs, j, table);
      }
    }
  }

  // What is reported with the next COMMIT is exactly what was found since the last.
  lemma ReportsHold(inputs: seq<Input>, table: string)
    ensures table in Tables(Reports(inputs)) <==>
            exists j :: Since(inputs) <= j < |inputs| && ReportsAt(inputs, j, table)
  {
    hide Since, ReportsAt, Reports, FoundSince;
    ReportsAreFound(inputs, table);
    FoundIs(inputs, table);
    var events := Reports(inputs);
    if e :| e in events && e.table == table {
      var i :| 0 <= i < |events| && events[i] == e;
      assert Tables(events)[i] == table;
    }
  }

  // The input at which relation id was last checked.
  function CheckedAt(inputs: seq<Input>, id: uint32): nat {
    if inputs == [] then 0
    else
      var n := |inputs| - 1;
      var m := inputs[n].message;
      if m.Relation? && m.relation.id == id then n
      else if IsRow(m) && m.id == id && Moved(inputs[..n], id, inputs[n].look) then n
      else CheckedAt(inputs[..n], id)
  }

  lemma {:induction false} CheckedIs(inputs: seq<Input>, id: uint32)
    requires LastRelation(inputs, id).Some?
    ensures var d := CheckedAt(inputs, id);
            && d < |inputs| && LastLook(inputs, id) == inputs[d].look
            && (inputs[d].look.Look? ==>
                  Examined(inputs[..d], inputs[d].message, inputs[d].look) == LastRelation(inputs, id))
  {
    var n := |inputs| - 1;
    var m := inputs[n].message;
    LastStep(inputs, id);
    if !(m.Relation? && m.relation.id == id) {
      CheckedIs(inputs[..n], id);
      var d := CheckedAt(inputs[..n], id);
      assert inputs[..n][..d] == inputs[..d];
    }
  }

  // The input whose check decides what becomes of row i.
  function Decider(inputs: seq<Input>, i: nat): nat
    requires i < |inputs| && IsRow(inputs[i].message)
  {
    var id := inputs[i].message.id;
    if Moved(inputs[..i], id, inputs[i].look) then i else CheckedAt(inputs[..i], id)
  }

  function TableOf(inputs: seq<Input>, i: nat): string
    requires i < |inputs| && IsRow(inputs[i].message) && LastRelation(inputs[..i], inputs[i].message.id).Some?
  {
    InfoOf(LastRelation(inputs[..i], inputs[i].message.id).value).table
  }

  ghost predicate IsDropped(inputs: seq<Input>, i: nat) {
    && i < |inputs| && IsRow(inputs[i].message)
    && Dropped(inputs[..i], inputs[i].message.id, inputs[i].look)
  }

  // A dropped row's table is reported by the very check that decided to drop it.
  lemma DropIsReported(inputs: seq<Input>, i: nat)
    requires IsDropped(inputs, i)
    ensures Decider(inputs, i) <= i && ReportsAt(inputs, Decider(inputs, i), TableOf(inputs, i))
  {
    var id, look, d := inputs[i].message.id, inputs[i].look, Decider(inputs, i);
    CheckedIs(inputs[..i], id);
    if d < i { assert inputs[..i][..d] == inputs[..d]; }
    var relation := LastRelation(inputs[..i], id).value;
    var info := InfoOf(relation);
    hide InfoOf;
    R.NoDifference(inputs[d].look.byTable[info.table], info.shape);
    assert info.table in inputs[d].look.byTable;
    assert Examined(inputs[..d], inputs[d].message, inputs[d].look) == Some(relation);
    hide Examined, LastLook, LastRelation, Moved, CheckedAt, R.DifferenceOf, R.SameShape;
  }

  lemma EmittedIs(limits: Limits, inputs: seq<Input>, k: nat)
    requires k < |inputs|
    ensures OutcomeAt(limits, inputs, k).Emitted? <==> inputs[k].message.Commit? && Open(inputs[..k])
    ensures OutcomeAt(limits, inputs, k).Emitted? ==>
              OutcomeAt(limits, inputs, k).transaction.incompatible == Tables(Reports(inputs[..k]))
  {
    hide OutcomeAt, Fed, Kept, Reports, Open;
    DecoderRefines(limits, inputs, k);
  }

  // The first transaction emitted after input j.
  ghost predicate NextEmitted(limits: Limits, inputs: seq<Input>, j: nat, k: nat) {
    && j < k < |inputs| && OutcomeAt(limits, inputs, k).Emitted?
    && forall m :: j < m < k ==> !OutcomeAt(limits, inputs, m).Emitted?
  }

  lemma {:induction false} NextEmission(limits: Limits, inputs: seq<Input>, j: nat, n: nat) returns (k: nat)
    requires j < n < |inputs| && OutcomeAt(limits, inputs, n).Emitted?
    ensures k <= n && NextEmitted(limits, inputs, j, k)
    decreases n
  {
    hide OutcomeAt;
    if m :| j < m < n && OutcomeAt(limits, inputs, m).Emitted? {
      k := NextEmission(limits, inputs, j, m);
    } else {
      k := n;
    }
  }

  lemma NoneSince(limits: Limits, inputs: seq<Input>, j: nat, k: nat)
    requires NextEmitted(limits, inputs, j, k) && !inputs[j].message.Commit?
    ensures Since(inputs[..k]) <= j
  {
    hide OutcomeAt, Open, Since, Fed, Reports, Tables;
    var since := Since(inputs[..k]);
    if since > j {
      assert inputs[..k][..since - 1] == inputs[..since - 1];
      EmittedIs(limits, inputs, since - 1);
    }
  }

  // What a check finds is reported by the next transaction emitted.
  lemma FoundIsAnnounced(limits: Limits, inputs: seq<Input>, j: nat, k: nat, table: string)
    requires j < |inputs| && ReportsAt(inputs, j, table) && NextEmitted(limits, inputs, j, k)
    ensures table in OutcomeAt(limits, inputs, k).transaction.incompatible
  {
    assert !inputs[j].message.Commit?;
    hide OutcomeAt, Since, Reports, ReportsAt, Tables;
    NoneSince(limits, inputs, j, k);
    EmittedIs(limits, inputs, k);
    ReportsAtPrefix(inputs, k, j, table);
    ReportsHold(inputs[..k], table);
  }

  // No silent schema drop: a row dropped for its table's shape has that table
  // reported by the first transaction emitted after the check that decided it,
  // which is at the latest the one the row was part of.
  lemma NoSilentDrop(limits: Limits, inputs: seq<Input>, i: nat, n: nat) returns (k: nat)
    requires IsDropped(inputs, i) && i < n < |inputs| && OutcomeAt(limits, inputs, n).Emitted?
    ensures k <= n && NextEmitted(limits, inputs, Decider(inputs, i), k)
    ensures TableOf(inputs, i) in OutcomeAt(limits, inputs, k).transaction.incompatible
  {
    hide OutcomeAt, ReportsAt, TableOf, Decider;
    DropIsReported(inputs, i);
    k := NextEmission(limits, inputs, Decider(inputs, i), n);
    FoundIsAnnounced(limits, inputs, Decider(inputs, i), k, TableOf(inputs, i));
  }

  // A Relation message that gives a projected table's relation ID another name
  // has that table reported by the next transaction emitted.
  lemma RenameAnnounced(limits: Limits, inputs: seq<Input>, i: nat, k: nat, table: string)
    requires i < |inputs| && inputs[i].message.Relation? && inputs[i].look.Look?
    requires IsRename(inputs[i].look, InfoOf(inputs[i].message.relation), table)
    requires NextEmitted(limits, inputs, i, k)
    ensures table in OutcomeAt(limits, inputs, k).transaction.incompatible
  {
    hide OutcomeAt, InfoOf;
    FoundIsAnnounced(limits, inputs, i, k, table);
  }

  // The registry as the decoder meets it: versions[g] is the registry at
  // generation g. Each message's answers come from versions that do not go back.
  datatype Times = Times(skip: nat, generation: nat, oid: nat, table: nat)

  ghost predicate AnswersAt(versions: seq<R.Registry>, look: Look, at: Times) {
    && at.skip <= at.generation <= at.oid <= at.table < |versions|
    && look == Look(at.skip, at.generation, versions[at.oid].byOid, versions[at.table].byTable)
  }

  ghost predicate Timeline(versions: seq<R.Registry>, inputs: seq<Input>, times: seq<Times>) {
    && |times| == |inputs|
    && (forall i :: 0 <= i < |inputs| ==> AnswersAt(versions, inputs[i].look, times[i]))
    && (forall i, j :: 0 <= i < j < |inputs| ==> times[i].table <= times[j].skip)
  }

  // Every change that is not dropped comes from a relation that agrees with its
  // table's baseline, or has none, in a version of the registry at least as new as
  // the one that was current when the row arrived.
  lemma GateIsCurrent(versions: seq<R.Registry>, inputs: seq<Input>, times: seq<Times>, i: nat)
    requires Timeline(versions, inputs, times) && i < |inputs| && IsRow(inputs[i].message)
    requires LastRelation(inputs[..i], inputs[i].message.id).Some?
    requires !Dropped(inputs[..i], inputs[i].message.id, inputs[i].look)
    ensures var info := InfoOf(LastRelation(inputs[..i], inputs[i].message.id).value);
            exists v :: times[i].skip <= v <= times[i].table
                        && (info.table in versions[v].byTable ==>
                              R.SameShape(versions[v].byTable[info.table], info.shape))
  {
    var id, look := inputs[i].message.id, inputs[i].look;
    var info := InfoOf(LastRelation(inputs[..i], id).value);
    hide InfoOf;
    CheckedIs(inputs[..i], id);
    var j := CheckedAt(inputs[..i], id);
    var last := LastLook(inputs[..i], id);
    var moved := Moved(inputs[..i], id, look);
    var v := if moved then times[i].table else times[j].table;
    if !moved {
      assert AnswersAt(versions, inputs[j].look, times[j]) && AnswersAt(versions, look, times[i]);
      assert last == inputs[j].look;
    }
    assert times[i].skip <= v <= times[i].table;
  }
}
