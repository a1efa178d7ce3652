// A run in which the hub is never told that a table's rows were left out
// (internal/cdc/stream.go, internal/watch/hub.go): the report rides on a
// transaction the hub already has.
module LostReport {
  import opened Cdc
  import opened Tuple
  import opened Decoder
  import opened DecoderRuns
  import opened SchemaGate
  import opened Delivery
  import opened AcceptedReports
  import opened Stream
  import HubInvariant
  import HubSpec
  import R = Relation

  const TABLE := "public.t"

  // A table with one key column, and two rows of it.
  const RELATION := R.RelationMessage(7, "public", "t", 'd', [R.RelationColumn(1, "k", 25)])
  const ROW_1 := InsertRow(7, Some([Column(TEXT, "1")]))
  const ROW_2 := InsertRow(7, Some([Column(TEXT, "2")]))

  // The first transaction names the relation and inserts a row, the second another.
  const LOG := [Published(1, 2, 700, [Relation(RELATION), ROW_1]), Published(3, 4, 701, [ROW_2])]

  // The table as it was first validated, and once a column was added and it was
  // validated again. The stream has not come to the change yet.
  const BEFORE := R.Shape(TABLE, 7, 'd', [R.ShapeColumn("k", 25)], ["k"])
  const AFTER := R.Shape(TABLE, 7, 'd', [R.ShapeColumn("k", 25), R.ShapeColumn("v", 25)], ["k"])

  // The registry's answers after the first validation, and after both.
  const AGREED := Look(1, 1, map[7 := BEFORE], map[TABLE := BEFORE])
  const MOVED := Look(2, 2, map[7 := AFTER], map[TABLE := AFTER])

  function LookOf(r: R.Registry): Look {
    Look(r.generation, r.generation, r.byOid, r.byTable)
  }

  lemma LooksAreRecorded()
    ensures LookOf(R.RecordedAll(R.EMPTY, [BEFORE])) == AGREED
    ensures LookOf(R.RecordedAll(R.EMPTY, [BEFORE, AFTER])) == MOVED
  {
    assert [BEFORE][..0] == [] && [BEFORE, AFTER][..1] == [BEFORE];
    var one := R.Recorded(R.EMPTY, BEFORE);
    assert one == R.Registry(map[TABLE := BEFORE], map[7 := BEFORE], 1);
    assert R.RecordedAll(R.EMPTY, [BEFORE]) == one;
    assert !R.SameShape(BEFORE, AFTER) by { assert |BEFORE.columns| != |AFTER.columns|; }
    assert R.Recorded(one, AFTER) == R.Registry(map[TABLE := AFTER], map[7 := AFTER], 2);
  }

  const CHANGE := Change(Insert, TABLE, map["k" := "1"], ["k"], [Text("1")])

  const FIRST := Transaction(2, 1, 700, [CHANGE], [])
  const AGAIN := Transaction(2, 1, 700, [], [TABLE])
  const SECOND := Transaction(4, 3, 701, [], [])

  function Sends(look: Look, acknowledged: bool): Move {
    Message(1, Answers(look, true, acknowledged))
  }

  function In(look: Look, k: nat): Input
    requires k <= 6
  {
    Input(if k <= 3 then Wire(LOG[0], k) else Wire(LOG[1], k - 4), look)
  }

  // The decoder's states

  function Info(look: Look): RelationInfo {
    CheckedInfo(look, InfoOf(RELATION))
  }

  // Between transactions, and inside one.
  function Resting(relations: map<uint32, RelationInfo>, xid: uint32): State {
    State(relations, None, xid, 0, [])
  }

  function Inside(relations: map<uint32, RelationInfo>, xid: uint32, changes: seq<Change>, bytes: nat,
                  events: seq<Incompatible>): State
  {
    State(relations, Some(changes), xid, bytes, events)
  }

  function Named(look: Look): map<uint32, RelationInfo> {
    map[7 := Info(look)]
  }

  lemma StreamShape()
    ensures InfoOf(RELATION).table == TABLE && InfoOf(RELATION).oid == 7 && InfoOf(RELATION).shape == BEFORE
  {
    assert R.QualifiedTable("public", "t") == TABLE;
    assert RELATION.columns[..0] == [];
    assert R.KeyNames(RELATION.columns) == ["k"];
    assert ["k"][..0] == [];
    assert R.SortNames(["k"]) == ["k"];
    assert R.ShapeColumns(RELATION.columns) == BEFORE.columns;
  }

  // The relation agrees with the first baseline.
  lemma Agrees()
    ensures Info(AGREED).incompatible.None? && Info(AGREED).checked == 1
    ensures CheckedEvents(AGREED, InfoOf(RELATION), []) == []
  {
    StreamShape();
    R.NoDifference(BEFORE, BEFORE);
    hide R.DifferenceOf, InfoOf;
  }

  // It disagrees with the second, and is reported.
  lemma Disagrees()
    ensures Info(MOVED).incompatible.Some? && Info(MOVED).checked == 2
    ensures CheckedEvents(MOVED, InfoOf(RELATION), []) == [Info(MOVED).incompatible.value]
    ensures InfoOf(RELATION).table == TABLE && Info(MOVED).incompatible.value.table == TABLE
    ensures !R.SameShape(AFTER, InfoOf(RELATION).shape)
  {
    StreamShape();
    assert !R.SameShape(AFTER, BEFORE) by { assert |BEFORE.columns| != |AFTER.columns|; }
    R.NoDifference(AFTER, BEFORE);
    hide R.DifferenceOf, InfoOf;
    assert [] + [Info(MOVED).incompatible.value] == [Info(MOVED).incompatible.value];
  }

  lemma StreamColumns()
    ensures InfoOf(RELATION).columns == ["k"] && InfoOf(RELATION).keyIndexes == [0]
  {
    assert RELATION.columns[..0] == [];
    assert KeyPositions(RELATION.columns) == [0];
  }

  lemma KeyDecodes(text: string)
    requires |text| == 1
    ensures KeyOfValues(InfoOf(RELATION), [Text(text)]) == Ok(map["k" := text])
  {
    StreamColumns();
    hide InfoOf;
    assert KeyTexts([0], [Text(text)]) == [text];
    assert [0][..0] == [] && [text][..0] == [];
    assert KeyMap(["k"], [0], [text]) == map["k" := text];
  }

  // A row of the relation decodes.
  lemma RowDecodes(row: Message, text: string)
    requires row == InsertRow(7, Some([Column(TEXT, text)])) && |text| == 1
    ensures RowChange(InfoOf(RELATION), row, DEFAULT_LIMITS.maxValueBytes) ==
            Ok(Change(Insert, TABLE, map["k" := text], ["k"], [Text(text)]))
  {
    hide InfoOf, KeyOfValues, RowOf;
    StreamShape();
    StreamColumns();
    TupleDecodes(InfoOf(RELATION), text);
    KeyDecodes(text);
  }

  lemma TupleDecodes(info: RelationInfo, text: string)
    requires |info.columns| == 1 && |text| == 1
    ensures RowOf(info, Some([Column(TEXT, text)]), DEFAULT_LIMITS.maxValueBytes) == Ok([Text(text)])
  {
    var tuple := [Column(TEXT, text)];
    assert tuple[..0] == [];
    assert FirstBad(tuple, DEFAULT_LIMITS.maxValueBytes) == None;
    assert ValuesOf(tuple) == [Text(text)];
  }

  lemma ChangeFits()
    ensures Rowed(CHANGE) && ChangeBytes(CHANGE) <= DEFAULT_LIMITS.maxBytes
  {
    KeyBytesAny(CHANGE.key, "k");
    assert CHANGE.key - {"k"} == map[];
    assert CHANGE.values[..0] == [];
  }

  // What each message does to the decoder.

  lemma InfoWellFormed(look: Look)
    ensures WellFormed(Info(look))
  {
    assert WellFormed(InfoOf(RELATION));
    hide InfoOf;
  }

  lemma OpenStep(look: Look, relations: map<uint32, RelationInfo>, xid: uint32, next: uint32)
    requires forall id :: id in relations ==> WellFormed(relations[id])
    ensures WellFormedState(Resting(relations, xid))
    ensures Step(Resting(relations, xid), Begin(next), look, DEFAULT_LIMITS) ==
            (Inside(relations, next, [], 0, []), Quiet)
  {
  }

  lemma NameStep(look: Look)
    ensures WellFormedState(Inside(map[], 700, [], 0, []))
    ensures Step(Inside(map[], 700, [], 0, []), Relation(RELATION), look, DEFAULT_LIMITS) ==
            (Inside(Named(look), 700, [], 0, CheckedEvents(look, InfoOf(RELATION), [])), Quiet)
  {
    hide InfoOf, CheckedEvents, CheckedInfo;
    var none: map<uint32, RelationInfo> := map[];
    assert none[7 := Info(look)] == Named(look);
  }

  lemma CloseStep(look: Look, p: Published, changes: seq<Change>, bytes: nat, events: seq<Incompatible>)
    ensures WellFormedState(Inside(Named(look), p.xid, changes, bytes, events))
    ensures Step(Inside(Named(look), p.xid, changes, bytes, events), Commit(p.commitLSN, p.endLSN), look,
                 DEFAULT_LIMITS) ==
            (Resting(Named(look), p.xid),
             Emitted(Transaction(p.endLSN, p.commitLSN, p.xid, changes, Tables(events))))
  {
    InfoWellFormed(look);
    hide Info, Tables;
  }

  // Checking leaves what a row decodes to.
  lemma CheckedAlike(look: Look)
    ensures Info(look).columns == InfoOf(RELATION).columns && Info(look).keyIndexes == InfoOf(RELATION).keyIndexes
    ensures Info(look).table == InfoOf(RELATION).table
  {
    hide InfoOf;
  }

  lemma KeepStep()
    ensures WellFormedState(Inside(Named(AGREED), 700, [], 0, [])) && Rowed(CHANGE)
    ensures Step(Inside(Named(AGREED), 700, [], 0, []), ROW_1, AGREED, DEFAULT_LIMITS) ==
            (Inside(Named(AGREED), 700, [CHANGE], ChangeBytes(CHANGE), []), Quiet)
  {
    Agrees();
    InfoWellFormed(AGREED);
    CheckedAlike(AGREED);
    RowDecodes(ROW_1, "1");
    ChangeFits();
    hide Info, InfoOf, ChangeBytes, RowError, KeyOfValues, ValuesOf;
    assert RowChange(Info(AGREED), ROW_1, DEFAULT_LIMITS.maxValueBytes) == Ok(CHANGE) by { SameInsert(AGREED); }
    hide RowChange;
    assert [] + [CHANGE] == [CHANGE];
  }

  lemma SameInsert(look: Look)
    ensures WellFormed(Info(look)) && WellFormed(InfoOf(RELATION))
    ensures RowChange(Info(look), ROW_1, DEFAULT_LIMITS.maxValueBytes) ==
            RowChange(InfoOf(RELATION), ROW_1, DEFAULT_LIMITS.maxValueBytes)
  {
    InfoWellFormed(look);
    CheckedAlike(look);
    hide Info, InfoOf;
  }

  lemma DropStep(row: Message, xid: uint32, events: seq<Incompatible>)
    requires row == ROW_1 || row == ROW_2
    ensures WellFormedState(Inside(Named(MOVED), xid, [], 0, events))
    ensures Step(Inside(Named(MOVED), xid, [], 0, events), row, MOVED, DEFAULT_LIMITS) ==
            (Inside(Named(MOVED), xid, [], 0, events), Quiet)
  {
    Disagrees();
    InfoWellFormed(MOVED);
    hide Info, InfoOf, RowChange;
  }

  // What each message does to the system.

  lemma QuietMessage(s: System, look: Look, next: State)
    requires s.link.Some? && s.link.value.next < |LOG|
    requires s.link.value.offset <= |LOG[s.link.value.next].body| && WellFormedState(s.link.value.decoder)
    requires var link := s.link.value;
             Step(link.decoder, Wire(LOG[link.next], link.offset), look, DEFAULT_LIMITS) == (next, Quiet)
    ensures CanStep(LOG, s, Sends(look, true))
    ensures var link := s.link.value;
            Next(LOG, DEFAULT_LIMITS, s, Sends(look, true)) ==
              s.(link := Some(Link(link.next, link.offset + 1, next, link.safe,
                                   Received(LOG, link, Sends(look, true)))))
  {
    hide Step, WellFormedState;
  }

  lemma CommitMessage(s: System, look: Look, acknowledged: bool, next: State, t: Transaction)
    requires s.link.Some? && s.link.value.next < |LOG|
    requires s.link.value.offset == |LOG[s.link.value.next].body| + 1 && WellFormedState(s.link.value.decoder)
    requires var link := s.link.value;
             Step(link.decoder, Wire(LOG[link.next], link.offset), look, DEFAULT_LIMITS) == (next, Emitted(t))
    ensures CanStep(LOG, s, Sends(look, acknowledged))
    ensures var link, p := s.link.value, LOG[s.link.value.next];
            Next(LOG, DEFAULT_LIMITS, s, Sends(look, acknowledged)) ==
              Sunk(s, t, link.origin).(
                sent := s.sent + {p.endLSN},
                link := if acknowledged
                        then Some(Link(link.next + 1, 0, next, p.endLSN,
                                       Received(LOG, link, Sends(look, acknowledged))))
                        else None)
  {
    hide Step, WellFormedState;
  }

  // The run

  ghost predicate Leads(steps: seq<Move>, s: System) {
    IsRun(LOG, DEFAULT_LIMITS, NEW, steps) && Reached(LOG, DEFAULT_LIMITS, NEW, steps) == s
  }

  lemma Extend(steps: seq<Move>, s: System, l: Move, t: System)
    requires Leads(steps, s) && CanStep(LOG, s, l) && Next(LOG, DEFAULT_LIMITS, s, l) == t
    ensures Leads(steps + [l], t)
  {
    assert (steps + [l])[..|steps|] == steps;
  }

  const NEW := System(0, {}, None, [], None, [])

  // The first k messages of the log, as a connection received them.
  function History(look: Look, k: nat, known: nat): Origin
    requires k <= 7
  {
    Origin(seq(k, i requires 0 <= i < k => In(look, i)), known, if known == 0 then 0 else if k < 4 then k else 4)
  }

  lemma HistoryNext(look: Look, k: nat, known: nat, link: Link, acknowledged: bool)
    requires k <= 6 && known <= 1 && link.origin == History(look, k, known)
    requires (k <= 3 ==> link.next == 0 && link.offset == k) && (k > 3 ==> link.next == 1 && link.offset == k - 4)
    ensures Received(LOG, link, Sends(look, acknowledged)) == History(look, k + 1, known)
  {
    var now := Received(LOG, link, Sends(look, acknowledged));
    assert now.inputs == History(look, k + 1, known).inputs;
  }

  function OnLink(base: System, next: nat, offset: nat, decoder: State, safe: LSN, origin: Origin): System {
    base.(link := Some(Link(next, offset, decoder, safe, origin)))
  }

  // A message the decoder takes in quietly.
  lemma Quietly(base: System, steps: seq<Move>, k: nat, known: nat, look: Look, safe: LSN, was: State, now: State)
    requires k <= 6 && k != 3 && k != 6 && known <= 1 && base.link.None? && WellFormedState(was)
    requires Step(was, In(look, k).message, look, DEFAULT_LIMITS) == (now, Quiet)
    requires Leads(steps, OnLink(base, k / 4, k % 4, was, safe, History(look, k, known)))
    ensures Leads(steps + [Sends(look, true)],
                  OnLink(base, k / 4, k % 4 + 1, now, safe, History(look, k + 1, known)))
  {
    hide Leads, Step, WellFormedState;
    var s := OnLink(base, k / 4, k % 4, was, safe, History(look, k, known));
    QuietMessage(s, look, now);
    HistoryNext(look, k, known, s.link.value, true);
    Extend(steps, s, Sends(look, true),
           OnLink(base, k / 4, k % 4 + 1, now, safe, History(look, k + 1, known)));
  }

  lemma Connects(base: System, steps: seq<Move>, look: Look)
    requires Leads(steps, base) && base.link.None? && base.confirmed == 0
    ensures Leads(steps + [Connect],
                  OnLink(base, 0, 0, Resting(map[], 0), 0, History(look, 0, |base.accepted|)))
  {
    hide Leads;
    assert History(look, 0, |base.accepted|).inputs == [];
    Extend(steps, base, Connect, OnLink(base, 0, 0, Resting(map[], 0), 0, History(look, 0, |base.accepted|)));
  }

  lemma LeadsNowhere()
    ensures Leads([], NEW)
  {
  }

  // The hub accepts the first transaction, but the connection is lost before
  // PostgreSQL hears of it.
  const LOST := System(0, {2}, None, [FIRST], Some(2), [History(AGREED, 3, 0)])

  lemma UpToLost() returns (steps: seq<Move>)
    ensures Leads(steps, LOST)
  {
    hide Leads, Step, InfoOf, Info, CheckedEvents, ChangeBytes, WellFormedState;
    LeadsNowhere();
    Connects(NEW, [], AGREED);
    steps := [] + [Connect];
    OpenStep(AGREED, map[], 0, 700);
    Quietly(NEW, steps, 0, 0, AGREED, 0, Resting(map[], 0), Inside(map[], 700, [], 0, []));
    steps := steps + [Sends(AGREED, true)];
    NameStep(AGREED);
    Agrees();
    var named := Inside(Named(AGREED), 700, [], 0, []);
    Quietly(NEW, steps, 1, 0, AGREED, 0, Inside(map[], 700, [], 0, []), named);
    steps := steps + [Sends(AGREED, true)];
    KeepStep();
    var kept := Inside(Named(AGREED), 700, [CHANGE], ChangeBytes(CHANGE), []);
    Quietly(NEW, steps, 2, 0, AGREED, 0, named, kept);
    steps := steps + [Sends(AGREED, true)];
    CloseStep(AGREED, LOG[0], [CHANGE], ChangeBytes(CHANGE), []);
    var s := OnLink(NEW, 0, 3, kept, 0, History(AGREED, 3, 0));
    CommitMessage(s, AGREED, false, Resting(Named(AGREED), 700), FIRST);
    Extend(steps, s, Sends(AGREED, false), LOST);
    steps := steps + [Sends(AGREED, false)];
  }

  // On the next connection the first transaction is resent. Its row is dropped now,
  // and it carries the report.
  const RESENT := OnLink(LOST, 1, 0, Resting(Named(MOVED), 700), 2, History(MOVED, 4, 1))

  lemma UpToResent() returns (steps: seq<Move>)
    ensures Leads(steps, RESENT)
  {
    hide Leads, Step, InfoOf, Info, CheckedEvents, WellFormedState;
    Disagrees();
    var events := CheckedEvents(MOVED, InfoOf(RELATION), []);
    steps := UpToLost();
    Connects(LOST, steps, MOVED);
    steps := steps + [Connect];
    OpenStep(MOVED, map[], 0, 700);
    Quietly(LOST, steps, 0, 1, MOVED, 0, Resting(map[], 0), Inside(map[], 700, [], 0, []));
    steps := steps + [Sends(MOVED, true)];
    NameStep(MOVED);
    var named := Inside(Named(MOVED), 700, [], 0, events);
    Quietly(LOST, steps, 1, 1, MOVED, 0, Inside(map[], 700, [], 0, []), named);
    steps := steps + [Sends(MOVED, true)];
    DropStep(ROW_1, 700, events);
    Quietly(LOST, steps, 2, 1, MOVED, 0, named, named);
    steps := steps + [Sends(MOVED, true)];
    CloseStep(MOVED, LOG[0], [], 0, events);
    var s := OnLink(LOST, 0, 3, named, 0, History(MOVED, 3, 1));
    CommitMessage(s, MOVED, true, Resting(Named(MOVED), 700), Transaction(2, 1, 700, [], Tables(events)));
    HistoryNext(MOVED, 3, 1, s.link.value, true);
    assert {2} + {2} == {2};
    Extend(steps, s, Sends(MOVED, true), RESENT);
    steps := steps + [Sends(MOVED, true)];
  }

  // The second transaction is accepted without its row and without a report.
  const DONE := System(0, {2, 4},
                       Some(Link(2, 0, Resting(Named(MOVED), 701), 4, History(MOVED, 7, 1))),
                       [FIRST, SECOND], Some(4), [History(AGREED, 3, 0), History(MOVED, 6, 1)])

  lemma UpToDone() returns (steps: seq<Move>)
    ensures Leads(steps, DONE)
  {
    hide Leads, Step, InfoOf, Info, CheckedEvents, WellFormedState;
    var inside := Inside(Named(MOVED), 701, [], 0, []);
    steps := UpToResent();
    InfoWellFormed(MOVED);
    OpenStep(MOVED, Named(MOVED), 700, 701);
    Quietly(LOST, steps, 4, 1, MOVED, 2, Resting(Named(MOVED), 700), inside);
    steps := steps + [Sends(MOVED, true)];
    DropStep(ROW_2, 701, []);
    Quietly(LOST, steps, 5, 1, MOVED, 2, inside, inside);
    steps := steps + [Sends(MOVED, true)];
    CloseStep(MOVED, LOG[1], [], 0, []);
    var s := OnLink(LOST, 1, 2, inside, 2, History(MOVED, 6, 1));
    CommitMessage(s, MOVED, true, Resting(Named(MOVED), 701), SECOND);
    HistoryNext(MOVED, 6, 1, s.link.value, true);
    assert {2} + {4} == {2, 4} && [FIRST] + [SECOND] == [FIRST, SECOND];
    assert LOST.sources + [History(MOVED, 6, 1)] == DONE.sources;
    Extend(steps, s, Sends(MOVED, true), DONE);
    steps := steps + [Sends(MOVED, true)];
  }

  // What the run shows

  // The relation was last named, and so last checked, by message 1.
  lemma LastChecked(inputs: seq<Input>)
    requires inputs == History(MOVED, 6, 1).inputs
    ensures LastRelation(inputs[..5], 7) == Some(RELATION) && LastLook(inputs[..5], 7) == MOVED
    ensures CheckedAt(inputs[..5], 7) == 1
  {
    assert forall k :: 0 <= k < 6 ==> inputs[k] == In(MOVED, k);
    StaysChecked(inputs, 2);
    StaysChecked(inputs, 3);
    StaysChecked(inputs, 4);
  }

  ghost predicate CheckedBy1(inputs: seq<Input>, k: nat)
    requires k <= |inputs|
  {
    && LastRelation(inputs[..k], 7) == Some(RELATION) && LastLook(inputs[..k], 7) == MOVED
    && CheckedAt(inputs[..k], 7) == 1
  }

  lemma StaysChecked(inputs: seq<Input>, k: nat)
    requires |inputs| == 6 && 2 <= k < 5 && inputs[k] == In(MOVED, k) && inputs[1] == In(MOVED, 1)
    requires k == 2 || CheckedBy1(inputs, k)
    ensures CheckedBy1(inputs, k + 1)
  {
    assert inputs[..k + 1][..k] == inputs[..k];
    if k == 2 {
      assert LastRelation(inputs[..2], 7) == Some(RELATION) && LastLook(inputs[..2], 7) == MOVED;
      assert CheckedAt(inputs[..2], 7) == 1;
    }
  }

  // The run in which the report is lost, under a registry two validations made.
  lemma ReportIsLost() returns (steps: seq<Move>)
    ensures PublishedLog(LOG) && Initial(LOG, NEW) && Leads(steps, DONE)
    ensures forall k :: 0 <= k < |DONE.sources[0].inputs| ==>
              DONE.sources[0].inputs[k].look == LookOf(R.RecordedAll(R.EMPTY, [BEFORE]))
    ensures forall k :: 0 <= k < |DONE.sources[1].inputs| ==>
              DONE.sources[1].inputs[k].look == LookOf(R.RecordedAll(R.EMPTY, [BEFORE, AFTER]))
    ensures !Taken(DONE, 1, Decider(DONE.sources[1].inputs, 5), TABLE)
  {
    steps := UpToDone();
    LooksAreRecorded();
    hide Leads, R.RecordedAll;
  }

  // Its second transaction lacks a row that decodes. The check that dropped the row
  // reported the table, while the connection was resending; no transaction the hub
  // accepted does.
  lemma DropIsUntold(inputs: seq<Input>)
    requires inputs == DONE.sources[1].inputs
    ensures IsDropped(inputs, 5) && TableOf(inputs, 5) == TABLE
    ensures Decoded(inputs[..5], inputs[5].message, DEFAULT_LIMITS.maxValueBytes).Ok?
    ensures Decider(inputs, 5) < DONE.sources[1].resent && ReportsAt(inputs, Decider(inputs, 5), TABLE)
    ensures forall t :: t in DONE.accepted ==> t.incompatible == []
  {
    LastChecked(inputs);
    Disagrees();
    RowDecodes(ROW_2, "2");
    hide InfoOf, RowChange, LastLook, LastRelation, CheckedAt, ReportsAt;
    assert inputs[5] == In(MOVED, 5);
    DropIsReported(inputs, 5);
  }

  // What the hub makes of it: the transaction that carries the report is a duplicate,
  // the next one reports nothing, and a watch of the table goes on as if nothing had
  // happened to it.
  lemma WatcherUntold(h: HubSpec.HubState, w: HubSpec.WatcherId)
    requires HubInvariant.HubInv(h) && h.received == Some(FIRST.cursor)
    requires w in h.watchers && w in h.info && h.info[w].projection.table == TABLE && TABLE !in h.stale
    ensures HubSpec.Accept(h, AGAIN) == h
    ensures var r := HubSpec.Accept(h, SECOND);
            w in r.watchers && w in r.info && r.info[w] == h.info[w] && TABLE !in r.stale
  {
    HubInvariant.AcceptWatchers(h, SECOND);
    HubInvariant.AcceptLog(h, SECOND);
    assert HubInvariant.OfferedRight(h, SECOND, HubSpec.Accept(h, SECOND), w);
    hide HubSpec.Accept;
  }
}
