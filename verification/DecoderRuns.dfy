// What the decoder does over whole message sequences (internal/cdc/decoder.go),
// against a reference that keeps no state: it reads everything off the messages.
module DecoderRuns {
  import opened Cdc
  import opened Tuple
  import opened Decoder
  import R = Relation

  datatype Input = Input(message: Message, look: Look)

  // A fresh decoder after a sequence of messages, whatever their outcomes.
  ghost function Fed(limits: Limits, inputs: seq<Input>): (s: State)
    ensures WellFormedState(s)
  {
    if inputs == [] then EMPTY
    else
      var n := |inputs| - 1;
      var before := Fed(limits, inputs[..n]);
      StepWellFormed(before, inputs[n].message, inputs[n].look, limits);
      Step(before, inputs[n].message, inputs[n].look, limits).0
  }

  // What a step does to the relations.
  function RelationsAfter(s: State, m: Message, look: Look): map<uint32, RelationInfo> {
    if m.Relation? then s.relations[m.relation.id := CheckedInfo(look, InfoOf(m.relation))]
    else if IsRow(m) && m.id in s.relations then Refreshed(s, m.id, look).relations
    else s.relations
  }

  lemma StepRelations(s: State, m: Message, look: Look, limits: Limits)
    requires WellFormedState(s)
    ensures Step(s, m, look, limits).0.relations == RelationsAfter(s, m, look)
  {
    hide InfoOf, RowChange, ChangeBytes, Verdict, CheckedEvents, CheckedInfo, WellFormed;
  }

  lemma StepWellFormed(s: State, m: Message, look: Look, limits: Limits)
    requires WellFormedState(s)
    ensures WellFormedState(Step(s, m, look, limits).0)
  {
    StepRelations(s, m, look, limits);
    hide Step, Verdict;
  }

  ghost function OutcomeAt(limits: Limits, inputs: seq<Input>, i: nat): Outcome
    requires i < |inputs|
  {
    Step(Fed(limits, inputs[..i]), inputs[i].message, inputs[i].look, limits).1
  }

  // A failed message leaves the pending transaction as it was.
  lemma FailureKeepsPending(s: State, m: Message, look: Look, limits: Limits)
    requires WellFormedState(s) && Step(s, m, look, limits).1.Failed?
    ensures var s' := Step(s, m, look, limits).0;
            s'.pending == s.pending && s'.bytes == s.bytes && s'.xid == s.xid
  {
    hide RowChange, Verdict;
  }

  // The reference

  // A BEGIN has arrived without its COMMIT.
  predicate Open(inputs: seq<Input>) {
    inputs != [] &&
    match inputs[|inputs| - 1].message
    case Begin(_) => true
    case Commit(_, _) => false
    case _ => Open(inputs[..|inputs| - 1])
  }

  // The latest Relation message of an ID.
  function LastRelation(inputs: seq<Input>, id: uint32): Option<R.RelationMessage> {
    if inputs == [] then None
    else
      var m := inputs[|inputs| - 1].message;
      if m.Relation? && m.relation.id == id then Some(m.relation)
      else LastRelation(inputs[..|inputs| - 1], id)
  }

  // The answers relation id was last checked against: those its Relation message
  // got, or those a later row of it got because the generation had moved.
  function LastLook(inputs: seq<Input>, id: uint32): Look
    decreases |inputs|, 0
  {
    if inputs == [] then NoShapes
    else
      var last, rest := inputs[|inputs| - 1], inputs[..|inputs| - 1];
      if last.message.Relation? && last.message.relation.id == id then last.look
      else if IsRow(last.message) && last.message.id == id then LookNow(rest, id, last.look)
      else LastLook(rest, id)
  }

  // A row of relation id arrives and finds the generation moved.
  predicate Moved(inputs: seq<Input>, id: uint32, look: Look)
    decreases |inputs|, 1
  {
    var last := LastLook(inputs, id);
    look.Look? && look.skipGeneration != if last.Look? then last.generation else 0
  }

  // The answers that count when a row of relation id arrives.
  function LookNow(inputs: seq<Input>, id: uint32, look: Look): Look
    decreases |inputs|, 2
  {
    if Moved(inputs, id, look) then look else LastLook(inputs, id)
  }

  // Relation id disagrees with its baseline when a row of it arrives.
  predicate Dropped(inputs: seq<Input>, id: uint32, look: Look) {
    && LastRelation(inputs, id).Some?
    && var against := LookNow(inputs, id, look);
       && against.Look?
       && var info := InfoOf(LastRelation(inputs, id).value);
          && info.table in against.byTable && !R.SameShape(against.byTable[info.table], info.shape)
  }

  // The relation a message makes the decoder check against the registry's answers.
  function Examined(inputs: seq<Input>, m: Message, look: Look): Option<R.RelationMessage> {
    if look.NoShapes? then None
    else if m.Relation? then Some(m.relation)
    else if IsRow(m) && Moved(inputs, m.id, look) then LastRelation(inputs, m.id)
    else None
  }

  // The incompatibilities found since the last COMMIT, one to a table.
  function Reports(inputs: seq<Input>): seq<Incompatible> {
    if inputs == [] then []
    else
      var last, rest := inputs[|inputs| - 1], inputs[..|inputs| - 1];
      if last.message.Commit? && Open(rest) then []
      else
        match Examined(rest, last.message, last.look)
        case None => Reports(rest)
        case Some(relation) => CheckedEvents(last.look, InfoOf(relation), Reports(rest))
  }

  // The change a row message carries, decoded by its relation's latest message.
  function Decoded(inputs: seq<Input>, m: Message, maxValueBytes: nat): Result<Change>
    requires IsRow(m)
  {
    match LastRelation(inputs, m.id)
    case None => Err(UnknownRelation)
    case Some(relation) => RowChange(InfoOf(relation), m, maxValueBytes)
  }

  ghost predicate Fits(kept: seq<Change>, change: Change, limits: Limits) {
    && (forall c :: c in kept ==> Rowed(c)) && Rowed(change)
    && |kept| < limits.maxChanges && TotalBytes(kept) + ChangeBytes(change) <= limits.maxBytes
  }

  ghost function TotalBytes(changes: seq<Change>): nat
    requires forall c :: c in changes ==> Rowed(c)
  {
    if changes == [] then 0
    else TotalBytes(changes[..|changes| - 1]) + ChangeBytes(changes[|changes| - 1])
  }

  // The row changes since the last BEGIN that decode, fit and are not dropped.
  ghost function Kept(limits: Limits, inputs: seq<Input>): seq<Change> {
    if inputs == [] then []
    else
      var last, rest := inputs[|inputs| - 1], inputs[..|inputs| - 1];
      match last.message
      case Begin(_) => if Open(rest) then Kept(limits, rest) else []
      case Commit(_, _) => []
      case Relation(_) => Kept(limits, rest)
      case Metadata => Kept(limits, rest)
      case Unsupported => Kept(limits, rest)
      case _ =>
        var change := Decoded(rest, last.message, limits.maxValueBytes);
        if change.Ok? && Open(rest) && !Dropped(rest, last.message.id, last.look)
           && Fits(Kept(limits, rest), change.value, limits)
        then Kept(limits, rest) + [change.value] else Kept(limits, rest)
  }

  function OpenXid(inputs: seq<Input>): uint32 {
    if inputs == [] then 0
    else
      var m := inputs[|inputs| - 1].message;
      if m.Begin? && !Open(inputs[..|inputs| - 1]) then m.xid else OpenXid(inputs[..|inputs| - 1])
  }

  // The relations a decoder holds are those of the latest Relation messages, each
  // judged by the answers it was last checked against.
  ghost predicate RelationsAre(s: State, inputs: seq<Input>) {
    forall id: uint32 :: RelationIs(s.relations, inputs, id)
  }

  ghost predicate RelationIs(relations: map<uint32, RelationInfo>, inputs: seq<Input>, id: uint32) {
    match LastRelation(inputs, id)
    case None => id !in relations
    case Some(message) => id in relations && relations[id] == CheckedInfo(LastLook(inputs, id), InfoOf(message))
  }

  ghost predicate PendingIs(limits: Limits, s: State, inputs: seq<Input>) {
    && (s.pending.Some? <==> Open(inputs))
    && (s.pending.Some? ==> s.pending.value == Kept(limits, inputs) && s.xid == OpenXid(inputs))
    && (forall c :: c in Kept(limits, inputs) ==> Rowed(c))
    && (s.pending.Some? ==>
          && s.bytes == TotalBytes(Kept(limits, inputs)) <= limits.maxBytes
          && |Kept(limits, inputs)| <= limits.maxChanges)
  }

  // Once skip has looked, the relation is the reference's, judged by LookNow.
  lemma RefreshedIs(s: State, inputs: seq<Input>, id: uint32, look: Look)
    requires RelationIs(s.relations, inputs, id) && id in s.relations
    ensures LastRelation(inputs, id).Some?
    ensures var info := Refreshed(s, id, look).relations[id];
            && info == CheckedInfo(LookNow(inputs, id, look), InfoOf(LastRelation(inputs, id).value))
            && (info.incompatible.Some? <==> Dropped(inputs, id, look))
  {
    hide InfoOf;
    var info := InfoOf(LastRelation(inputs, id).value);
    var now := LookNow(inputs, id, look);
    assert info.incompatible.None? && info.checked == 0 by { FreshInfo(LastRelation(inputs, id).value); }
    if now.Look? && info.table in now.byTable { R.NoDifference(now.byTable[info.table], info.shape); }
  }

  lemma FreshInfo(message: R.RelationMessage)
    ensures InfoOf(message).incompatible.None? && InfoOf(message).checked == 0 && InfoOf(message).oid == message.id
  {
  }

  lemma SameKeyData(a: RelationInfo, b: RelationInfo, columns: seq<Column>)
    requires a.columns == b.columns && a.keyIndexes == b.keyIndexes && KeyTuple(a, columns)
    ensures KeyTuple(b, columns)
    ensures KeyData(a, columns, |a.keyIndexes|) == KeyData(b, columns, |a.keyIndexes|)
    ensures KeyOfTuple(a, columns) == KeyOfTuple(b, columns)
  {
    hide KeyMap;
    assert KeyData(a, columns, |a.keyIndexes|) == KeyData(b, columns, |a.keyIndexes|);
  }

  // Decoding does not depend on how the relation was judged.
  lemma JudgedAlike(look: Look, info: RelationInfo, m: Message, maxValueBytes: nat)
    requires WellFormed(info) && IsRow(m)
    ensures WellFormed(CheckedInfo(look, info))
    ensures RowChange(CheckedInfo(look, info), m, maxValueBytes) == RowChange(info, m, maxValueBytes)
  {
    hide Verdict, FirstBad, FirstBadKey, KeyMap, KeyTexts;
    var judged := CheckedInfo(look, info);
    if (m.UpdateRow? || m.DeleteRow?) && m.oldTuple.Some? && KeyTupleError(info, m.oldTuple, maxValueBytes).None? {
      SameKeyData(info, judged, m.oldTuple.value);
    }
    hide KeyOfTuple, KeyData, KeyOfValues;
  }

  lemma {:induction false} RelationsFollow(limits: Limits, inputs: seq<Input>)
    ensures RelationsAre(Fed(limits, inputs), inputs)
  {
    if inputs != [] {
      var n := |inputs| - 1;
      RelationsFollow(limits, inputs[..n]);
      RelationsStep(limits, Fed(limits, inputs[..n]), inputs);
    }
  }

  lemma RelationsStep(limits: Limits, s: State, inputs: seq<Input>)
    requires inputs != [] && WellFormedState(s) && RelationsAre(s, inputs[..|inputs| - 1])
    ensures RelationsAre(Step(s, inputs[|inputs| - 1].message, inputs[|inputs| - 1].look, limits).0, inputs)
  {
    var n := |inputs| - 1;
    var m, look := inputs[n].message, inputs[n].look;
    StepRelations(s, m, look, limits);
    hide Step, RelationsAfter, RelationIs;
    forall id: uint32 ensures RelationIs(RelationsAfter(s, m, look), inputs, id) {
      RelationFollows(s, inputs, id);
    }
  }

  lemma RelationFollows(s: State, inputs: seq<Input>, id: uint32)
    requires inputs != [] && RelationIs(s.relations, inputs[..|inputs| - 1], id)
    ensures RelationIs(RelationsAfter(s, inputs[|inputs| - 1].message, inputs[|inputs| - 1].look), inputs, id)
  {
    var n := |inputs| - 1;
    var m, look := inputs[n].message, inputs[n].look;
    LastStep(inputs, id);
    hide InfoOf, Verdict, CheckedEvents, Dropped, LastRelation, LastLook, LookNow, CheckedInfo;
    if m.Relation? && m.relation.id == id {
    } else if IsRow(m) && m.id == id && id in s.relations {
      RefreshedIs(s, inputs[..n], id, look);
    } else {
      assert (id in s.relations) <==> (id in RelationsAfter(s, m, look));
      assert id in s.relations ==> RelationsAfter(s, m, look)[id] == s.relations[id];
    }
  }

  lemma LastStep(inputs: seq<Input>, id: uint32)
    requires inputs != []
    ensures var m, look, rest := inputs[|inputs| - 1].message, inputs[|inputs| - 1].look, inputs[..|inputs| - 1];
            var news := m.Relation? && m.relation.id == id;
            && LastRelation(inputs, id) == (if news then Some(m.relation) else LastRelation(rest, id))
            && LastLook(inputs, id) == (if news then look
                                        else if IsRow(m) && m.id == id then LookNow(rest, id, look)
                                        else LastLook(rest, id))
  {
    hide LookNow;
  }

  // What a row message does to the pending changes, given the change it carries
  // and whether that is dropped.
  ghost predicate RowEffect(limits: Limits, s: State, s': State, outcome: Outcome, change: Result<Change>,
                            dropped: bool)
  {
    && s'.xid == s.xid
    && (if change.Ok? && s.pending.Some? && !dropped && Rowed(change.value)
           && |s.pending.value| < limits.maxChanges && s.bytes + ChangeBytes(change.value) <= limits.maxBytes
        then && s'.pending == Some(s.pending.value + [change.value])
             && s'.bytes == s.bytes + ChangeBytes(change.value) && outcome == Quiet
        else && s'.pending == s.pending && s'.bytes == s.bytes
             && (outcome == Quiet <==> dropped))
  }

  lemma RowEffectOf(limits: Limits, s: State, m: Message, look: Look)
    requires WellFormedState(s) && IsRow(m) && m.id in s.relations
    requires WellFormed(Refreshed(s, m.id, look).relations[m.id])
    ensures var (s', outcome) := Step(s, m, look, limits);
            var info := Refreshed(s, m.id, look).relations[m.id];
            RowEffect(limits, s, s', outcome, RowChange(info, m, limits.maxValueBytes), info.incompatible.Some?)
  {
    var seen := Refreshed(s, m.id, look);
    var info := seen.relations[m.id];
    assert seen.pending == s.pending && seen.bytes == s.bytes && seen.xid == s.xid;
    if RowChange(info, m, limits.maxValueBytes).Ok? { RowChangeRowed(info, m, limits.maxValueBytes); }
    hide RowChange, ChangeBytes, WellFormed, WellFormedState, Refreshed;
  }

  lemma RowIs(limits: Limits, s: State, inputs: seq<Input>, m: Message, look: Look)
    requires WellFormedState(s) && RelationsAre(s, inputs) && IsRow(m)
    ensures var (s', outcome) := Step(s, m, look, limits);
            RowEffect(limits, s, s', outcome, Decoded(inputs, m, limits.maxValueBytes), Dropped(inputs, m.id, look))
  {
    hide Decoded, Dropped, RowEffect, Refreshed, WellFormed, RelationsAre, RowChange;
    DecodedIs(s, inputs, m, look, limits.maxValueBytes);
    if m.id in s.relations {
      RowEffectOf(limits, s, m, look);
    } else {
      UnknownEffect(limits, s, m, look, Decoded(inputs, m, limits.maxValueBytes));
    }
  }

  lemma UnknownEffect(limits: Limits, s: State, m: Message, look: Look, change: Result<Change>)
    requires WellFormedState(s) && IsRow(m) && m.id !in s.relations && change.Err?
    ensures RowEffect(limits, s, Step(s, m, look, limits).0, Step(s, m, look, limits).1, change, false)
  {
    hide WellFormed;
  }

  lemma DecodedIs(s: State, inputs: seq<Input>, m: Message, look: Look, maxValueBytes: nat)
    requires WellFormedState(s) && RelationsAre(s, inputs) && IsRow(m)
    ensures m.id !in s.relations ==> Decoded(inputs, m, maxValueBytes).Err? && !Dropped(inputs, m.id, look)
    ensures m.id in s.relations ==>
              var info := Refreshed(s, m.id, look).relations[m.id];
              && WellFormed(info) && RowChange(info, m, maxValueBytes) == Decoded(inputs, m, maxValueBytes)
              && (info.incompatible.Some? <==> Dropped(inputs, m.id, look))
    ensures Decoded(inputs, m, maxValueBytes).Ok? ==> Rowed(Decoded(inputs, m, maxValueBytes).value)
  {
    assert RelationIs(s.relations, inputs, m.id);
    hide RelationsAre, RowChange, LookNow, LastRelation, LastLook, CheckedInfo, Refreshed;
    if m.id in s.relations {
      RefreshedIs(s, inputs, m.id, look);
      hide Dropped;
      var info := InfoOf(LastRelation(inputs, m.id).value);
      JudgedAlike(LookNow(inputs, m.id, look), info, m, maxValueBytes);
      if RowChange(info, m, maxValueBytes).Ok? { RowChangeRowed(info, m, maxValueBytes); }
    }
  }

  lemma {:induction false} PendingFollows(limits: Limits, inputs: seq<Input>)
    ensures PendingIs(limits, Fed(limits, inputs), inputs)
  {
    if inputs != [] {
      var n := |inputs| - 1;
      PendingFollows(limits, inputs[..n]);
      RelationsFollow(limits, inputs[..n]);
      var s := Fed(limits, inputs[..n]);
      if IsRow(inputs[n].message) {
        RowPending(limits, s, inputs);
      } else {
        OtherPending(limits, s, inputs);
      }
    }
  }

  lemma RowPending(limits: Limits, s: State, inputs: seq<Input>)
    requires inputs != [] && IsRow(inputs[|inputs| - 1].message) && WellFormedState(s)
    requires RelationsAre(s, inputs[..|inputs| - 1]) && PendingIs(limits, s, inputs[..|inputs| - 1])
    ensures PendingIs(limits, Step(s, inputs[|inputs| - 1].message, inputs[|inputs| - 1].look, limits).0, inputs)
  {
    var n := |inputs| - 1;
    var rest, m, look := inputs[..n], inputs[n].message, inputs[n].look;
    RowIs(limits, s, rest, m, look);
    KeptRow(limits, inputs);
    var kept, change := Kept(limits, rest), Decoded(rest, m, limits.maxValueBytes);
    hide Step, Decoded, Dropped, RelationsAre, ChangeBytes, Kept, TotalBytes;
    if change.Ok? && Rowed(change.value) && s.pending.Some? {
      TotalOneMore(kept, change.value);
    }
  }

  lemma TotalOneMore(kept: seq<Change>, change: Change)
    requires Rowed(change) && forall c :: c in kept ==> Rowed(c)
    ensures forall c :: c in kept + [change] ==> Rowed(c)
    ensures TotalBytes(kept + [change]) == TotalBytes(kept) + ChangeBytes(change)
  {
    assert (kept + [change])[..|kept|] == kept;
  }

  lemma KeptRow(limits: Limits, inputs: seq<Input>)
    requires inputs != [] && IsRow(inputs[|inputs| - 1].message)
    ensures var n := |inputs| - 1;
            var rest, m, look := inputs[..n], inputs[n].message, inputs[n].look;
            var kept, change := Kept(limits, rest), Decoded(rest, m, limits.maxValueBytes);
            && Kept(limits, inputs) == (if change.Ok? && Open(rest) && !Dropped(rest, m.id, look)
                                           && Fits(kept, change.value, limits)
                                        then kept + [change.value] else kept)
            && Open(inputs) == Open(rest) && OpenXid(inputs) == OpenXid(rest)
  {
    hide Fits, Decoded, Dropped;
  }

  lemma OtherPending(limits: Limits, s: State, inputs: seq<Input>)
    requires inputs != [] && !IsRow(inputs[|inputs| - 1].message) && WellFormedState(s)
    requires PendingIs(limits, s, inputs[..|inputs| - 1])
    ensures PendingIs(limits, Step(s, inputs[|inputs| - 1].message, inputs[|inputs| - 1].look, limits).0, inputs)
  {
    hide CheckedInfo, CheckedEvents, Decoded, Dropped, ChangeBytes, InfoOf;
  }

  // What a step does to the events.
  function EventsAfter(s: State, m: Message, look: Look): seq<Incompatible> {
    if m.Relation? then CheckedEvents(look, InfoOf(m.relation), s.events)
    else if IsRow(m) && m.id in s.relations then Refreshed(s, m.id, look).events
    else if m.Commit? && s.pending.Some? then []
    else s.events
  }

  lemma StepEvents(s: State, m: Message, look: Look, limits: Limits)
    requires WellFormedState(s)
    ensures var (s', outcome) := Step(s, m, look, limits);
            && s'.events == EventsAfter(s, m, look)
            && (outcome.Emitted? <==> m.Commit? && s.pending.Some?)
            && (outcome.Emitted? ==> outcome.transaction.incompatible == Tables(s.events))
  {
    hide InfoOf, RowChange, ChangeBytes, CheckedEvents, CheckedInfo, WellFormed;
  }

  // A check reads only what the Relation message said.
  lemma EventsAlike(look: Look, was: Look, info: RelationInfo, events: seq<Incompatible>)
    ensures CheckedEvents(look, CheckedInfo(was, info), events) == CheckedEvents(look, info, events)
  {
  }

  // The decoder's events are those the reference reads off the messages.
  lemma {:induction false} EventsFollow(limits: Limits, inputs: seq<Input>)
    ensures Fed(limits, inputs).events == Reports(inputs)
  {
    if inputs != [] {
      var n := |inputs| - 1;
      var s, m, look := Fed(limits, inputs[..n]), inputs[n].message, inputs[n].look;
      EventsFollow(limits, inputs[..n]);
      PendingFollows(limits, inputs[..n]);
      RelationsFollow(limits, inputs[..n]);
      StepEvents(s, m, look, limits);
      hide Step;
      if IsRow(m) { RowEvents(s, inputs[..n], m, look); }
      hide RelationsAre, Kept, TotalBytes, EventsAfter, CheckedEvents, InfoOf, Moved;
      assert EventsAfter(s, m, look) == Reports(inputs) by { EventsCase(s, inputs); }
    }
  }

  lemma RowEvents(s: State, inputs: seq<Input>, m: Message, look: Look)
    requires RelationsAre(s, inputs) && IsRow(m)
    ensures EventsAfter(s, m, look) ==
            match Examined(inputs, m, look)
            case None => s.events
            case Some(relation) => CheckedEvents(look, InfoOf(relation), s.events)
  {
    assert RelationIs(s.relations, inputs, m.id);
    hide RelationsAre, InfoOf, Verdict, CheckedEvents, LastLook, LastRelation;
    if m.id in s.relations {
      var message, was := LastRelation(inputs, m.id).value, LastLook(inputs, m.id);
      FreshInfo(message);
      EventsAlike(look, was, InfoOf(message), s.events);
      assert Rechecks(look, s.relations[m.id]) <==> Moved(inputs, m.id, look);
    }
  }

  lemma EventsCase(s: State, inputs: seq<Input>)
    requires inputs != [] && s.events == Reports(inputs[..|inputs| - 1])
    requires s.pending.Some? <==> Open(inputs[..|inputs| - 1])
    requires var last := inputs[|inputs| - 1];
             IsRow(last.message) ==>
               EventsAfter(s, last.message, last.look) ==
               match Examined(inputs[..|inputs| - 1], last.message, last.look)
               case None => s.events
               case Some(relation) => CheckedEvents(last.look, InfoOf(relation), s.events)
    ensures EventsAfter(s, inputs[|inputs| - 1].message, inputs[|inputs| - 1].look) == Reports(inputs)
  {
    hide InfoOf, Refreshed, RenameReported, Verdict;
  }

  lemma StepCommit(s: State, m: Message, look: Look, limits: Limits)
    requires WellFormedState(s) && m.Commit?
    ensures Step(s, m, look, limits).1 ==
            if s.pending.None? then Failed(NoTransaction)
            else Emitted(Transaction(m.endLSN, m.commitLSN, s.xid, s.pending.value, Tables(s.events)))
  {
    hide Tables;
  }

  // The decoder refines the reference: at a COMMIT it emits one transaction,
  // holding exactly the changes the reference kept since its BEGIN and reporting
  // exactly the tables it found incompatible, or fails for want of a BEGIN. No other
  // message emits, and the pending footprint is the sum of the estimates, within
  // both limits.
  lemma DecoderRefines(limits: Limits, inputs: seq<Input>, i: nat)
    requires i < |inputs|
    ensures var before, m := inputs[..i], inputs[i].message;
            var s := Fed(limits, before);
            && (m.Commit? && Open(before) ==>
                  OutcomeAt(limits, inputs, i) ==
                    Emitted(Transaction(m.endLSN, m.commitLSN, OpenXid(before), Kept(limits, before),
                                        Tables(Reports(before)))))
            && (m.Commit? && !Open(before) ==> OutcomeAt(limits, inputs, i) == Failed(NoTransaction))
            && (!m.Commit? ==> !OutcomeAt(limits, inputs, i).Emitted?)
            && (s.pending.Some? <==> Open(before))
            && (Open(before) ==>
                  && (forall c :: c in Kept(limits, before) ==> Rowed(c))
                  && s.bytes == TotalBytes(Kept(limits, before)) <= limits.maxBytes
                  && |Kept(limits, before)| <= limits.maxChanges)
  {
    hide Kept, Open, OpenXid, TotalBytes, Reports, Fed, Step;
    var s := Fed(limits, inputs[..i]);
    PendingFollows(limits, inputs[..i]);
    EventsFollow(limits, inputs[..i]);
    StepEvents(s, inputs[i].message, inputs[i].look, limits);
    if inputs[i].message.Commit? { StepCommit(s, inputs[i].message, inputs[i].look, limits); }
  }

  // A row message goes through quietly exactly when its change was kept or dropped.
  lemma RowOutcome(limits: Limits, inputs: seq<Input>, i: nat)
    requires i < |inputs| && IsRow(inputs[i].message)
    ensures var before, m, look := inputs[..i], inputs[i].message, inputs[i].look;
            var change := Decoded(before, m, limits.maxValueBytes);
            OutcomeAt(limits, inputs, i) == Quiet <==>
              || Dropped(before, m.id, look)
              || (change.Ok? && Open(before) && Kept(limits, inputs[..i + 1]) == Kept(limits, before) + [change.value])
  {
    var before, m, look := inputs[..i], inputs[i].message, inputs[i].look;
    var s := Fed(limits, before);
    PendingFollows(limits, before);
    RelationsFollow(limits, before);
    RowIs(limits, s, before, m, look);
    assert inputs[..i + 1][..i] == before;
    KeptRow(limits, inputs[..i + 1]);
    var change := Decoded(before, m, limits.maxValueBytes);
    assert change.Ok? ==> Rowed(change.value) by { DecodedIs(s, before, m, look, limits.maxValueBytes); }
    hide Step, Decoded, Dropped, RelationsAre, ChangeBytes, TotalBytes, Fed, Kept, Open;
    var kept := Kept(limits, before);
    if change.Ok? { assert |kept + [change.value]| != |kept|; }
  }
}
