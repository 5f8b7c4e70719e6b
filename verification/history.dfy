/** What the object registry and the revisions reported in the log keep over any run of the journal. */
module History {
  import opened Text
  import opened EventRing
  import opened Ledger

  // ---------------------------------------------------------------- objects and revisions

  /** Ids are 1, 2, 3, ... in registration order, a parent comes before its children, names are unique. */
  predicate ObjectsOk(objects: seq<KObject>) {
    && (forall i {:trigger objects[i]} :: 0 <= i < |objects| ==> |objects[i].name| <= LABEL)
    && (forall i {:trigger objects[i]} :: 0 <= i < |objects| ==>
          objects[i].id == i + 1 && objects[i].parentId < objects[i].id && objects[i].revision >= 1)
    && (forall i, j :: 0 <= i < j < |objects| ==> objects[i].name != objects[j].name)
  }

  /** The registry only grows, and what is in it keeps its id, name and parent and never goes back. */
  predicate Advances(objects: seq<KObject>, later: seq<KObject>) {
    && |objects| <= |later|
    && forall i {:trigger later[i]} {:trigger objects[i]} :: 0 <= i < |objects| ==>
         && later[i].id == objects[i].id && later[i].name == objects[i].name && later[i].parentId == objects[i].parentId
         && objects[i].revision <= later[i].revision
  }

  /** Whatever the query, numeric or not, the revision it reports never decreases. */
  lemma RevisionsAdvance(objects: seq<KObject>, later: seq<KObject>, query: string)
    requires Advances(objects, later)
    ensures Revision(objects, query) <= Revision(later, query)
  {
    SameMatch(objects, later, query, 0);
  }

  lemma {:induction false} SameMatch(objects: seq<KObject>, later: seq<KObject>, query: string, from: nat)
    requires Advances(objects, later) && from <= |objects|
    ensures FindObject(objects, query, from) < |objects| ==>
              FindObject(later, query, from) == FindObject(objects, query, from)
    decreases |objects| - from
  {
    if from < |objects| && !Matches(objects[from], query) {
      SameMatch(objects, later, query, from + 1);
    }
  }

  lemma StepAdvances(l: Ledger, op: Op)
    ensures Advances(l.objects, Apply(l, op).objects)
  {
    hide Found, TransactionName, Revision, ObjectId, Cut, Touch;
  }

  lemma RegisterObjects(l: Ledger, kind: string, name: string, parentId: nat, state: string, created: nat)
    requires ObjectsOk(l.objects) && parentId <= |l.objects| && |name| <= LABEL
    ensures ObjectsOk(Register(l, kind, name, parentId, state, created).0.objects)
  {
    var objects := Register(l, kind, name, parentId, state, created).0.objects;
    if objects != l.objects {
      assert FindObject(l.objects, name, 0) == |l.objects|;
      assert forall j :: 0 <= j < |l.objects| ==> !Matches(l.objects[j], name);
    }
  }

  lemma {:induction false} IdsStayInRange(objects: seq<KObject>, query: string)
    requires ObjectsOk(objects)
    ensures ObjectId(objects, query) <= |objects|
  {
    assert FindObject(objects, query, 0) <= |objects|;
  }

  /** An object answers to its name and to its number. */
  predicate Answers(o: KObject, text: string) {
    o.name == text || (text != "" && AllDigits(text) && Value(text) % 0x1_0000_0000 == o.id)
  }

  /** The number of the first object that answers to a text, 0 when none does. */
  predicate Identifies(objects: seq<KObject>, text: string, id: nat) {
    if id == 0 then forall i {:trigger objects[i]} :: 0 <= i < |objects| ==> !Answers(objects[i], text)
    else
      && id <= |objects| && Answers(objects[id - 1], text)
      && forall i {:trigger objects[i]} :: 0 <= i < id - 1 ==> !Answers(objects[i], text)
  }

  lemma MatchesAnswers(o: KObject, text: string)
    requires o.id >= 1
    ensures Matches(o, text) <==> Answers(o, text)
  {
    hide Value, AllDigits;
  }

  lemma FindsFirst(objects: seq<KObject>, text: string)
    requires ObjectsOk(objects)
    ensures Identifies(objects, text, ObjectId(objects, text))
    ensures var id := ObjectId(objects, text);
            Revision(objects, text) == if id == 0 then 0 else objects[id - 1].revision
  {
    hide Answers, Matches;
    forall i | 0 <= i < |objects|
      ensures Matches(objects[i], text) <==> Answers(objects[i], text)
    {
      MatchesAnswers(objects[i], text);
    }
    var i := FindObject(objects, text, 0);
    assert i < |objects| ==> objects[i].id == i + 1;
  }

  /** An event says which objects its actor and its target are, and the revision that its target is at; a
      closing one's transaction ends at the revision of its own target. */
  lemma RecordIdentifies(l: Ledger, actor: string, target: string, operation: string, result: EventResult, parent: nat,
                         decision: string, kind: string)
    requires ObjectsOk(l.objects)
    ensures var l' := Record(l, actor, target, operation, result, parent, decision, kind);
            |l'.log| == |l.log| + 1
            && var e := l'.log[|l.log|];
               && Identifies(l.objects, actor, e.actorId) && Identifies(l.objects, target, e.targetId)
               && e.targetRevision == if e.targetId == 0 then 0 else l.objects[e.targetId - 1].revision
  {
    FindsFirst(l.objects, actor);
    FindsFirst(l.objects, target);
    hide ObjectsOk, Identifies, FindObject, Cut, Touch;
  }

  lemma EndRevision(l: Ledger, id: nat, ok: bool, reason: string)
    requires Known(l.txs, id)
    ensures var l' := if ok then Commit(l, id).0 else Abort(l, id, reason).0;
            var k := FindTx(l.txs, id);
            |l'.txs| == |l.txs| && l'.txs[k].committedRevision == Revision(l.objects, l.txs[k].target)
  {
    hide Close, ClosedBy, Revision, Decimal, FindTx, Commit, Abort;
    CommitRecords(l, id);
    AbortRecords(l, id, reason);
  }

  /** A transaction ends at the revision that its target is at. */
  lemma EndsAtRevision(l: Ledger, id: nat, ok: bool, reason: string) returns (target: nat)
    requires ObjectsOk(l.objects) && Known(l.txs, id)
    ensures var l' := if ok then Commit(l, id).0 else Abort(l, id, reason).0;
            var k := FindTx(l.txs, id);
            && Identifies(l.objects, l.txs[k].target, target)
            && |l'.txs| == |l.txs|
            && l'.txs[k].committedRevision == if target == 0 then 0 else l.objects[target - 1].revision
  {
    hide ObjectsOk, Identifies, Close, FindTx, Commit, Abort, Revision, ObjectId;
    target := ObjectId(l.objects, l.txs[FindTx(l.txs, id)].target);
    FindsFirst(l.objects, l.txs[FindTx(l.txs, id)].target);
    EndRevision(l, id, ok, reason);
  }

  /** And it started at the revision that its target was at when it began. */
  lemma StartsAtRevision(l: Ledger, actor: string, target: string, parent: nat) returns (id: nat)
    requires JournalOk(l) && ObjectsOk(l.objects) && |l.txs| < 32
    ensures var l' := Begin(l, actor, target, parent).0;
            && Identifies(l'.objects, target, id)
            && |l'.txs| == |l.txs| + 1
            && l'.txs[|l.txs|].startedRevision == (if id == 0 then 0 else l'.objects[id - 1].revision)
            && l'.txs[|l.txs|].committedRevision == l'.txs[|l.txs|].startedRevision
  {
    var sequence := NextSequence(l);
    var l1 := Register(l, "transaction", TransactionName(sequence), ObjectId(l.objects, "events"), "open", parent).0;
    id := ObjectId(l1.objects, target);
    assert ObjectsOk(l1.objects) by {
      IdsStayInRange(l.objects, "events");
      RegisterObjects(l, "transaction", TransactionName(sequence), ObjectId(l.objects, "events"), "open", parent);
    }
    FindsFirst(l1.objects, target);
    hide JournalOk, ObjectsOk, Identifies, FindObject, Revision, ObjectId, TransactionName, Register;
    assert l1.txs == l.txs by {
      RegisterKeepsOk(l, "transaction", TransactionName(sequence), ObjectId(l.objects, "events"), "open", parent);
    }
  }

  /** Any label but one of 47 digits, which longer numbers share and object_find may match by id. */
  predicate Telling(text: string) { |text| < LABEL || !AllDigits(text) }

  /** No event reports a revision ahead of the object that its label names. */
  predicate LabelsOk(log: seq<Event>, objects: seq<KObject>) {
    forall i {:trigger log[i]} :: 0 <= i < |log| && Telling(log[i].target) ==>
      log[i].targetRevision <= Revision(objects, log[i].target)
  }

  /** No transaction's target has gone back since it began. */
  predicate ClosingsOk(txs: seq<Transaction>, objects: seq<KObject>) {
    forall k {:trigger txs[k]} :: 0 <= k < |txs| ==>
      txs[k].startedRevision <= txs[k].committedRevision <= Revision(objects, txs[k].target)
  }

  predicate HistoryOk(l: Ledger) {
    ObjectsOk(l.objects) && LabelsOk(l.log, l.objects) && ClosingsOk(l.txs, l.objects)
  }

  /** An object's name is at most 47 characters, so a longer text finds none, unless it is a number. */
  lemma LongNamesFindNothing(objects: seq<KObject>, query: string)
    requires ObjectsOk(objects) && |query| > LABEL && !AllDigits(query)
    ensures Revision(objects, query) == 0
  {
    assert ParseWhole(query, U32) == 0;
    assert forall j :: 0 <= j < |objects| ==> !Matches(objects[j], query);
  }

  lemma HistoryAdvances(l: Ledger, objects: seq<KObject>)
    requires LabelsOk(l.log, l.objects) && ClosingsOk(l.txs, l.objects) && Advances(l.objects, objects)
    ensures LabelsOk(l.log, objects) && ClosingsOk(l.txs, objects)
  {
    forall query: string
      ensures Revision(l.objects, query) <= Revision(objects, query)
    {
      RevisionsAdvance(l.objects, objects, query);
    }
  }

  /** The revision a new event reports is not ahead of what its label names. */
  lemma LabelRevision(objects: seq<KObject>, target: string)
    requires ObjectsOk(objects) && Telling(Cut(target, LABEL))
    ensures Revision(objects, target) <= Revision(objects, Cut(target, LABEL))
    ensures |target| > LABEL ==> Revision(objects, target) == 0
  {
    if |target| > LABEL {
      var text := Cut(target, LABEL);
      var i :| 0 <= i < |text| && !IsDigit(text[i]);
      assert target[i] == text[i];
      LongNamesFindNothing(objects, target);
    }
  }

  lemma RecordHistory(l: Ledger, actor: string, target: string, operation: string, result: EventResult,
                      parent: nat, decision: string, kind: string)
    requires HistoryOk(l)
    ensures var l' := Record(l, actor, target, operation, result, parent, decision, kind);
            HistoryOk(l') && l'.objects == l.objects
  {
    if Telling(Cut(target, LABEL)) {
      LabelRevision(l.objects, target);
    }
    LabelsPush(l.log, l.objects, NewEvent(l, actor, target, operation, result, parent, decision, kind));
    ClosingsTouch(l.txs, l.objects, l.tx, NextSequence(l));
    hide Revision, ObjectId, ObjectsOk, Telling, LabelsOk, ClosingsOk, Touch, Cut;
  }

  lemma LabelsPush(log: seq<Event>, objects: seq<KObject>, e: Event)
    requires LabelsOk(log, objects)
    requires Telling(e.target) ==> e.targetRevision <= Revision(objects, e.target)
    ensures LabelsOk(log + [e], objects)
  {
    hide Revision, Telling;
  }

  lemma ClosingsTouch(txs: seq<Transaction>, objects: seq<KObject>, id: nat, sequence: nat)
    requires ClosingsOk(txs, objects)
    ensures ClosingsOk(Touch(txs, id, sequence), objects)
  {
    hide Revision, FindTx;
  }

  lemma SetStateAdvances(objects: seq<KObject>, i: nat, state: string, event: nat)
    requires i < |objects|
    ensures Advances(objects, SetState(objects, i, state, event))
    ensures ObjectsOk(objects) ==> ObjectsOk(SetState(objects, i, state, event))
  {
  }

  lemma StateHistory(l: Ledger, i: nat, state: string, event: nat)
    requires HistoryOk(l) && i < |l.objects|
    ensures HistoryOk(l.(objects := SetState(l.objects, i, state, event)))
  {
    hide ObjectsOk, LabelsOk, ClosingsOk, SetState;
    SetStateAdvances(l.objects, i, state, event);
    HistoryAdvances(l, SetState(l.objects, i, state, event));
  }

  lemma UpdateHistory(l: Ledger, name: string, state: string)
    requires HistoryOk(l)
    ensures HistoryOk(UpdateState(l, name, state))
  {
    hide HistoryOk, SetState;
    var i := FindObject(l.objects, name, 0);
    if i < |l.objects| {
      var l1 := l.(objects := SetState(l.objects, i, state, NextSequence(l)));
      StateHistory(l, i, state, NextSequence(l));
      RecordHistory(l1, "object", l.objects[i].name, "state_update", Ok, l.current, "allow:object-state", "state");
    }
  }

  lemma DirectHistory(l: Ledger, name: string, state: string, event: nat)
    requires HistoryOk(l)
    ensures HistoryOk(SetStateDirect(l, name, state, event))
  {
    hide HistoryOk, SetState;
    var i := FindObject(l.objects, name, 0);
    if i < |l.objects| {
      StateHistory(l, i, state, event);
    }
  }

  lemma RegisterHistory(l: Ledger, kind: string, name: string, parentId: nat, state: string, created: nat)
    requires HistoryOk(l) && parentId <= |l.objects| && |name| <= LABEL
    ensures HistoryOk(Register(l, kind, name, parentId, state, created).0)
  {
    RegisterObjects(l, kind, name, parentId, state, created);
    StepAdvances(l, RegisterOp(kind, name, parentId, state, created));
    hide ObjectsOk, LabelsOk, ClosingsOk, Advances;
    HistoryAdvances(l, Register(l, kind, name, parentId, state, created).0.objects);
  }

  lemma OpenedHistory(l: Ledger, actor: string, target: string, parent: nat, tx: nat)
    requires HistoryOk(l) && |target| <= LABEL
    ensures HistoryOk(l.(txs := l.txs + [OpenRecord(l, actor, target, parent)], tx := tx))
  {
    hide Found, ObjectsOk, LabelsOk;
  }

  lemma BeginHistory(l: Ledger, actor: string, target: string, parent: nat)
    requires HistoryOk(l) && |target| <= LABEL
    ensures HistoryOk(Begin(l, actor, target, parent).0)
  {
    if |l.txs| < TRANSACTION_CAPACITY {
      var id := NextSequence(l);
      var l1 := Register(l, "transaction", TransactionName(id), ObjectId(l.objects, "events"), "open", parent).0;
      IdsStayInRange(l.objects, "events");
      RegisterHistory(l, "transaction", TransactionName(id), ObjectId(l.objects, "events"), "open", parent);
      OpenedHistory(l1, actor, target, parent, id);
      hide HistoryOk, Register, Record, TransactionName;
      var l2 := l1.(txs := l1.txs + [OpenRecord(l1, actor, target, parent)], tx := id);
      RecordHistory(l2, actor, TransactionName(id), "begin", Ok, parent, "allow:transaction", "transaction");
    }
  }

  lemma SettledHistory(l: Ledger, k: nat, status: Status, tx: nat)
    requires HistoryOk(l) && k < |l.txs|
    ensures HistoryOk(l.(tx := tx,
                         txs := l.txs[k := l.txs[k].(committedRevision := Revision(l.objects, l.txs[k].target),
                                                                     status := status)]))
  {
    hide Found, ObjectsOk, LabelsOk;
  }

  lemma CloseHistory(l: Ledger, id: nat, status: Status, operation: string, result: EventResult, reason: string,
                     state: string)
    requires HistoryOk(l)
    ensures HistoryOk(Close(l, id, status, operation, result, reason, state).0)
  {
    hide HistoryOk, Record, TransactionName, SetStateDirect;
    var k := FindTx(l.txs, id);
    if k < |l.txs| {
      var t := l.txs[k];
      SettledHistory(l, k, status, id);
      var l1 := l.(tx := id,
                   txs := l.txs[k := t.(committedRevision := Revision(l.objects, t.target), status := status)]);
      RecordHistory(l1, t.actor, TransactionName(id), operation, result, t.endEvent, reason, "transaction");
      var l2 := Record(l1, t.actor, TransactionName(id), operation, result, t.endEvent, reason, "transaction");
      DirectHistory(l2, TransactionName(id), state, NextSequence(l));
      OtherTx(SetStateDirect(l2, TransactionName(id), state, NextSequence(l)), l.tx);
    }
  }

  lemma OtherTx(l: Ledger, tx: nat)
    requires HistoryOk(l)
    ensures HistoryOk(l.(tx := tx))
  {
  }

  lemma StepKeepsHistory(l: Ledger, op: Op)
    requires HistoryOk(l) && Disciplined(l, op)
    ensures HistoryOk(Apply(l, op))
  {
    match op {
      case RecordOp(actor, target, operation, result, parent, decision, kind) =>
        RecordHistory(l, actor, target, operation, result, parent, decision, kind);
      case RegisterOp(kind, name, parentId, state, created) => RegisterHistory(l, kind, name, parentId, state, created);
      case UpdateOp(name, state) => UpdateHistory(l, name, state);
      case BeginOp(actor, target, parent) => BeginHistory(l, actor, target, parent);
      case CommitOp(id) => CloseHistory(l, id, Committed, "commit", Ok, "allow:transaction", "committed");
      case AbortOp(id, reason) => CloseHistory(l, id, Aborted, "abort", Denied, reason, "aborted");
      case _ =>
    }
    hide Record, Register, Begin, Close, UpdateState, ObjectsOk, LabelsOk, ClosingsOk;
  }

  lemma {:induction false} RunsKeepHistory(l: Ledger, ops: seq<Op>)
    requires HistoryOk(l) && AllDisciplined(l, ops)
    ensures HistoryOk(ApplyAll(l, ops))
    decreases |ops|
  {
    hide HistoryOk, Disciplined, Apply;
    if ops != [] {
      StepKeepsHistory(l, ops[0]);
      RunsKeepHistory(Apply(l, ops[0]), ops[1..]);
    }
  }

  lemma ReachableHistory(ops: seq<Op>)
    requires AllDisciplined(EMPTY, ops)
    ensures HistoryOk(ApplyAll(EMPTY, ops))
  {
    RunsKeepHistory(EMPTY, ops);
  }

  // ---------------------------------------------------------------- revisions along the log

  /** The revisions reported under one label never go back. */
  predicate Rising(log: seq<Event>, text: string) {
    forall i, j {:trigger log[i], log[j]} :: 0 <= i < j < |log| && log[i].target == text && log[j].target == text ==>
      log[i].targetRevision <= log[j].targetRevision
  }

  /** No event under this label reports more than `revision`. */
  predicate NoneAbove(log: seq<Event>, text: string, revision: nat) {
    forall i {:trigger log[i]} :: 0 <= i < |log| && log[i].target == text ==> log[i].targetRevision <= revision
  }

  lemma RisingPush(log: seq<Event>, e: Event, text: string)
    ensures Rising(log + [e], text) <==>
              Rising(log, text) && (e.target == text ==> NoneAbove(log, text, e.targetRevision))
  {
    var log' := log + [e];
    assert forall i {:trigger log'[i]} :: 0 <= i < |log| ==> log'[i] == log[i];
    assert log'[|log|] == e;
    if Rising(log', text) {
      forall i | 0 <= i < |log| && log[i].target == text && e.target == text
        ensures log[i].targetRevision <= e.targetRevision
      {
        assert log'[i].targetRevision <= log'[|log|].targetRevision;
      }
      forall i, j | 0 <= i < j < |log| && log[i].target == text && log[j].target == text
        ensures log[i].targetRevision <= log[j].targetRevision
      {
        assert log'[i].targetRevision <= log'[j].targetRevision;
      }
    }
  }

  /** One record, after any run.  Its label's revisions keep rising exactly when its target is stored whole,
      or nothing under that label has reported a revision above 0; a number of 47 digits or more, which
      shares its label with other numbers, reports the revision of the object it names. */
  lemma RecordRises(ops: seq<Op>, actor: string, target: string, operation: string, result: EventResult,
                    parent: nat, decision: string, kind: string)
    requires AllDisciplined(EMPTY, ops) && Rising(ApplyAll(EMPTY, ops).log, Cut(target, LABEL))
    ensures var l := ApplyAll(EMPTY, ops);
            var text := Cut(target, LABEL);
            Rising(Record(l, actor, target, operation, result, parent, decision, kind).log, text) <==>
              if AllDigits(target) && |target| >= LABEL then NoneAbove(l.log, text, Revision(l.objects, target))
              else |target| <= LABEL || NoneAbove(l.log, text, 0)
  {
    ReachableHistory(ops);
    var l := ApplyAll(EMPTY, ops);
    RisingPush(l.log, NewEvent(l, actor, target, operation, result, parent, decision, kind), Cut(target, LABEL));
    hide Found, FindTx, ClosingsOk, AllDisciplined, Rising;
    if |target| > LABEL && !AllDigits(target) {
      LongNamesFindNothing(l.objects, target);
    }
  }

  /** An operation that sends a label's revision back: a record whose target is longer than the label that
      stores it, after a revision above 0 has been reported under that label. */
  predicate Falls(l: Ledger, op: Op, text: string) {
    op.RecordOp? && |op.target| > LABEL && Cut(op.target, LABEL) == text && !NoneAbove(l.log, text, 0)
  }

  predicate NeverFalls(l: Ledger, ops: seq<Op>, text: string)
    decreases |ops|
  {
    ops == [] || (!Falls(l, ops[0], text) && NeverFalls(Apply(l, ops[0]), ops[1..], text))
  }

  lemma RecordRising(l: Ledger, actor: string, target: string, operation: string, result: EventResult,
                     parent: nat, decision: string, kind: string, text: string)
    requires HistoryOk(l) && Telling(text)
    ensures Rising(Record(l, actor, target, operation, result, parent, decision, kind).log, text) <==>
              Rising(l.log, text) && !Falls(l, RecordOp(actor, target, operation, result, parent, decision, kind), text)
  {
    RisingPush(l.log, NewEvent(l, actor, target, operation, result, parent, decision, kind), text);
    if Cut(target, LABEL) == text {
      LabelRevision(l.objects, target);
    }
    hide Found, FindTx, ClosingsOk, ObjectsOk, Rising;
  }

  /** What every operation but a record does to the log: nothing, or an event about a name stored whole. */
  lemma OtherRising(l: Ledger, op: Op, text: string)
    requires HistoryOk(l) && Disciplined(l, op) && !op.RecordOp? && Telling(text)
    ensures Rising(Apply(l, op).log, text) <==> Rising(l.log, text)
  {
    match op {
      case UpdateOp(name, state) => UpdateRising(l, name, state, text);
      case BeginOp(actor, target, parent) => BeginRising(l, actor, target, parent, text);
      case CommitOp(id) => CloseRising(l, id, Committed, "commit", Ok, "allow:transaction", "committed", text);
      case AbortOp(id, reason) => CloseRising(l, id, Aborted, "abort", Denied, reason, "aborted", text);
      case _ =>
    }
    hide Record, Begin, Close, UpdateState, HistoryOk, Rising, Found;
  }

  lemma UpdateRising(l: Ledger, name: string, state: string, text: string)
    requires HistoryOk(l) && Telling(text)
    ensures Rising(UpdateState(l, name, state).log, text) <==> Rising(l.log, text)
  {
    var i := FindObject(l.objects, name, 0);
    if i < |l.objects| {
      assert |l.objects[i].name| <= LABEL;
      hide HistoryOk, Rising, SetState, Record, Telling;
      var l1 := l.(objects := SetState(l.objects, i, state, NextSequence(l)));
      StateHistory(l, i, state, NextSequence(l));
      RecordRising(l1, "object", l.objects[i].name, "state_update", Ok, l.current, "allow:object-state", "state", text);
    }
  }

  lemma BeginRising(l: Ledger, actor: string, target: string, parent: nat, text: string)
    requires HistoryOk(l) && |target| <= LABEL && Telling(text)
    ensures Rising(Begin(l, actor, target, parent).0.log, text) <==> Rising(l.log, text)
  {
    if |l.txs| < TRANSACTION_CAPACITY {
      var id := NextSequence(l);
      var l1 := Register(l, "transaction", TransactionName(id), ObjectId(l.objects, "events"), "open", parent).0;
      assert l1.log == l.log;
      IdsStayInRange(l.objects, "events");
      RegisterHistory(l, "transaction", TransactionName(id), ObjectId(l.objects, "events"), "open", parent);
      OpenedHistory(l1, actor, target, parent, id);
      assert |TransactionName(id)| <= LABEL;
      hide HistoryOk, Rising, Register, Record, TransactionName, Telling;
      var l2 := l1.(txs := l1.txs + [OpenRecord(l1, actor, target, parent)], tx := id);
      RecordRising(l2, actor, TransactionName(id), "begin", Ok, parent, "allow:transaction", "transaction", text);
    }
  }

  lemma CloseRising(l: Ledger, id: nat, status: Status, operation: string, result: EventResult, reason: string,
                    state: string, text: string)
    requires HistoryOk(l) && Telling(text)
    ensures Rising(Close(l, id, status, operation, result, reason, state).0.log, text) <==> Rising(l.log, text)
  {
    var k := FindTx(l.txs, id);
    if k < |l.txs| {
      var t := l.txs[k];
      SettledHistory(l, k, status, id);
      assert |TransactionName(id)| <= LABEL;
      hide HistoryOk, Rising, Record, TransactionName, Telling, SetState;
      var l1 := l.(tx := id,
                   txs := l.txs[k := t.(committedRevision := Revision(l.objects, t.target), status := status)]);
      RecordRising(l1, t.actor, TransactionName(id), operation, result, t.endEvent, reason, "transaction", text);
    }
  }

  lemma {:induction false} RunsRise(l: Ledger, ops: seq<Op>, text: string)
    requires HistoryOk(l) && AllDisciplined(l, ops) && Telling(text)
    ensures Rising(ApplyAll(l, ops).log, text) <==> Rising(l.log, text) && NeverFalls(l, ops, text)
    decreases |ops|
  {
    hide HistoryOk, Rising, Disciplined, Telling, NoneAbove;
    if ops != [] {
      StepKeepsHistory(l, ops[0]);
      if ops[0].RecordOp? {
        var op := ops[0];
        RecordRising(l, op.actor, op.target, op.operation, op.result, op.parent, op.decision, op.kind, text);
      } else {
        OtherRising(l, ops[0], text);
      }
      hide Record, Register, Begin, Close, UpdateState;
      RunsRise(Apply(l, ops[0]), ops[1..], text);
    }
  }

  /** After any run, the revisions reported under a label never went back exactly when no record was made of
      a longer name that the label cuts short once a revision above 0 had been reported under it. */
  lemma RevisionsRiseExactly(ops: seq<Op>, text: string)
    requires AllDisciplined(EMPTY, ops) && Telling(text)
    ensures Rising(ApplyAll(EMPTY, ops).log, text) <==> NeverFalls(EMPTY, ops, text)
  {
    RunsRise(EMPTY, ops, text);
  }

  /** No record is made of a longer name that is stored under this label. */
  predicate NoLongerName(ops: seq<Op>, text: string) {
    forall op :: op in ops && op.RecordOp? && |op.target| > LABEL ==> Cut(op.target, LABEL) != text
  }

  lemma {:induction false} NoLongerNameNeverFalls(l: Ledger, ops: seq<Op>, text: string)
    requires NoLongerName(ops, text)
    ensures NeverFalls(l, ops, text)
    decreases |ops|
  {
    hide Apply;
    if ops != [] {
      NoLongerNameNeverFalls(Apply(l, ops[0]), ops[1..], text);
    }
  }

  /** In every reachable state the revisions reported for one target never decrease along the log: for
      targets of fewer than 47 characters always, for those of 47 unless a longer name is stored alike. */
  lemma RevisionsNeverDecrease(ops: seq<Op>, text: string)
    requires AllDisciplined(EMPTY, ops)
    requires |text| < LABEL || (!AllDigits(text) && NoLongerName(ops, text))
    ensures Rising(ApplyAll(EMPTY, ops).log, text)
  {
    RevisionsRiseExactly(ops, text);
    NoLongerNameNeverFalls(EMPTY, ops, text);
  }

  lemma CommittedAtOrAfterStart(ops: seq<Op>, k: nat)
    requires AllDisciplined(EMPTY, ops) && k < |ApplyAll(EMPTY, ops).txs|
    ensures ApplyAll(EMPTY, ops).txs[k].startedRevision <= ApplyAll(EMPTY, ops).txs[k].committedRevision
  {
    ReachableHistory(ops);
  }

  /** In every reachable state object ids are 1, 2, 3, ... in order, parents come before their children,
      and no two objects share a name. */
  lemma RegistryIsOrdered(ops: seq<Op>, i: nat)
    requires AllDisciplined(EMPTY, ops) && i < |ApplyAll(EMPTY, ops).objects|
    ensures var o := ApplyAll(EMPTY, ops).objects[i];
            && o.id == i + 1 && o.parentId < o.id
            && (forall j :: 0 <= j < |ApplyAll(EMPTY, ops).objects| && j != i ==>
                ApplyAll(EMPTY, ops).objects[j].name != o.name)
  {
    ReachableHistory(ops);
  }
}
