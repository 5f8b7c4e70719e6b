/** The registry's objects for the transactions: each shows how its transaction ended. */
module TransactionObjects {
  import opened Text
  import opened EventRing
  import opened Ledger
  import opened History

  predicate NamesTransaction(name: string) { "transaction/" <= name }

  /** An operation of the kernel that is not event.c's own leaves the names of transactions alone. */
  predicate Foreign(op: Op) {
    match op
    case RegisterOp(_, name, _, _, _) => !NamesTransaction(name)
    case UpdateOp(name, _) => !NamesTransaction(name) && !AllDigits(name)
    case _ => true
  }

  predicate AllForeign(ops: seq<Op>) { forall op :: op in ops ==> Foreign(op) }

  function StateOf(status: Status): string {
    match status case Open => "open" case Committed => "committed" case Aborted => "aborted"
  }

  predicate ObjectSays(o: KObject, t: Transaction) { o.name == TransactionName(t.id) && o.state == StateOf(t.status) }

  /** Some object has this name. */
  predicate HasObject(objects: seq<KObject>, name: string) {
    exists i {:trigger objects[i]} :: 0 <= i < |objects| && objects[i].name == name
  }

  /** Every object with the name of a transaction shows the state of one, and as long as the registry has room
      every transaction has its object. */
  predicate Says(objects: seq<KObject>, txs: seq<Transaction>) {
    && (forall i {:trigger objects[i]} :: 0 <= i < |objects| && NamesTransaction(objects[i].name) ==>
          exists k {:trigger txs[k]} :: 0 <= k < |txs| && ObjectSays(objects[i], txs[k]))
    && (|objects| < 128 ==>
          forall k {:trigger txs[k]} :: 0 <= k < |txs| ==> HasObject(objects, TransactionName(txs[k].id)))
  }

  lemma NameFacts(id: nat, other: nat)
    requires id < U64 && other < U64
    ensures NamesTransaction(TransactionName(id)) && !AllDigits(TransactionName(id))
    ensures TransactionName(id) == "transaction/" + Decimal(id)
    ensures TransactionName(id) == TransactionName(other) ==> id == other
  {
    TransactionNameRoundTrip(id);
    TransactionNameRoundTrip(other);
    assert ("transaction/" + Decimal(id))[0] == 't' && !IsDigit('t');
    hide Decimal, TransactionId, Cut;
  }

  /** The same transactions with the same outcomes. */
  lemma SameTransactions(objects: seq<KObject>, txs: seq<Transaction>, txs': seq<Transaction>)
    requires Says(objects, txs) && |txs'| == |txs|
    requires forall k {:trigger txs'[k]} :: 0 <= k < |txs| ==>
               txs'[k].id == txs[k].id && txs'[k].status == txs[k].status
    ensures Says(objects, txs')
  {
    hide TransactionName, NamesTransaction;
    forall i | 0 <= i < |objects| && NamesTransaction(objects[i].name)
      ensures exists k {:trigger txs'[k]} :: 0 <= k < |txs'| && ObjectSays(objects[i], txs'[k])
    {
      var k :| 0 <= k < |txs| && ObjectSays(objects[i], txs[k]);
      assert ObjectSays(objects[i], txs'[k]);
    }
    if |objects| < 128 {
      forall k | 0 <= k < |txs'|
        ensures HasObject(objects, TransactionName(txs'[k].id))
      {
        assert HasObject(objects, TransactionName(txs[k].id));
      }
    }
  }

  lemma TouchedSays(objects: seq<KObject>, txs: seq<Transaction>, id: nat, sequence: nat)
    requires Says(objects, txs)
    ensures Says(objects, Touch(txs, id, sequence))
  {
    SameTransactions(objects, txs, Touch(txs, id, sequence));
    hide Says;
  }

  lemma RecordSays(l: Ledger, e: Event)
    requires Says(l.objects, l.txs)
    ensures Says(Append(l, e).objects, Append(l, e).txs)
  {
    hide Says;
    TouchedSays(l.objects, l.txs, e.tx, NextSequence(l));
  }

  lemma RegisterSays(l: Ledger, kind: string, name: string, parentId: nat, state: string, created: nat)
    requires Says(l.objects, l.txs) && !NamesTransaction(name)
    ensures var l' := Register(l, kind, name, parentId, state, created).0; Says(l'.objects, l'.txs)
  {
    var l' := Register(l, kind, name, parentId, state, created).0;
    if l'.objects != l.objects {
      assert !NamesTransaction(Cut(name, LABEL));
      hide TransactionName, Cut, Found;
      forall i | 0 <= i < |l'.objects| && NamesTransaction(l'.objects[i].name)
        ensures exists k {:trigger l.txs[k]} :: 0 <= k < |l.txs| && ObjectSays(l'.objects[i], l.txs[k])
      {
        assert l'.objects[i] == l.objects[i];
      }
      forall k | 0 <= k < |l.txs|
        ensures HasObject(l'.objects, TransactionName(l.txs[k].id))
      {
        assert HasObject(l.objects, TransactionName(l.txs[k].id));
        var i :| 0 <= i < |l.objects| && l.objects[i].name == TransactionName(l.txs[k].id);
        assert l'.objects[i] == l.objects[i];
      }
    }
  }

  /** An object that is no transaction's gets another state. */
  lemma StateSays(objects: seq<KObject>, txs: seq<Transaction>, i: nat, state: string, event: nat)
    requires Says(objects, txs) && i < |objects| && !NamesTransaction(objects[i].name)
    ensures Says(SetState(objects, i, state, event), txs)
  {
    var objects' := SetState(objects, i, state, event);
    hide TransactionName, Cut;
    forall j | 0 <= j < |objects'| && NamesTransaction(objects'[j].name)
      ensures exists k {:trigger txs[k]} :: 0 <= k < |txs| && ObjectSays(objects'[j], txs[k])
    {
      assert objects'[j] == objects[j];
    }
    NamesStay(objects, objects', txs);
  }

  lemma NamesStay(objects: seq<KObject>, objects': seq<KObject>, txs: seq<Transaction>)
    requires |objects'| == |objects|
    requires forall i {:trigger objects'[i]} :: 0 <= i < |objects| ==> objects'[i].name == objects[i].name
    ensures forall k {:trigger txs[k]} :: 0 <= k < |txs| && HasObject(objects, TransactionName(txs[k].id)) ==>
              HasObject(objects', TransactionName(txs[k].id))
  {
    hide TransactionName;
    forall k | 0 <= k < |txs| && HasObject(objects, TransactionName(txs[k].id))
      ensures HasObject(objects', TransactionName(txs[k].id))
    {
      var i :| 0 <= i < |objects| && objects[i].name == TransactionName(txs[k].id);
      assert objects'[i].name == TransactionName(txs[k].id);
    }
  }

  lemma UpdateSays(l: Ledger, name: string, state: string)
    requires Says(l.objects, l.txs) && !NamesTransaction(name) && !AllDigits(name)
    ensures var l' := UpdateState(l, name, state); Says(l'.objects, l'.txs)
  {
    var i := FindObject(l.objects, name, 0);
    if i < |l.objects| {
      assert l.objects[i].name == name;
      StateSays(l.objects, l.txs, i, state, NextSequence(l));
      hide Says, Revision, ObjectId;
      var l1 := l.(objects := SetState(l.objects, i, state, NextSequence(l)));
      RecordSays(l1, NewEvent(l1, "object", l.objects[i].name, "state_update", Ok, l.current, "allow:object-state",
                              "state"));
    }
  }

  // ---------------------------------------------------------------- begin and close

  /** No object has the name of a transaction that is not begun yet. */
  lemma FreshName(l: Ledger, id: nat)
    requires Says(l.objects, l.txs) && JournalOk(l) && |l.log| < id < U64
    ensures forall i {:trigger l.objects[i]} :: 0 <= i < |l.objects| ==> !Matches(l.objects[i], TransactionName(id))
  {
    NameFacts(id, id);
    forall i | 0 <= i < |l.objects|
      ensures !Matches(l.objects[i], TransactionName(id))
    {
      if l.objects[i].name == TransactionName(id) {
        var k :| 0 <= k < |l.txs| && ObjectSays(l.objects[i], l.txs[k]);
        assert RecordAgrees(l.log, l.txs[k]);
        NameFacts(id, l.txs[k].id);
      }
    }
    hide TransactionName, LogOk, TagsOk, RecordAgrees;
  }

  /** A new transaction and, while there is room, its object. */
  lemma OpenedSays(objects: seq<KObject>, txs: seq<Transaction>, o: KObject, t: Transaction)
    requires Says(objects, txs) && ObjectSays(o, t)
    ensures |objects| < 128 ==> Says(objects + [o], txs + [t])
    ensures |objects| >= 128 ==> Says(objects, txs + [t])
  {
    hide TransactionName, NamesTransaction;
    var txs', objects' := txs + [t], objects + [o];
    forall i | 0 <= i < |objects| && NamesTransaction(objects[i].name)
      ensures exists k {:trigger txs'[k]} :: 0 <= k < |txs'| && ObjectSays(objects[i], txs'[k])
    {
      var k :| 0 <= k < |txs| && ObjectSays(objects[i], txs[k]);
      assert txs'[k] == txs[k];
    }
    if |objects| < 128 {
      assert ObjectSays(objects'[|objects|], txs'[|txs|]);
      forall i | 0 <= i < |objects'| && NamesTransaction(objects'[i].name)
        ensures exists k {:trigger txs'[k]} :: 0 <= k < |txs'| && ObjectSays(objects'[i], txs'[k])
      {
        assert i < |objects| ==> objects'[i] == objects[i];
      }
      forall k | 0 <= k < |txs'|
        ensures HasObject(objects', TransactionName(txs'[k].id))
      {
        if k < |txs| {
          assert HasObject(objects, TransactionName(txs[k].id));
          var i :| 0 <= i < |objects| && objects[i].name == TransactionName(txs[k].id);
          assert objects'[i] == objects[i];
        } else {
          assert objects'[|objects|].name == TransactionName(t.id);
        }
      }
    }
  }

  lemma BeginSays(l: Ledger, actor: string, target: string, parent: nat)
    requires Says(l.objects, l.txs) && JournalOk(l) && (|l.txs| < 32 ==> |l.log| + 1 < U64)
    ensures var l' := Begin(l, actor, target, parent).0; Says(l'.objects, l'.txs)
  {
    if |l.txs| < 32 {
      var id := NextSequence(l);
      FreshName(l, id);
      NameFacts(id, id);
      var l1 := Register(l, "transaction", TransactionName(id), ObjectId(l.objects, "events"), "open", parent).0;
      assert Found(l.objects, TransactionName(id)) == None;
      var t := OpenRecord(l1, actor, target, parent);
      NewObject(l, id, ObjectId(l.objects, "events"), parent, t);
      hide Says, JournalOk, Register, Revision, ObjectId, TransactionName, Matches;
      var l2 := l1.(txs := l1.txs + [t], tx := id);
      RecordSays(l2, NewEvent(l2, actor, TransactionName(id), "begin", Ok, parent, "allow:transaction", "transaction"));
    }
  }

  lemma NewObject(l: Ledger, id: nat, parentId: nat, created: nat, t: Transaction)
    requires Says(l.objects, l.txs) && t.id == id && t.status == Open && Found(l.objects, TransactionName(id)) == None
    ensures var l1 := Register(l, "transaction", TransactionName(id), parentId, "open", created).0;
            l1.txs == l.txs && Says(l1.objects, l.txs + [t])
  {
    var o := KObject(|l.objects| + 1, parentId, 1, created, created, Cut("transaction", TYPE), TransactionName(id),
                     "open");
    OpenedSays(l.objects, l.txs, o, t);
    assert Cut(TransactionName(id), LABEL) == TransactionName(id);
    hide Says, Found;
  }

  /** Transaction k ends, and its object, if there is one, gets the state that says so. */
  lemma ClosedSays(objects: seq<KObject>, txs: seq<Transaction>, k: nat, t: Transaction, i: nat, event: nat)
    requires Says(objects, txs) && ObjectsOk(objects) && k < |txs| && t.id == txs[k].id
    requires i <= |objects| && (i < |objects| ==> objects[i].name == TransactionName(t.id))
    requires i == |objects| ==>
               forall j {:trigger objects[j]} :: 0 <= j < |objects| ==> objects[j].name != TransactionName(t.id)
    ensures i < |objects| ==> Says(SetState(objects, i, StateOf(t.status), event), txs[k := t])
    ensures i == |objects| ==> Says(objects, txs[k := t])
  {
    var txs' := txs[k := t];
    var objects' := if i < |objects| then SetState(objects, i, StateOf(t.status), event) else objects;
    hide TransactionName, NamesTransaction;
    forall j | 0 <= j < |objects'| && NamesTransaction(objects'[j].name)
      ensures exists m {:trigger txs'[m]} :: 0 <= m < |txs'| && ObjectSays(objects'[j], txs'[m])
    {
      if j == i {
        assert ObjectSays(objects'[j], txs'[k]);
      } else {
        var m :| 0 <= m < |txs| && ObjectSays(objects[j], txs[m]);
        assert m != k;
        assert txs'[m] == txs[m];
      }
    }
    NamesStay(objects, objects', txs);
    if |objects| < 128 {
      forall m | 0 <= m < |txs'|
        ensures HasObject(objects', TransactionName(txs'[m].id))
      {
        assert HasObject(objects, TransactionName(txs[m].id));
      }
    }
  }

  /** What a close leaves in the table and in the registry. */
  lemma CloseParts(l: Ledger, id: nat, status: Status, operation: string, result: EventResult, reason: string,
                   state: string)
    requires Known(l.txs, id)
    ensures var l' := Close(l, id, status, operation, result, reason, state).0;
            var k, i := FindTx(l.txs, id), FindObject(l.objects, TransactionName(id), 0);
            var t := l.txs[k].(committedRevision := Revision(l.objects, l.txs[k].target), status := status);
            && l'.txs == Touch(l.txs[k := t], id, NextSequence(l))
            && l'.objects == if i < |l.objects| then SetState(l.objects, i, state, NextSequence(l)) else l.objects
  {
    hide Revision, ObjectId, TransactionName, Touch, FindObject, FindTx, Cut;
  }

  lemma CloseSays(l: Ledger, id: nat, status: Status, operation: string, result: EventResult, reason: string)
    requires Says(l.objects, l.txs) && ObjectsOk(l.objects) && id < U64 && Known(l.txs, id)
    ensures var l' := Close(l, id, status, operation, result, reason, StateOf(status)).0; Says(l'.objects, l'.txs)
  {
    hide Says, ObjectsOk, Revision, TransactionName, Touch, Close, StateOf;
    var k, i := FindTx(l.txs, id), FindObject(l.objects, TransactionName(id), 0);
    var t := l.txs[k].(committedRevision := Revision(l.objects, l.txs[k].target), status := status);
    NameIsFound(l.objects, id);
    ClosedSays(l.objects, l.txs, k, t, i, NextSequence(l));
    CloseParts(l, id, status, operation, result, reason, StateOf(status));
    var objects := if i < |l.objects| then SetState(l.objects, i, StateOf(status), NextSequence(l)) else l.objects;
    TouchedSays(objects, l.txs[k := t], id, NextSequence(l));
  }

  lemma NameIsFound(objects: seq<KObject>, id: nat)
    requires id < U64
    ensures var i := FindObject(objects, TransactionName(id), 0);
            && (i < |objects| ==> objects[i].name == TransactionName(id))
            && (i == |objects| ==>
                  forall j {:trigger objects[j]} :: 0 <= j < |objects| ==> objects[j].name != TransactionName(id))
  {
    NameFacts(id, id);
    hide TransactionName, FindObject;
    var i := FindObject(objects, TransactionName(id), 0);
    forall j | 0 <= j < i
      ensures objects[j].name != TransactionName(id)
    {
      assert !Matches(objects[j], TransactionName(id));
    }
  }

  // ---------------------------------------------------------------- runs

  lemma BeginLength(l: Ledger, actor: string, target: string, parent: nat)
    ensures |Begin(l, actor, target, parent).0.log| == |l.log| + if |l.txs| < 32 then 1 else 0
  {
    hide Found, Touch, Cut, TransactionName;
  }

  lemma CloseLength(l: Ledger, id: nat, status: Status, operation: string, result: EventResult, reason: string,
                    state: string)
    ensures |l.log| <= |Close(l, id, status, operation, result, reason, state).0.log|
  {
    hide Found, Revision, ObjectId, Cut, Touch, TransactionName, FindObject;
  }

  lemma StepGrows(l: Ledger, op: Op)
    ensures |l.log| <= |Apply(l, op).log|
  {
    match op {
      case BeginOp(actor, target, parent) => BeginLength(l, actor, target, parent);
      case CommitOp(id) => CloseLength(l, id, Committed, "commit", Ok, "allow:transaction", "committed");
      case AbortOp(id, reason) => CloseLength(l, id, Aborted, "abort", Denied, reason, "aborted");
      case _ => hide Found, Revision, ObjectId, Cut, Touch;
    }
    hide Begin, Close;
  }

  lemma EndSays(l: Ledger, id: nat, status: Status, operation: string, result: EventResult, reason: string)
    requires Says(l.objects, l.txs) && JournalOk(l) && ObjectsOk(l.objects) && |l.log| < U64
    ensures var l' := Close(l, id, status, operation, result, reason, StateOf(status)).0; Says(l'.objects, l'.txs)
  {
    if Known(l.txs, id) {
      KnownTagIsPast(l, id);
      hide Close, Says, JournalOk, ObjectsOk;
      CloseSays(l, id, status, operation, result, reason);
    }
  }

  lemma StepSays(l: Ledger, op: Op)
    requires Says(l.objects, l.txs) && JournalOk(l) && ObjectsOk(l.objects) && Foreign(op)
    requires |Apply(l, op).log| < U64
    ensures Says(Apply(l, op).objects, Apply(l, op).txs)
  {
    StepGrows(l, op);
    hide Says, ObjectsOk, LogOk, TagsOk, Ascending, RecordAgrees, Register, Begin, Close, UpdateState, Append, Cut;
    match op
    case RecordOp(actor, target, operation, result, parent, decision, kind) =>
      RecordSays(l, NewEvent(l, actor, target, operation, result, parent, decision, kind));
    case RegisterOp(kind, name, parentId, state, created) => RegisterSays(l, kind, name, parentId, state, created);
    case UpdateOp(name, state) => UpdateSays(l, name, state);
    case SetCurrentOp(_) =>
    case SetTxOp(_) =>
    case BeginOp(actor, target, parent) =>
      BeginLength(l, actor, target, parent);
      BeginSays(l, actor, target, parent);
    case CommitOp(id) =>
      EndSays(l, id, Committed, "commit", Ok, "allow:transaction");
    case AbortOp(id, reason) =>
      EndSays(l, id, Aborted, "abort", Denied, reason);
  }

  lemma {:induction false} RunGrows(l: Ledger, ops: seq<Op>)
    ensures |l.log| <= |ApplyAll(l, ops).log|
    decreases |ops|
  {
    hide Apply;
    if ops != [] {
      StepGrows(l, ops[0]);
      RunGrows(Apply(l, ops[0]), ops[1..]);
    }
  }

  lemma {:induction false} RunsSay(l: Ledger, ops: seq<Op>)
    requires Says(l.objects, l.txs) && JournalOk(l) && HistoryOk(l) && AllDisciplined(l, ops) && AllForeign(ops)
    requires |ApplyAll(l, ops).log| < U64
    ensures Says(ApplyAll(l, ops).objects, ApplyAll(l, ops).txs)
    decreases |ops|
  {
    hide Says, JournalOk, ObjectsOk, LabelsOk, ClosingsOk, Disciplined, Foreign, Apply;
    if ops != [] {
      var op := ops[0];
      RunGrows(Apply(l, op), ops[1..]);
      StepSays(l, op);
      StepKeepsOk(l, op);
      StepKeepsHistory(l, op);
      RunsSay(Apply(l, op), ops[1..]);
    }
  }

  /** One transaction and the objects named after it: one is registered while the registry has room, and its
      state is "open", "committed" or "aborted" as the transaction is. */
  ghost predicate IsShown(objects: seq<KObject>, t: Transaction) {
    && (|objects| < 128 ==> HasObject(objects, "transaction/" + Decimal(t.id)))
    && forall i {:trigger objects[i]} :: 0 <= i < |objects| && objects[i].name == "transaction/" + Decimal(t.id) ==>
         objects[i].state ==
         (if t.status == Open then "open" else if t.status == Committed then "committed" else "aborted")
  }

  /** Every transaction of a journal. */
  ghost predicate ShownInRegistry(l: Ledger) {
    forall k {:trigger l.txs[k]} :: 0 <= k < |l.txs| ==> IsShown(l.objects, l.txs[k])
  }

  lemma ShownState(l: Ledger, k: nat, i: nat)
    requires Says(l.objects, l.txs) && TableOk(l.log, l.txs) && |l.log| < U64
    requires k < |l.txs| && i < |l.objects| && l.objects[i].name == TransactionName(l.txs[k].id)
    ensures l.objects[i].state == StateOf(l.txs[k].status)
  {
    hide TransactionName, Begins, LastTagged, StateOf;
    assert RecordAgrees(l.log, l.txs[k]);
    NameFacts(l.txs[k].id, l.txs[k].id);
    var m :| 0 <= m < |l.txs| && ObjectSays(l.objects[i], l.txs[m]);
    assert RecordAgrees(l.log, l.txs[m]);
    NameFacts(l.txs[k].id, l.txs[m].id);
    assert Ascending(l.txs);
  }

  lemma TransactionIsShown(l: Ledger, k: nat)
    requires Says(l.objects, l.txs) && TableOk(l.log, l.txs) && |l.log| < U64 && k < |l.txs|
    ensures IsShown(l.objects, l.txs[k])
  {
    assert RecordAgrees(l.log, l.txs[k]);
    NameFacts(l.txs[k].id, l.txs[k].id);
    hide Decimal, TransactionName, TableOk;
    forall i | 0 <= i < |l.objects| && l.objects[i].name == "transaction/" + Decimal(l.txs[k].id)
      ensures l.objects[i].state == StateOf(l.txs[k].status)
    {
      ShownState(l, k, i);
    }
  }

  lemma SaysIsShown(l: Ledger)
    requires Says(l.objects, l.txs) && JournalOk(l) && |l.log| < U64
    ensures ShownInRegistry(l)
  {
    hide LogOk, TagsOk, TableOk, Says, IsShown;
    forall k | 0 <= k < |l.txs|
      ensures IsShown(l.objects, l.txs[k])
    {
      TransactionIsShown(l, k);
    }
  }

  /** In every state that a run of fewer than 2^64 events reaches. */
  lemma ObjectsShowTransactions(ops: seq<Op>)
    requires AllDisciplined(EMPTY, ops) && AllForeign(ops) && |ApplyAll(EMPTY, ops).log| < U64
    ensures ShownInRegistry(ApplyAll(EMPTY, ops))
  {
    ReachableOk(ops);
    RunsSay(EMPTY, ops);
    hide Says, JournalOk, ShownInRegistry, AllForeign, AllDisciplined, ApplyAll;
    SaysIsShown(ApplyAll(EMPTY, ops));
  }

  // ---------------------------------------------------------------- the object itself

  lemma FoundAt(objects: seq<KObject>, name: string, i: nat)
    requires ObjectsOk(objects) && i < |objects| && objects[i].name == name && !AllDigits(name)
    ensures FindObject(objects, name, 0) == i
  {
    var j := FindObject(objects, name, 0);
    assert j <= i by {
      assert Matches(objects[i], name);
    }
    assert objects[j].name == name;
  }

  lemma BeginParts(l: Ledger, actor: string, target: string, parent: nat)
    requires |l.txs| < 32
    ensures Begin(l, actor, target, parent).0.objects ==
            Register(l, "transaction", TransactionName(NextSequence(l)), ObjectId(l.objects, "events"), "open",
                     parent).0.objects
  {
    hide Register, TransactionName, ObjectId, Revision, Touch, Cut;
  }

  lemma RegisterNew(l: Ledger, id: nat, parentId: nat, created: nat)
    requires Says(l.objects, l.txs) && JournalOk(l) && |l.log| < id < U64 && |l.objects| < 128
    ensures Register(l, "transaction", TransactionName(id), parentId, "open", created).0.objects ==
            l.objects + [KObject(|l.objects| + 1, parentId, 1, created, created, "transaction",
                                 "transaction/" + Decimal(id), "open")]
  {
    FreshName(l, id);
    NameFacts(id, id);
    assert Found(l.objects, TransactionName(id)) == None;
    assert Cut(TransactionName(id), LABEL) == TransactionName(id);
    assert Cut("transaction", TYPE) == "transaction" && Cut("open", LABEL) == "open";
    hide Says, JournalOk, Found, TransactionName, Matches, Cut, Decimal;
  }

  /** The object of a new transaction: a child of the journal's, first seen at the event that caused it. */
  lemma BeginRegisters(l: Ledger, actor: string, target: string, parent: nat) returns (events: nat)
    requires Says(l.objects, l.txs) && JournalOk(l) && ObjectsOk(l.objects) && |l.log| + 1 < U64
    requires |l.txs| < 32 && |l.objects| < 128
    ensures Identifies(l.objects, "events", events)
    ensures Begin(l, actor, target, parent).0.objects ==
            l.objects + [KObject(|l.objects| + 1, events, 1, parent, parent, "transaction",
                                 "transaction/" + Decimal(|l.log| + 1), "open")]
  {
    hide Says, JournalOk, ObjectsOk, Identifies, Begin, Register, ObjectId, Revision, Decimal, TransactionName;
    events := ObjectId(l.objects, "events");
    FindsFirst(l.objects, "events");
    BeginParts(l, actor, target, parent);
    RegisterNew(l, NextSequence(l), events, parent);
  }

  lemma CloseUpdates(l: Ledger, id: nat, status: Status, operation: string, result: EventResult, reason: string,
                     state: string, i: nat)
    requires ObjectsOk(l.objects) && Known(l.txs, id) && id < U64 && Cut(state, LABEL) == state
    requires i < |l.objects| && l.objects[i].name == "transaction/" + Decimal(id)
    ensures Close(l, id, status, operation, result, reason, state).0.objects ==
            l.objects[i := l.objects[i].(state := state, revision := l.objects[i].revision + 1,
                                         lastEvent := |l.log| + 1)]
  {
    hide ObjectsOk, Revision, TransactionName, Touch, Decimal, Close, FindObject, FindTx, Cut;
    NameFacts(id, id);
    FoundAt(l.objects, TransactionName(id), i);
    CloseParts(l, id, status, operation, result, reason, state);
  }

  /** When a transaction ends its object's state says how, one revision on, at the closing event. */
  lemma EndUpdates(l: Ledger, id: nat, ok: bool, reason: string, i: nat)
    requires ObjectsOk(l.objects) && Known(l.txs, id) && id < U64
    requires i < |l.objects| && l.objects[i].name == "transaction/" + Decimal(id)
    ensures var l' := if ok then Commit(l, id).0 else Abort(l, id, reason).0;
            l'.objects == l.objects[i := l.objects[i].(state := if ok then "committed" else "aborted",
                                                       revision := l.objects[i].revision + 1,
                                                       lastEvent := |l.log| + 1)]
  {
    assert Cut("committed", LABEL) == "committed" && Cut("aborted", LABEL) == "aborted";
    hide ObjectsOk, Close, FindTx, Cut, Decimal;
    CloseUpdates(l, id, Committed, "commit", Ok, "allow:transaction", "committed", i);
    CloseUpdates(l, id, Aborted, "abort", Denied, reason, "aborted", i);
  }

  /** object_update_state by name: the new state, one revision on, at the event that reports it. */
  lemma UpdateIs(l: Ledger, name: string, state: string, i: nat)
    requires ObjectsOk(l.objects) && !AllDigits(name) && i < |l.objects| && l.objects[i].name == name
    ensures var l' := UpdateState(l, name, state);
            && l'.objects == l.objects[i := l.objects[i].(state := Cut(state, 47),
                                                          revision := l.objects[i].revision + 1,
                                                          lastEvent := |l.log| + 1)]
            && |l'.log| == |l.log| + 1 && l'.log[|l.log|].targetId == i + 1
            && l'.log[|l.log|].targetRevision == l.objects[i].revision + 1
  {
    FoundAt(l.objects, name, i);
    var objects := SetState(l.objects, i, state, NextSequence(l));
    assert ObjectsOk(objects);
    FoundAt(objects, name, i);
    hide ObjectsOk, FindTx, Touch, FindObject, Cut;
  }
}
