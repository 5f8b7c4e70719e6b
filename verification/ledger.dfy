/** The event journal, the transaction table and the object registry as functions on values:
    kernel/event.c and kernel/object.c, with the ring replaced by the unbounded log it keeps. */
module Ledger {
  import opened Text
  import opened EventRing

  const LABEL := 47                   // EVENT_LABEL_SIZE - 1, also the name and state sizes of objects
  const KIND := 23
  const TYPE := 31
  const OBJECT_CAPACITY := 128
  const TRANSACTION_CAPACITY := 32

  datatype KObject = KObject(id: nat, parentId: nat, revision: nat, createdEvent: nat, lastEvent: nat,
                             kind: string, name: string, state: string)

  datatype Status = Open | Committed | Aborted

  datatype Transaction = Transaction(id: nat, parentEvent: nat, beginEvent: nat, endEvent: nat,
                                     startedRevision: nat, committedRevision: nat,
                                     actor: string, target: string, status: Status)

  /** `current` and `tx` are current_sequence and current_transaction. */
  datatype Ledger = Ledger(log: seq<Event>, current: nat, tx: nat, txs: seq<Transaction>, objects: seq<KObject>)

  const EMPTY := Ledger([], 0, 0, [], [])

  function NextSequence(l: Ledger): nat { |l.log| + 1 }

  // ---------------------------------------------------------------- lookups

  /** object_find matches a number against ids first and any query against names. */
  predicate Matches(o: KObject, query: string) {
    (ParseWhole(query, U32) != 0 && o.id == ParseWhole(query, U32)) || o.name == query
  }

  /** The first match at or after `from`, |objects| when there is none. */
  function FindObject(objects: seq<KObject>, query: string, from: nat): (i: nat)
    requires from <= |objects|
    ensures from <= i <= |objects|
    ensures i < |objects| ==> Matches(objects[i], query)
    ensures forall j :: from <= j < i ==> !Matches(objects[j], query)
    decreases |objects| - from
  {
    if from == |objects| || Matches(objects[from], query) then from else FindObject(objects, query, from + 1)
  }

  function Found(objects: seq<KObject>, query: string): Option<KObject> {
    var i := FindObject(objects, query, 0);
    if i < |objects| then Some(objects[i]) else None
  }

  function ObjectId(objects: seq<KObject>, query: string): nat {
    match Found(objects, query) case None => 0 case Some(o) => o.id
  }

  function Revision(objects: seq<KObject>, query: string): nat {
    match Found(objects, query) case None => 0 case Some(o) => o.revision
  }

  /** transaction_find: the first record with this id, |txs| when there is none. */
  function FindTx(txs: seq<Transaction>, id: nat): (k: nat)
    ensures k <= |txs|
    ensures k < |txs| ==> txs[k].id == id
    ensures forall j :: 0 <= j < k ==> txs[j].id != id
  {
    if txs == [] || txs[0].id == id then 0 else 1 + FindTx(txs[1..], id)
  }

  predicate Known(txs: seq<Transaction>, id: nat) { FindTx(txs, id) < |txs| }

  // ---------------------------------------------------------------- event_record_kind

  /** The record made when an event happens now. */
  function NewEvent(l: Ledger, actor: string, target: string, operation: string, result: EventResult,
                    parent: nat, decision: string, kind: string): Event {
    Event(NextSequence(l), parent, l.tx, ObjectId(l.objects, actor), ObjectId(l.objects, target),
          Revision(l.objects, target), Cut(kind, KIND), Cut(actor, LABEL), Cut(target, LABEL),
          Cut(operation, LABEL), Cut(decision, LABEL), result)
  }

  /** The transaction with this id, if any, now ends at `sequence`. */
  function Touch(txs: seq<Transaction>, id: nat, sequence: nat): (r: seq<Transaction>)
    ensures |r| == |txs|
  {
    var k := FindTx(txs, id);
    if k < |txs| then txs[k := txs[k].(endEvent := sequence)] else txs
  }

  function Append(l: Ledger, e: Event): Ledger {
    l.(log := l.log + [e], txs := Touch(l.txs, e.tx, NextSequence(l)))
  }

  function Record(l: Ledger, actor: string, target: string, operation: string, result: EventResult,
                  parent: nat, decision: string, kind: string): Ledger {
    Append(l, NewEvent(l, actor, target, operation, result, parent, decision, kind))
  }

  // ---------------------------------------------------------------- objects

  function Register(l: Ledger, kind: string, name: string, parentId: nat, state: string, created: nat): (Ledger, nat) {
    if |l.objects| >= OBJECT_CAPACITY then (l, 0)
    else
      match Found(l.objects, name)
      case Some(o) => (l, o.id)
      case None =>
        var o := KObject(|l.objects| + 1, parentId, 1, created, created, Cut(kind, TYPE), Cut(name, LABEL),
                         Cut(state, LABEL));
        (l.(objects := l.objects + [o]), o.id)
  }

  /** The object at i with a new state, one revision on, last touched by `event`. */
  function SetState(objects: seq<KObject>, i: nat, state: string, event: nat): seq<KObject>
    requires i < |objects|
  {
    objects[i := objects[i].(state := Cut(state, LABEL), revision := objects[i].revision + 1, lastEvent := event)]
  }

  /** object_update_state: the revision is already counted in the event that reports it. */
  function UpdateState(l: Ledger, name: string, state: string): Ledger {
    var i := FindObject(l.objects, name, 0);
    if i == |l.objects| then l
    else
      var l1 := l.(objects := SetState(l.objects, i, state, NextSequence(l)));
      Record(l1, "object", l.objects[i].name, "state_update", Ok, l.current, "allow:object-state", "state")
  }

  function SetStateDirect(l: Ledger, name: string, state: string, event: nat): Ledger {
    var i := FindObject(l.objects, name, 0);
    if i == |l.objects| then l else l.(objects := SetState(l.objects, i, state, event))
  }

  // ---------------------------------------------------------------- transactions

  function TransactionName(id: nat): string { Cut("transaction/" + Decimal(id), LABEL) }

  function OpenRecord(l: Ledger, actor: string, target: string, parent: nat): Transaction {
    Transaction(NextSequence(l), parent, NextSequence(l), NextSequence(l), Revision(l.objects, target),
                Revision(l.objects, target), Cut(actor, LABEL), Cut(target, LABEL), Open)
  }

  function Begin(l: Ledger, actor: string, target: string, parent: nat): (Ledger, nat) {
    if |l.txs| >= TRANSACTION_CAPACITY then (l, 0)
    else
      var id := NextSequence(l);
      var l1 := Register(l, "transaction", TransactionName(id), ObjectId(l.objects, "events"), "open", parent).0;
      var l2 := l1.(txs := l1.txs + [OpenRecord(l1, actor, target, parent)], tx := id);
      var l3 := Record(l2, actor, TransactionName(id), "begin", Ok, parent, "allow:transaction", "transaction");
      (l3.(tx := l.tx), id)
  }

  /** transaction_commit and transaction_abort differ in four values only; neither looks at the status. */
  function Close(l: Ledger, id: nat, status: Status, operation: string, result: EventResult, reason: string,
                 state: string)
    : (Ledger, nat)
  {
    var k := FindTx(l.txs, id);
    if k == |l.txs| then (l, 0)
    else
      var t := l.txs[k];
      var l1 := l.(tx := id,
                   txs := l.txs[k := t.(committedRevision := Revision(l.objects, t.target), status := status)]);
      var l2 := Record(l1, t.actor, TransactionName(id), operation, result, t.endEvent, reason, "transaction");
      var l3 := SetStateDirect(l2, TransactionName(id), state, NextSequence(l));
      (l3.(tx := l.tx), NextSequence(l))
  }

  function Commit(l: Ledger, id: nat): (Ledger, nat) {
    Close(l, id, Committed, "commit", Ok, "allow:transaction", "committed")
  }

  function Abort(l: Ledger, id: nat, reason: string): (Ledger, nat) {
    Close(l, id, Aborted, "abort", Denied, reason, "aborted")
  }

  // ---------------------------------------------------------------- what the journal keeps

  /** The last of the first n records tagged with `id`, 0 when there is none. */
  function LastTagged(log: seq<Event>, n: nat, id: nat): (s: nat)
    requires n <= |log|
    ensures s <= n
    ensures s > 0 ==> log[s - 1].tx == id
    ensures forall i :: s <= i < n ==> log[i].tx != id
  {
    if n == 0 then 0 else if log[n - 1].tx == id then n else LastTagged(log, n - 1, id)
  }

  predicate IsClose(e: Event) { e.kind == "transaction" && (e.operation == "commit" || e.operation == "abort") }

  /** A commit or abort record is caused by the last record its transaction had before it. */
  predicate CloseFollows(log: seq<Event>, i: nat)
    requires i < |log|
  {
    IsClose(log[i]) ==> log[i].parent == LastTagged(log, i, log[i].tx)
  }

  predicate TagOk(txs: seq<Transaction>, e: Event) { e.tx != 0 ==> Known(txs, e.tx) && e.tx <= e.sequence }

  predicate Ascending(txs: seq<Transaction>) { forall i, j :: 0 <= i < j < |txs| ==> txs[i].id < txs[j].id }

  /** The event that begins a transaction names it and says who began it and why. */
  predicate Begins(e: Event, t: Transaction) {
    && e.tx == t.id && e.kind == "transaction" && e.operation == "begin" && e.result == Ok
    && e.target == Cut("transaction/" + Decimal(t.id), 47)
    && e.actor == t.actor && e.parent == t.parentEvent && e.decision == "allow:transaction"
  }

  /** A transaction's record agrees with the log. */
  predicate RecordAgrees(log: seq<Event>, t: Transaction) {
    && 1 <= t.id <= |log|
    && t.beginEvent == t.id
    && Begins(log[t.id - 1], t)
    && t.endEvent == LastTagged(log, |log|, t.id)
  }

  predicate LogOk(log: seq<Event>) {
    && Numbered(log)
    && Causal(log)
    && forall i: nat :: i < |log| ==> CloseFollows(log, i)
  }

  predicate TagsOk(log: seq<Event>, txs: seq<Transaction>) {
    forall i {:trigger log[i]} :: 0 <= i < |log| ==> TagOk(txs, log[i])
  }

  predicate TableOk(log: seq<Event>, txs: seq<Transaction>) {
    && Ascending(txs)
    && forall k {:trigger txs[k]} :: 0 <= k < |txs| ==> RecordAgrees(log, txs[k])
  }

  predicate JournalOk(l: Ledger) {
    && LogOk(l.log)
    && TagsOk(l.log, l.txs)
    && TableOk(l.log, l.txs)
    && l.current <= |l.log|
    && (l.tx == 0 || Known(l.txs, l.tx))
  }

  lemma {:induction false} LastTaggedPrefix(log: seq<Event>, e: Event, n: nat, id: nat)
    requires n <= |log|
    ensures LastTagged(log + [e], n, id) == LastTagged(log, n, id)
  {
    if n > 0 {
      LastTaggedPrefix(log, e, n - 1, id);
    }
  }

  lemma LogGrows(log: seq<Event>, e: Event)
    requires LogOk(log)
    requires e.sequence == |log| + 1 && e.parent <= |log|
    requires IsClose(e) ==> e.parent == LastTagged(log, |log|, e.tx)
    ensures LogOk(log + [e])
  {
    forall i: nat | i < |log + [e]|
      ensures CloseFollows(log + [e], i)
    {
      LastTaggedPrefix(log, e, i, (log + [e])[i].tx);
      assert i < |log| ==> CloseFollows(log, i);
    }
  }

  /** Adding records at the end, or touching records in place, loses no id. */
  lemma {:induction false} KnownByIds(txs: seq<Transaction>, txs': seq<Transaction>, id: nat)
    requires |txs| <= |txs'| && forall k :: 0 <= k < |txs| ==> txs'[k].id == txs[k].id
    requires Known(txs, id)
    ensures FindTx(txs', id) == FindTx(txs, id)
  {
    if txs[0].id != id {
      KnownByIds(txs[1..], txs'[1..], id);
    }
  }

  lemma TagsKept(log: seq<Event>, txs: seq<Transaction>, txs': seq<Transaction>)
    requires TagsOk(log, txs)
    requires |txs| <= |txs'| && forall k :: 0 <= k < |txs| ==> txs'[k].id == txs[k].id
    ensures TagsOk(log, txs')
  {
    forall i | 0 <= i < |log|
      ensures TagOk(txs', log[i])
    {
      if log[i].tx != 0 {
        KnownByIds(txs, txs', log[i].tx);
      }
    }
  }

  lemma AppendRecord(log: seq<Event>, e: Event, t: Transaction)
    requires RecordAgrees(log, t)
    ensures RecordAgrees(log + [e], if e.tx == t.id then t.(endEvent := |log| + 1) else t)
  {
    LastTaggedPrefix(log, e, |log|, t.id);
  }

  lemma AscendingIds(txs: seq<Transaction>, k: nat)
    requires Ascending(txs) && k < |txs|
    ensures FindTx(txs, txs[k].id) == k
  {
    var j := FindTx(txs, txs[k].id);
    assert j <= k;
  }

  lemma TableGrows(log: seq<Event>, txs: seq<Transaction>, e: Event)
    requires TableOk(log, txs)
    ensures TableOk(log + [e], Touch(txs, e.tx, |log| + 1))
  {
    var txs' := Touch(txs, e.tx, |log| + 1);
    forall k | 0 <= k < |txs'|
      ensures RecordAgrees(log + [e], txs'[k]) && txs'[k].id == txs[k].id
    {
      AppendRecord(log, e, txs[k]);
      AscendingIds(txs, k);
    }
  }

  /** Recording any event of a known transaction keeps the journal in order. */
  lemma AppendKeepsOk(l: Ledger, e: Event)
    requires JournalOk(l)
    requires e.sequence == NextSequence(l) && e.parent <= |l.log|
    requires e.tx == 0 || Known(l.txs, e.tx)
    requires IsClose(e) ==> e.parent == LastTagged(l.log, |l.log|, e.tx)
    ensures JournalOk(Append(l, e))
  {
    hide LogOk, TableOk;
    var txs' := Touch(l.txs, e.tx, NextSequence(l));
    assert forall k :: 0 <= k < |l.txs| ==> txs'[k].id == l.txs[k].id;
    LogGrows(l.log, e);
    TableGrows(l.log, l.txs, e);
    TagsKept(l.log, l.txs, txs');
    if e.tx != 0 {
      KnownByIds(l.txs, txs', e.tx);
      KnownTagIsPast(l, e.tx);
    }
    if l.tx != 0 {
      KnownByIds(l.txs, txs', l.tx);
    }
  }

  lemma KnownTagIsPast(l: Ledger, id: nat)
    requires TableOk(l.log, l.txs) && Known(l.txs, id)
    ensures 1 <= id <= |l.log|
  {
    assert RecordAgrees(l.log, l.txs[FindTx(l.txs, id)]);
  }

  lemma RegisterKeepsOk(l: Ledger, kind: string, name: string, parentId: nat, state: string, created: nat)
    requires JournalOk(l)
    ensures var l' := Register(l, kind, name, parentId, state, created).0;
            JournalOk(l') && l'.log == l.log && l'.txs == l.txs && l'.tx == l.tx && l'.current == l.current
  {
    hide LogOk, TagsOk, TableOk, Found;
  }

  lemma RecordKeepsOk(l: Ledger, actor: string, target: string, operation: string, result: EventResult,
                      parent: nat, decision: string, kind: string)
    requires JournalOk(l) && parent <= |l.log|
    requires Cut(kind, KIND) == "transaction" ==> operation == "begin" || parent == LastTagged(l.log, |l.log|, l.tx)
    ensures JournalOk(Record(l, actor, target, operation, result, parent, decision, kind))
  {
    AppendKeepsOk(l, NewEvent(l, actor, target, operation, result, parent, decision, kind));
  }

  lemma UpdateKeepsOk(l: Ledger, name: string, state: string)
    requires JournalOk(l)
    ensures JournalOk(UpdateState(l, name, state))
  {
    var i := FindObject(l.objects, name, 0);
    if i < |l.objects| {
      var l1 := l.(objects := SetState(l.objects, i, state, NextSequence(l)));
      assert JournalOk(l1);
      assert |"state"| <= KIND;
      RecordKeepsOk(l1, "object", l.objects[i].name, "state_update", Ok, l.current, "allow:object-state", "state");
    }
  }

  /** transaction_begin: the new record's id is the sequence of its own begin event. */
  lemma BeginKeepsOk(l: Ledger, actor: string, target: string, parent: nat)
    requires JournalOk(l) && parent <= |l.log|
    ensures var (l', id) := Begin(l, actor, target, parent);
            && JournalOk(l')
            && l'.tx == l.tx && l'.current == l.current
            && (id == 0 <==> |l.txs| >= TRANSACTION_CAPACITY)
            && (id == 0 ==> l' == l)
            && (id != 0 ==> id == NextSequence(l) == |l'.log| && |l'.txs| == |l.txs| + 1
                            && l'.txs[..|l.txs|] == l.txs && l'.txs[|l.txs|].id == id && l'.txs[|l.txs|].status == Open)
  {
    if |l.txs| < TRANSACTION_CAPACITY {
      var id := NextSequence(l);
      var l1 := Register(l, "transaction", TransactionName(id), ObjectId(l.objects, "events"), "open", parent).0;
      RegisterKeepsOk(l, "transaction", TransactionName(id), ObjectId(l.objects, "events"), "open", parent);
      var l2 := l1.(txs := l1.txs + [OpenRecord(l1, actor, target, parent)], tx := id);
      var e := NewEvent(l2, actor, TransactionName(id), "begin", Ok, parent, "allow:transaction", "transaction");
      OpenedTable(l1, OpenRecord(l1, actor, target, parent), e);
    }
  }

  lemma NewIdIsLast(l: Ledger, t: Transaction)
    requires TableOk(l.log, l.txs) && t.id == NextSequence(l)
    ensures Ascending(l.txs + [t]) && FindTx(l.txs + [t], t.id) == |l.txs|
  {
    var txs := l.txs + [t];
    assert forall k :: 0 <= k < |l.txs| ==> RecordAgrees(l.log, l.txs[k]);
    assert Ascending(txs);
    AscendingIds(txs, |l.txs|);
  }

  /** The record of a transaction just begun, and the event that begins it. */
  lemma BeginRecords(l: Ledger, actor: string, target: string, parent: nat)
    requires JournalOk(l) && |l.txs| < 32
    ensures var (l', id) := Begin(l, actor, target, parent);
            && id == |l.log| + 1 && |l'.log| == |l.log| + 1 && l'.log[..|l.log|] == l.log
            && l'.txs[..|l.txs|] == l.txs && |l'.txs| == |l.txs| + 1
            && var t := l'.txs[|l.txs|];
               && t.id == t.beginEvent == t.endEvent == id && t.parentEvent == parent && t.status == Open
               && t.actor == Cut(actor, 47) && t.target == Cut(target, 47)
               && Begins(l'.log[|l.log|], t) && l'.log[|l.log|].sequence == id
  {
    hide Found, Decimal, LogOk, TagsOk, RecordAgrees;
    var id := NextSequence(l);
    var l1 := Register(l, "transaction", TransactionName(id), ObjectId(l.objects, "events"), "open", parent).0;
    assert l1.txs == l.txs && l1.log == l.log;
    var t := OpenRecord(l1, actor, target, parent);
    NewIdIsLast(l1, t);
  }

  lemma OpenedTable(l: Ledger, t: Transaction, e: Event)
    requires JournalOk(l)
    requires t.id == NextSequence(l) && t.beginEvent == t.id && t.endEvent == t.id && t.status == Open
    requires e.tx == t.id && e.sequence == t.id && e.parent <= |l.log|
    requires Begins(e, t)
    ensures var txs := Touch(l.txs + [t], t.id, NextSequence(l));
            && txs == l.txs + [t]
            && LogOk(l.log + [e]) && TagsOk(l.log + [e], txs) && TableOk(l.log + [e], txs)
            && Known(txs, t.id) && (l.tx != 0 ==> Known(txs, l.tx))
  {
    hide LogOk, RecordAgrees;
    NewIdIsLast(l, t);
    var txs := l.txs + [t];
    LogGrows(l.log, e);
    TagsKept(l.log, l.txs, txs);
    if l.tx != 0 {
      KnownByIds(l.txs, txs, l.tx);
    }
    forall k | 0 <= k < |txs|
      ensures RecordAgrees(l.log + [e], txs[k])
    {
      if k < |l.txs| {
        AppendRecord(l.log, e, l.txs[k]);
      } else {
        FreshRecord(l.log, e, t);
      }
    }
  }

  lemma FreshRecord(log: seq<Event>, e: Event, t: Transaction)
    requires t.id == |log| + 1 && t.beginEvent == t.id && t.endEvent == t.id
    requires Begins(e, t)
    ensures RecordAgrees(log + [e], t)
  {
  }

  lemma SettledRecords(log: seq<Event>, txs: seq<Transaction>, txs': seq<Transaction>)
    requires TableOk(log, txs) && |txs'| == |txs|
    requires forall j {:trigger txs'[j]} :: 0 <= j < |txs| ==>
               && txs'[j].id == txs[j].id && txs'[j].beginEvent == txs[j].beginEvent
               && txs'[j].endEvent == txs[j].endEvent && txs'[j].actor == txs[j].actor
               && txs'[j].parentEvent == txs[j].parentEvent
    ensures TableOk(log, txs')
  {
    hide LastTagged;
    forall j | 0 <= j < |txs'|
      ensures RecordAgrees(log, txs'[j])
    {
      assert RecordAgrees(log, txs[j]);
    }
  }

  /** Closing fields of a record are not part of what the journal agrees on. */
  lemma SettledTable(l: Ledger, k: nat, committed: nat, status: Status)
    requires JournalOk(l) && k < |l.txs|
    ensures var txs := l.txs[k := l.txs[k].(committedRevision := committed, status := status)];
            && JournalOk(l.(txs := txs))
            && (forall id: nat :: Known(l.txs, id) ==> FindTx(txs, id) == FindTx(l.txs, id))
  {
    var txs := l.txs[k := l.txs[k].(committedRevision := committed, status := status)];
    TagsKept(l.log, l.txs, txs);
    SettledRecords(l.log, l.txs, txs);
    hide LogOk, TagsOk, TableOk;
    forall id: nat | Known(l.txs, id)
      ensures FindTx(txs, id) == FindTx(l.txs, id)
    {
      KnownByIds(l.txs, txs, id);
    }
  }

  /** transaction_commit and transaction_abort: the closing event follows the transaction's last one. */
  lemma CloseKeepsOk(l: Ledger, id: nat, status: Status, operation: string, result: EventResult, reason: string,
                     state: string)
    requires JournalOk(l)
    ensures var (l', closing) := Close(l, id, status, operation, result, reason, state);
            && JournalOk(l')
            && (closing == 0 <==> !Known(l.txs, id))
            && (closing == 0 ==> l' == l)
  {
    hide LogOk, TagsOk, Found, TransactionName, Begins;
    var k := FindTx(l.txs, id);
    if k < |l.txs| {
      var t := l.txs[k];
      assert RecordAgrees(l.log, t);
      SettledTable(l, k, Revision(l.objects, t.target), status);
      var l1 := l.(txs := l.txs[k := t.(committedRevision := Revision(l.objects, t.target), status := status)]);
      var e := NewEvent(l1.(tx := id), t.actor, TransactionName(id), operation, result, t.endEvent, reason,
                        "transaction");
      AppendKeepsOk(l1, e);
    }
  }

  /** The event that closes a transaction names it and says how it ended. */
  predicate Closes(e: Event, id: nat, ok: bool) {
    && e.tx == id && e.kind == "transaction" && e.target == Cut("transaction/" + Decimal(id), 47)
    && e.operation == (if ok then "commit" else "abort") && e.result == (if ok then Ok else Denied)
  }

  /** transaction_commit and transaction_abort append that one event, by the transaction's actor and caused by
      its last event; the record says so, with the revision of its target at the end. */
  lemma CommitRecords(l: Ledger, id: nat)
    requires Known(l.txs, id)
    ensures var l', t := Commit(l, id).0, l.txs[FindTx(l.txs, id)];
            && ClosedBy(l, l', t, true, "allow:transaction")
            && l'.txs == l.txs[FindTx(l.txs, id) := t.(committedRevision := Revision(l.objects, t.target),
                                                       status := Committed, endEvent := |l.log| + 1)]
  {
    CloseLeaves(l, id, Committed, "commit", Ok, "allow:transaction", "committed");
    hide Revision, Close;
  }

  lemma AbortRecords(l: Ledger, id: nat, reason: string)
    requires Known(l.txs, id)
    ensures var l', t := Abort(l, id, reason).0, l.txs[FindTx(l.txs, id)];
            && ClosedBy(l, l', t, false, reason)
            && l'.txs == l.txs[FindTx(l.txs, id) := t.(committedRevision := Revision(l.objects, t.target),
                                                       status := Aborted, endEvent := |l.log| + 1)]
  {
    CloseLeaves(l, id, Aborted, "abort", Denied, reason, "aborted");
    hide Revision, Close;
  }

  predicate ClosedBy(l: Ledger, l': Ledger, t: Transaction, ok: bool, reason: string) {
    && |l'.log| == |l.log| + 1 && l'.log[..|l.log|] == l.log
    && var e := l'.log[|l.log|];
       && Closes(e, t.id, ok) && e.sequence == |l.log| + 1 && e.parent == t.endEvent
       && e.actor == Cut(t.actor, 47) && e.decision == Cut(reason, 47)
  }

  lemma CloseLeaves(l: Ledger, id: nat, status: Status, operation: string, result: EventResult, reason: string,
                    state: string)
    requires Known(l.txs, id)
    ensures var l' := Close(l, id, status, operation, result, reason, state).0;
            var k := FindTx(l.txs, id);
            var t := l.txs[k];
            && |l'.log| == |l.log| + 1 && l'.log[..|l.log|] == l.log && l'.tx == l.tx && l'.current == l.current
            && l'.txs == l.txs[k := t.(committedRevision := Revision(l.objects, t.target), status := status,
                                       endEvent := |l.log| + 1)]
            && var e := l'.log[|l.log|];
               && e.sequence == |l.log| + 1 && e.parent == t.endEvent && e.tx == id
               && e.kind == "transaction" && e.target == Cut("transaction/" + Decimal(id), 47)
               && e.operation == Cut(operation, 47) && e.result == result
               && e.actor == Cut(t.actor, 47) && e.decision == Cut(reason, 47)
  {
    hide Found, Revision, Decimal;
    var k := FindTx(l.txs, id);
    var t := l.txs[k];
    var txs := l.txs[k := t.(committedRevision := Revision(l.objects, t.target), status := status)];
    KnownByIds(l.txs, txs, id);
  }

  // ---------------------------------------------------------------- runs

  /** What the callers of event.c and object.c do to the journal. */
  datatype Op =
    | RecordOp(actor: string, target: string, operation: string, result: EventResult, parent: nat, decision: string,
               kind: string)
    | RegisterOp(kind: string, name: string, parentId: nat, state: string, created: nat)
    | UpdateOp(name: string, state: string)
    | SetCurrentOp(sequence: nat)
    | SetTxOp(id: nat)
    | BeginOp(actor: string, target: string, parent: nat)
    | CommitOp(id: nat)
    | AbortOp(id: nat, reason: string)

  function Apply(l: Ledger, op: Op): Ledger {
    match op
    case RecordOp(actor, target, operation, result, parent, decision, kind) =>
      Record(l, actor, target, operation, result, parent, decision, kind)
    case RegisterOp(kind, name, parentId, state, created) => Register(l, kind, name, parentId, state, created).0
    case UpdateOp(name, state) => UpdateState(l, name, state)
    case SetCurrentOp(sequence) => l.(current := sequence)
    case SetTxOp(id) => l.(tx := id)
    case BeginOp(actor, target, parent) => Begin(l, actor, target, parent).0
    case CommitOp(id) => Commit(l, id).0
    case AbortOp(id, reason) => Abort(l, id, reason).0
  }

  /** The callers' discipline: causes and current events are past events, the current transaction is
      none or one that was begun, parents of objects are past objects, and only event.c itself uses
      the kind "transaction". */
  predicate Disciplined(l: Ledger, op: Op) {
    match op
    case RecordOp(_, _, _, _, parent, _, kind) => parent <= |l.log| && Cut(kind, KIND) != "transaction"
    case RegisterOp(_, name, parentId, _, created) => |name| <= LABEL && parentId <= |l.objects| && created <= |l.log|
    case SetCurrentOp(sequence) => sequence <= |l.log|
    case SetTxOp(id) => id == 0 || Known(l.txs, id)
    case BeginOp(_, target, parent) => |target| <= LABEL && parent <= |l.log|
    case _ => true
  }

  function ApplyAll(l: Ledger, ops: seq<Op>): Ledger
    decreases |ops|
  {
    if ops == [] then l else ApplyAll(Apply(l, ops[0]), ops[1..])
  }

  predicate AllDisciplined(l: Ledger, ops: seq<Op>)
    decreases |ops|
  {
    ops == [] || (Disciplined(l, ops[0]) && AllDisciplined(Apply(l, ops[0]), ops[1..]))
  }

  lemma StepKeepsOk(l: Ledger, op: Op)
    requires JournalOk(l) && Disciplined(l, op)
    ensures JournalOk(Apply(l, op))
  {
    hide LogOk, TagsOk, TableOk, Record, Begin, Close, UpdateState;
    match op
    case RecordOp(actor, target, operation, result, parent, decision, kind) =>
      RecordKeepsOk(l, actor, target, operation, result, parent, decision, kind);
    case RegisterOp(kind, name, parentId, state, created) =>
      RegisterKeepsOk(l, kind, name, parentId, state, created);
    case UpdateOp(name, state) => UpdateKeepsOk(l, name, state);
    case BeginOp(actor, target, parent) => BeginKeepsOk(l, actor, target, parent);
    case CommitOp(id) => CloseKeepsOk(l, id, Committed, "commit", Ok, "allow:transaction", "committed");
    case AbortOp(id, reason) => CloseKeepsOk(l, id, Aborted, "abort", Denied, reason, "aborted");
    case _ =>
  }

  lemma {:induction false} RunsKeepOk(l: Ledger, ops: seq<Op>)
    requires JournalOk(l) && AllDisciplined(l, ops)
    ensures JournalOk(ApplyAll(l, ops))
    decreases |ops|
  {
    if ops != [] {
      StepKeepsOk(l, ops[0]);
      RunsKeepOk(Apply(l, ops[0]), ops[1..]);
    }
  }

  lemma ReachableOk(ops: seq<Op>)
    requires AllDisciplined(EMPTY, ops)
    ensures JournalOk(ApplyAll(EMPTY, ops))
  {
    RunsKeepOk(EMPTY, ops);
  }

  /** In every reachable state the transaction table agrees with the log.  A transaction's id is the
      sequence of its own begin event and its end event is tagged with it; ids are distinct. */
  lemma TransactionsAgreeWithLog(ops: seq<Op>, k: nat)
    requires AllDisciplined(EMPTY, ops) && k < |ApplyAll(EMPTY, ops).txs|
    ensures var l := ApplyAll(EMPTY, ops);
            var t := l.txs[k];
            && 0 < t.id == t.beginEvent <= t.endEvent <= |l.log|
            && l.log[t.id - 1].operation == "begin" && l.log[t.id - 1].tx == t.id
            && l.log[t.endEvent - 1].tx == t.id
            && (forall j :: 0 <= j < |l.txs| && j != k ==> l.txs[j].id != t.id)
  {
    hide LogOk, TagsOk;
    ReachableOk(ops);
    assert RecordAgrees(ApplyAll(EMPTY, ops).log, ApplyAll(EMPTY, ops).txs[k]);
  }

  /** Every event tagged with a transaction lies between its begin and end events, the end being the
      last such event; and a commit or abort event is caused by the one that was last before it. */
  lemma TaggedEventsLieWithin(ops: seq<Op>, i: nat)
    requires AllDisciplined(EMPTY, ops) && i < |ApplyAll(EMPTY, ops).log|
    ensures var l := ApplyAll(EMPTY, ops);
            var e := l.log[i];
            && (e.tx != 0 ==>
                  && Known(l.txs, e.tx)
                  && l.txs[FindTx(l.txs, e.tx)].beginEvent <= e.sequence <= l.txs[FindTx(l.txs, e.tx)].endEvent)
            && (IsClose(e) ==> e.parent == LastTagged(l.log, i, e.tx))
  {
    ReachableOk(ops);
    var l := ApplyAll(EMPTY, ops);
    assert CloseFollows(l.log, i);
    assert TagOk(l.txs, l.log[i]);
    if l.log[i].tx != 0 {
      assert RecordAgrees(l.log, l.txs[FindTx(l.txs, l.log[i].tx)]);
    }
  }

  /** In every reachable state causes precede their effects, so event_print_chain terminates. */
  lemma CausesPrecedeEffects(ops: seq<Op>)
    requires AllDisciplined(EMPTY, ops)
    ensures Numbered(ApplyAll(EMPTY, ops).log) && Causal(ApplyAll(EMPTY, ops).log)
  {
    ReachableOk(ops);
  }

  // ---------------------------------------------------------------- names of transactions

  /** "transaction/<id>" read back, as event_print_transaction_name does; 0 for any other name. */
  function TransactionId(name: string): nat {
    if "transaction/" <= name then ParseWhole(name[12..], U64) else 0
  }

  /** The name of every 64-bit transaction id fits its buffer and gives the id back. */
  lemma TransactionNameRoundTrip(id: nat)
    requires id < U64
    ensures |"transaction/" + Decimal(id)| <= LABEL
    ensures TransactionId(TransactionName(id)) == id
  {
    Widths();
    DecimalLength(id, 20);
    ParseDecimal(id, U64);
    assert TransactionName(id)[12..] == Decimal(id);
  }
}
