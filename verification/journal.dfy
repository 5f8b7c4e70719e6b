/** The static state of kernel/event.c and kernel/object.c and the procedures that change it. */
module Journal {
  import opened Text
  import opened EventRing
  import opened Ledger

  class Journal {
    const ring: Ring
    var nextSequence: nat
    var current: nat
    var tx: nat
    var txs: seq<Transaction>
    var objects: seq<KObject>

    ghost predicate Valid()
      reads this, ring, ring.entries
    {
      ring.Valid() && nextSequence == |ring.log| + 1
    }

    ghost function State(): Ledger
      reads this, ring
    {
      Ledger(ring.log, current, tx, txs, objects)
    }

    /** event_init, and an empty registry. */
    constructor ()
      ensures Valid() && fresh(ring) && fresh(ring.entries) && State() == EMPTY
    {
      ring := new Ring();
      nextSequence, current, tx, txs, objects := 1, 0, 0, [], [];
    }

    method Find(query: string) returns (i: nat)
      ensures i == FindObject(objects, query, 0)
    {
      var id := ParseNumber(query, U32);
      i := 0;
      while i < |objects|
        invariant i <= |objects| && FindObject(objects, query, 0) == FindObject(objects, query, i)
      {
        if (id != 0 && objects[i].id == id) || objects[i].name == query {
          return;
        }
        i := i + 1;
      }
    }

    method IdOf(query: string) returns (id: nat)
      ensures id == ObjectId(objects, query)
    {
      var i := Find(query);
      id := if i < |objects| then objects[i].id else 0;
    }

    method RevisionOf(query: string) returns (revision: nat)
      ensures revision == Revision(objects, query)
    {
      var i := Find(query);
      revision := if i < |objects| then objects[i].revision else 0;
    }

    method FindTransaction(id: nat) returns (k: nat)
      ensures k == FindTx(txs, id)
    {
      k := 0;
      assert txs[0..] == txs;
      while k < |txs| && txs[k].id != id
        invariant k <= |txs| && FindTx(txs, id) == k + FindTx(txs[k..], id)
      {
        assert txs[k..][1..] == txs[k + 1..];
        k := k + 1;
      }
    }

    method RecordEvent(actor: string, target: string, operation: string, result: EventResult,
                       parent: nat, decision: string, kind: string) returns (sequence: nat)
      requires Valid()
      modifies this`nextSequence, this`txs, ring, ring.entries
      ensures Valid()
      ensures State() == Record(old(State()), actor, target, operation, result, parent, decision, kind)
      ensures sequence == NextSequence(old(State()))
    {
      hide Found, FindTx;
      var actorId := IdOf(actor);
      var targetId := IdOf(target);
      var revision := RevisionOf(target);
      sequence := nextSequence;
      nextSequence := nextSequence + 1;
      ring.Push(Event(sequence, parent, tx, actorId, targetId, revision, Cut(kind, KIND), Cut(actor, LABEL),
                      Cut(target, LABEL), Cut(operation, LABEL), Cut(decision, LABEL), result));
      var k := FindTransaction(tx);
      if k < |txs| {
        txs := txs[k := txs[k].(endEvent := sequence)];
      }
    }

    method RegisterObject(kind: string, name: string, parentId: nat, state: string, created: nat) returns (id: nat)
      requires Valid()
      modifies this`objects
      ensures Valid()
      ensures (State(), id) == Register(old(State()), kind, name, parentId, state, created)
    {
      if |objects| >= OBJECT_CAPACITY {
        return 0;
      }
      var i := Find(name);
      if i < |objects| {
        return objects[i].id;
      }
      id := |objects| + 1;
      objects := objects + [KObject(id, parentId, 1, created, created, Cut(kind, TYPE), Cut(name, LABEL),
                                    Cut(state, LABEL))];
    }

    method UpdateObject(name: string, state: string)
      requires Valid()
      modifies this`nextSequence, this`txs, this`objects, ring, ring.entries
      ensures Valid()
      ensures State() == UpdateState(old(State()), name, state)
    {
      hide Record;
      var i := Find(name);
      if i == |objects| {
        return;
      }
      // The event reports the revision it brings about; its own sequence is the object's last event.
      objects := SetState(objects, i, state, nextSequence);
      var _ := RecordEvent("object", objects[i].name, "state_update", Ok, current, "allow:object-state", "state");
    }

    method SetObjectState(name: string, state: string, event: nat)
      requires Valid()
      modifies this`objects
      ensures Valid()
      ensures State() == SetStateDirect(old(State()), name, state, event)
    {
      var i := Find(name);
      if i < |objects| {
        objects := SetState(objects, i, state, event);
      }
    }

    /** transaction_name and build_transaction_target: the prefix and the id appended to a 48-character buffer. */
    static method NameTransaction(id: nat) returns (name: string)
      requires id < U64
      ensures name == TransactionName(id)
    {
      var buffer := new TextBuffer(LABEL + 1);
      buffer.AppendText("transaction/");
      assert buffer.Contents() == "transaction/";
      buffer.AppendDecimal(id, 20);
      name := buffer.data[..buffer.position];
    }

    method BeginTransaction(actor: string, target: string, parent: nat) returns (id: nat)
      requires Valid() && nextSequence < U64
      modifies this, ring, ring.entries
      ensures Valid()
      ensures (State(), id) == Begin(old(State()), actor, target, parent)
    {
      hide Record, Register, TransactionName, Cut, Revision, ObjectId;
      if |txs| >= TRANSACTION_CAPACITY {
        return 0;
      }
      var previous := tx;
      id := nextSequence;
      var name := NameTransaction(id);
      var events := IdOf("events");
      assert Register(State(), "transaction", name, events, "open", parent).0.log == State().log
          by { RegisterKeepsLog(State(), "transaction", name, events, "open", parent); }
      var _ := RegisterObject("transaction", name, events, "open", parent);
      var revision := RevisionOf(target);
      txs := txs + [Transaction(id, parent, id, id, revision, revision, Cut(actor, LABEL), Cut(target, LABEL), Open)];
      tx := id;
      id := RecordEvent(actor, name, "begin", Ok, parent, "allow:transaction", "transaction");
      tx := previous;
    }

    method CloseTransaction(id: nat, status: Status, operation: string, result: EventResult, reason: string,
                            state: string)
      returns (closing: nat)
      requires Valid() && id < U64
      modifies this, ring, ring.entries
      ensures Valid()
      ensures (State(), closing) == Close(old(State()), id, status, operation, result, reason, state)
    {
      hide Record, SetStateDirect, TransactionName;
      var k := FindTransaction(id);
      if k == |txs| {
        return 0;
      }
      var previous := tx;
      tx := id;
      var t := txs[k];
      var revision := RevisionOf(t.target);
      txs := txs[k := t.(committedRevision := revision, status := status)];
      var name := NameTransaction(id);
      closing := RecordEvent(t.actor, name, operation, result, t.endEvent, reason, "transaction");
      SetObjectState(name, state, closing);
      tx := previous;
    }
  }

  lemma RegisterKeepsLog(l: Ledger, kind: string, name: string, parentId: nat, state: string, created: nat)
    ensures var l' := Register(l, kind, name, parentId, state, created).0;
            l' == l.(objects := l'.objects)
  {
  }
}
