/** What the kernel's operations leave in the journal, event by event. */
module Transcript {
  import opened Text
  import opened EventRing
  import opened Ledger
  import opened Kernel
  import opened Commands
  import opened Scripts
  import opened TransactionObjects
  import P = Policy

  /** An event as it was asked for: its texts before they are cut to their fields. */
  datatype Entry = Entry(actor: string, target: string, operation: string, result: EventResult, decision: string,
                         kind: string, parent: nat, tx: nat)

  predicate Shows(e: Event, x: Entry) {
    && e.actor == Cut(x.actor, 47) && e.target == Cut(x.target, 47) && e.operation == Cut(x.operation, 47)
    && e.result == x.result && e.decision == Cut(x.decision, 47) && e.kind == Cut(x.kind, 23)
    && e.parent == x.parent && e.tx == x.tx
  }

  /** From l to l' the log gains these events, in this order. */
  ghost predicate Leaves(l: Ledger, l': Ledger, entries: seq<Entry>) {
    && |l'.log| == |l.log| + |entries| && l.log <= l'.log
    && forall i {:trigger entries[i]} :: 0 <= i < |entries| ==> Shows(l'.log[|l.log| + i], entries[i])
  }

  lemma LeavesNothing(l: Ledger, l': Ledger)
    requires l'.log == l.log
    ensures Leaves(l, l', [])
  {
  }

  lemma Together(l: Ledger, l1: Ledger, l2: Ledger, a: seq<Entry>, b: seq<Entry>)
    requires Leaves(l, l1, a) && Leaves(l1, l2, b)
    ensures Leaves(l, l2, a + b)
  {
    hide Shows;
    forall i | 0 <= i < |a + b|
      ensures Shows(l2.log[|l.log| + i], (a + b)[i])
    {
      if i < |a| {
        assert l2.log[|l.log| + i] == l1.log[|l.log| + i];
        assert Shows(l1.log[|l.log| + i], a[i]);
      } else {
        assert Shows(l2.log[|l1.log| + (i - |a|)], b[i - |a|]);
      }
    }
  }

  // ---------------------------------------------------------------- the journal's own operations

  lemma RecordLeaves(l: Ledger, actor: string, target: string, operation: string, result: EventResult,
                     parent: nat, decision: string, kind: string)
    ensures Leaves(l, Record(l, actor, target, operation, result, parent, decision, kind),
                   [Entry(actor, target, operation, result, decision, kind, parent, l.tx)])
  {
    hide Found, Touch, Cut;
  }

  lemma FoundByName(objects: seq<KObject>, name: string)
    requires !AllDigits(name)
    ensures FindObject(objects, name, 0) < |objects| <==> HasObject(objects, name)
    ensures FindObject(objects, name, 0) < |objects| ==> objects[FindObject(objects, name, 0)].name == name
  {
    assert forall i {:trigger objects[i]} :: 0 <= i < |objects| ==>
      (Matches(objects[i], name) <==> objects[i].name == name);
  }

  /** object_update_state records one event when there is such an object. */
  lemma UpdateLeaves(l: Ledger, name: string, state: string)
    requires !AllDigits(name)
    ensures Leaves(l, UpdateState(l, name, state),
                   if HasObject(l.objects, name) then
                     [Entry("object", name, "state_update", Ok, "allow:object-state", "state", l.current, l.tx)]
                   else [])
  {
    FoundByName(l.objects, name);
    var i := FindObject(l.objects, name, 0);
    hide FindObject, HasObject, Record, SetState;
    if i < |l.objects| {
      var l1 := l.(objects := SetState(l.objects, i, state, NextSequence(l)));
      RecordLeaves(l1, "object", l.objects[i].name, "state_update", Ok, l.current, "allow:object-state", "state");
    } else {
      LeavesNothing(l, l);
    }
  }

  /** The name of a transaction in the journal. */
  function Transact(id: nat): string { "transaction/" + Decimal(id) }

  lemma BeginLeaves(l: Ledger, actor: string, target: string, parent: nat)
    requires JournalOk(l)
    ensures var (l', id) := Begin(l, actor, target, parent);
            if |l.txs| < 32 then
              && id == |l.log| + 1
              && Leaves(l, l',
                        [Entry(actor, Transact(id), "begin", Ok, "allow:transaction", "transaction", parent, id)])
            else id == 0 && l' == l
  {
    if |l.txs| < 32 {
      BeginRecords(l, actor, target, parent);
    }
    hide Begin, JournalOk, Decimal;
  }

  /** The closing event: by the actor of the transaction, caused by its last event. */
  lemma EndLeaves(l: Ledger, id: nat, ok: bool, reason: string)
    requires Known(l.txs, id)
    ensures var l' := if ok then Commit(l, id).0 else Abort(l, id, reason).0;
            var t := l.txs[FindTx(l.txs, id)];
            Leaves(l, l', [Entry(t.actor, Transact(id), if ok then "commit" else "abort", if ok then Ok else Denied,
                                 if ok then "allow:transaction" else reason, "transaction", t.endEvent, id)])
  {
    CommitRecords(l, id);
    AbortRecords(l, id, reason);
    hide Commit, Abort, Decimal, FindTx, Revision;
  }

  // ---------------------------------------------------------------- notes and checks

  lemma NoteLeaves(k: Kernel, actor: string, target: string, operation: string, result: EventResult,
                   parent: nat, decision: string, kind: string)
    ensures var k' := Note(k, actor, target, operation, result, parent, decision, kind);
            && Leaves(k.l, k'.l, [Entry(actor, target, operation, result, decision, kind, parent, k.l.tx)])
            && k'.l.current == k.l.current && k'.l.tx == k.l.tx && k'.p == k.p && k'.config == k.config
            && k'.l.objects == k.l.objects
  {
    RecordLeaves(k.l, actor, target, operation, result, parent, decision, kind);
    hide Found, Touch, Cut, Leaves;
  }

  /** The event of a policy check: allowed by an Ok, denied by a Denied, with the decision's text. */
  function Asked(p: P.Rules, actor: string, target: string, operation: string, current: nat, tx: nat): Entry {
    var v := P.Decide(p, actor, target, operation);
    Entry(actor, target, "policy_check", if v.allowed then Ok else Denied, v.reason, "policy", current, tx)
  }

  lemma CheckLeaves(k: Kernel, actor: string, target: string, operation: string)
    ensures var c := Check(k, actor, target, operation);
            var v := P.Decide(k.p, actor, target, operation);
            && Leaves(k.l, c.k.l, [Asked(k.p, actor, target, operation, k.l.current, k.l.tx)])
            && c.allowed == v.allowed && c.reason == v.reason && c.event == |k.l.log| + 1
            && c.k.l.current == k.l.current && c.k.l.tx == k.l.tx && c.k.p == k.p && c.k.config == k.config
            && c.k.l.objects == k.l.objects
  {
    var v := P.Decide(k.p, actor, target, operation);
    RecordLeaves(k.l, actor, target, "policy_check", if v.allowed then Ok else Denied, k.l.current, v.reason, "policy");
    hide Found, Touch, Cut, Leaves, P.Decide;
  }

  /** A check of the shell and, when it allows, one event that it caused; n events came before. */
  function Gate(p: P.Rules, target: string, gate: string, actor: string, about: string, verb: string, kind: string,
                n: nat, current: nat, tx: nat)
    : seq<Entry>
  {
    var v := P.Decide(p, "shell", target, gate);
    [Asked(p, "shell", target, gate, current, tx)] +
    if v.allowed then [Entry(actor, about, verb, Ok, v.reason, kind, n + 1, tx)] else []
  }

  lemma GateLeaves(k: Kernel, target: string, gate: string, actor: string, about: string, verb: string, kind: string)
    ensures var c := Check(k, "shell", target, gate);
            var k' := if !c.allowed then c.k else Note(c.k, actor, about, verb, Ok, c.event, c.reason, kind);
            && Leaves(k.l, k'.l, Gate(k.p, target, gate, actor, about, verb, kind, |k.l.log|, k.l.current, k.l.tx))
            && k'.l.current == k.l.current && k'.l.tx == k.l.tx && k'.p == k.p && k'.config == k.config
  {
    hide Check, Note, Leaves, P.Decide, Asked;
    CheckLeaves(k, "shell", target, gate);
    var c := Check(k, "shell", target, gate);
    var asked := [Asked(k.p, "shell", target, gate, k.l.current, k.l.tx)];
    if c.allowed {
      NoteLeaves(c.k, actor, about, verb, Ok, c.event, c.reason, kind);
      Together(k.l, c.k.l, Note(c.k, actor, about, verb, Ok, c.event, c.reason, kind).l,
               asked, [Entry(actor, about, verb, Ok, c.reason, kind, c.event, k.l.tx)]);
    } else {
      assert asked + [] == asked;
    }
  }
}
