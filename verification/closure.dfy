/** Every transaction that a system call opens is closed by it, exactly once, and no handler closes any. */
module Closure {
  import opened Text
  import opened EventRing
  import opened Ledger
  import opened Kernel
  import opened Commands
  import opened Scripts
  import P = Policy

  /** How many commit and abort events a transaction has. */
  function Closings(log: seq<Event>, id: nat): nat {
    if log == [] then 0
    else
      var last := log[|log| - 1];
      Closings(log[..|log| - 1], id) + if IsClose(last) && last.tx == id then 1 else 0
  }

  /** The last event of a transaction closes it, by a commit or an abort as its status says. */
  predicate EndsClosed(log: seq<Event>, t: Transaction) {
    1 <= t.endEvent <= |log| && Closes(log[t.endEvent - 1], t.id, t.status == Committed)
  }

  predicate Settled(log: seq<Event>, t: Transaction, open: set<nat>) {
    if t.id in open then t.status == Open && Closings(log, t.id) == 0
    else t.status != Open && Closings(log, t.id) == 1 && EndsClosed(log, t)
  }

  predicate AllSettled(log: seq<Event>, txs: seq<Transaction>, open: set<nat>) {
    forall k {:trigger txs[k]} :: 0 <= k < |txs| ==> Settled(log, txs[k], open)
  }

  /** The journal is in order, the transactions in `open` are open, every other one has been closed exactly
      once, by its last event, and the current one, if any, is open. */
  predicate OpenExactly(l: Ledger, open: set<nat>) {
    && JournalOk(l)
    && AllSettled(l.log, l.txs, open)
    && (l.tx == 0 || l.tx in open)
    && forall id :: id in open ==> Known(l.txs, id)
  }

  lemma ClosingsPush(log: seq<Event>, e: Event, id: nat)
    ensures Closings(log + [e], id) == Closings(log, id) + if IsClose(e) && e.tx == id then 1 else 0
  {
    assert (log + [e])[..|log|] == log;
  }

  lemma AppendSettled(log: seq<Event>, txs: seq<Transaction>, e: Event, open: set<nat>)
    requires AllSettled(log, txs, open) && !IsClose(e)
    requires e.tx in open || forall k {:trigger txs[k]} :: 0 <= k < |txs| ==> txs[k].id != e.tx
    ensures AllSettled(log + [e], Touch(txs, e.tx, |log| + 1), open)
  {
    hide IsClose, Closings, Closes;
    var txs' := Touch(txs, e.tx, |log| + 1);
    forall k | 0 <= k < |txs'|
      ensures Settled(log + [e], txs'[k], open)
    {
      ClosingsPush(log, e, txs[k].id);
      assert Settled(log, txs[k], open);
    }
  }

  lemma NoneIsZero(l: Ledger)
    requires JournalOk(l)
    ensures forall k {:trigger l.txs[k]} :: 0 <= k < |l.txs| ==> l.txs[k].id != 0
  {
    hide LogOk, TagsOk;
    forall k | 0 <= k < |l.txs|
      ensures l.txs[k].id != 0
    {
      assert RecordAgrees(l.log, l.txs[k]);
    }
  }

  lemma AppendKnown(txs: seq<Transaction>, e: Event, sequence: nat, id: nat)
    requires Known(txs, id)
    ensures Known(Touch(txs, e.tx, sequence), id)
  {
    KnownByIds(txs, Touch(txs, e.tx, sequence), id);
  }

  /** Recording an event that closes nothing. */
  lemma AppendPlain(l: Ledger, e: Event, open: set<nat>)
    requires OpenExactly(l, open)
    requires e.sequence == NextSequence(l) && e.parent <= |l.log|
    requires e.tx == 0 || e.tx in open
    requires !IsClose(e)
    ensures OpenExactly(Append(l, e), open)
  {
    hide JournalOk, IsClose, AllSettled, Touch, FindTx;
    AppendKeepsOk(l, e);
    NoneIsZero(l);
    AppendSettled(l.log, l.txs, e, open);
    forall id | id in open
      ensures Known(Append(l, e).txs, id)
    {
      AppendKnown(l.txs, e, NextSequence(l), id);
    }
  }

  lemma RecordPlain(l: Ledger, actor: string, target: string, operation: string, result: EventResult,
                    parent: nat, decision: string, kind: string, open: set<nat>)
    requires OpenExactly(l, open) && parent <= |l.log| && PlainKind(kind)
    ensures var l' := Record(l, actor, target, operation, result, parent, decision, kind);
            && OpenExactly(l', open)
            && |l'.log| == NextSequence(l) && l'.current == l.current && l'.tx == l.tx && l'.objects == l.objects
            && |l'.txs| == |l.txs|
  {
    hide Cut, Found;
    AppendPlain(l, NewEvent(l, actor, target, operation, result, parent, decision, kind), open);
  }

  lemma RegisterPlain(l: Ledger, kind: string, name: string, parentId: nat, state: string, created: nat, open: set<nat>)
    requires OpenExactly(l, open)
    ensures var l' := Register(l, kind, name, parentId, state, created).0;
            && OpenExactly(l', open)
            && l' == l.(objects := l'.objects)
  {
    RegisterKeepsOk(l, kind, name, parentId, state, created);
    hide JournalOk, Found;
  }

  lemma UpdatePlain(l: Ledger, name: string, state: string, open: set<nat>)
    requires OpenExactly(l, open)
    ensures var l' := UpdateState(l, name, state);
            && OpenExactly(l', open)
            && |l.log| <= |l'.log| && l'.current == l.current && l'.tx == l.tx && |l'.txs| == |l.txs|
  {
    var i := FindObject(l.objects, name, 0);
    if i < |l.objects| {
      var l1 := l.(objects := SetState(l.objects, i, state, NextSequence(l)));
      assert OpenExactly(l1, open);
      PlainKinds();
      hide OpenExactly, Record, SetState, PlainKind;
      RecordPlain(l1, "object", l.objects[i].name, "state_update", Ok, l.current, "allow:object-state", "state", open);
    }
  }

  lemma MoveCurrent(l: Ledger, current: nat, tx: nat, open: set<nat>)
    requires OpenExactly(l, open) && current <= |l.log| && (tx == 0 || tx in open)
    ensures OpenExactly(l.(current := current, tx := tx), open)
  {
  }

  lemma {:induction false} UntaggedClosings(log: seq<Event>, id: nat)
    requires forall i {:trigger log[i]} :: 0 <= i < |log| ==> log[i].tx != id
    ensures Closings(log, id) == 0
  {
    if log != [] {
      UntaggedClosings(log[..|log| - 1], id);
    }
  }

  /** transaction_begin opens one transaction more, or, when the table is full, does nothing. */
  lemma BeginOpens(l: Ledger, actor: string, target: string, parent: nat, open: set<nat>)
    requires OpenExactly(l, open) && parent <= |l.log|
    ensures var (l', id) := Begin(l, actor, target, parent);
            && OpenExactly(l', if id == 0 then open else open + {id})
            && (id == 0 ==> l' == l)
            && (id != 0 ==> id == NextSequence(l) == |l'.log| && id !in open && Known(l'.txs, id)
                            && (forall other: nat :: Known(l.txs, other) ==> other != id))
            && l'.tx == l.tx && l'.current == l.current
  {
    BeginKeepsOk(l, actor, target, parent);
    var (l', id) := Begin(l, actor, target, parent);
    if id != 0 {
      BeginEvent(l, actor, target, parent);
      assert TagsOk(l.log, l.txs) && TableOk(l.log, l.txs);
      hide Begin, LogOk, IsClose;
      assert forall i {:trigger l.log[i]} :: 0 <= i < |l.log| ==> TagOk(l.txs, l.log[i]);
      forall other: nat | Known(l.txs, other)
        ensures other != id
      {
        KnownTagIsPast(l, other);
      }
      assert forall i {:trigger l.log[i]} :: 0 <= i < |l.log| ==> l.log[i].tx != id;
      UntaggedClosings(l.log, id);
      AscendingIds(l'.txs, |l.txs|);
      OpenedSettled(l, l', id, open);
    }
  }

  /** The begin event is not a closing one. */
  lemma BeginEvent(l: Ledger, actor: string, target: string, parent: nat)
    requires |l.txs| < TRANSACTION_CAPACITY
    ensures var l' := Begin(l, actor, target, parent).0;
            |l'.log| == |l.log| + 1 && l'.log[..|l.log|] == l.log && !IsClose(l'.log[|l.log|])
  {
    RegisterKeepsJournal(l, "transaction", TransactionName(NextSequence(l)), ObjectId(l.objects, "events"), "open",
                         parent);
    assert Cut("begin", LABEL) == "begin";
    hide Register, TransactionName, FindObject;
  }

  /** A transaction stays as it was when another is opened. */
  lemma StaysSettled(log: seq<Event>, e: Event, t: Transaction, open: set<nat>, id: nat)
    requires Settled(log, t, open) && !IsClose(e) && t.id != id
    ensures Settled(log + [e], t, open + {id})
  {
    ClosingsPush(log, e, t.id);
    hide IsClose, Closes;
  }

  lemma OpenedSettled(l: Ledger, l': Ledger, id: nat, open: set<nat>)
    requires AllSettled(l.log, l.txs, open) && (forall o :: o in open ==> Known(l.txs, o))
    requires |l'.log| == |l.log| + 1 && l'.log[..|l.log|] == l.log && !IsClose(l'.log[|l.log|])
    requires |l'.txs| == |l.txs| + 1 && l'.txs[..|l.txs|] == l.txs
    requires l'.txs[|l.txs|].id == id && l'.txs[|l.txs|].status == Open
    requires Closings(l.log, id) == 0 && FindTx(l'.txs, id) == |l.txs|
    ensures AllSettled(l'.log, l'.txs, open + {id}) && (forall o :: o in open + {id} ==> Known(l'.txs, o))
  {
    hide IsClose, Closes, Closings, FindTx;
    assert l'.log == l.log + [l'.log[|l.log|]];
    forall k | 0 <= k < |l'.txs|
      ensures Settled(l'.log, l'.txs[k], open + {id})
    {
      ClosingsPush(l.log, l'.log[|l.log|], l'.txs[k].id);
      if k < |l.txs| {
        assert l'.txs[k] == l.txs[k] && Settled(l.log, l.txs[k], open);
        StaysSettled(l.log, l'.log[|l.log|], l.txs[k], open, id);
      }
    }
    forall o | o in open
      ensures Known(l'.txs, o)
    {
      KnownByIds(l.txs, l'.txs, o);
    }
  }

  /** How the transaction of a finished bracket ended: by its last event, as its status says. */
  predicate Ended(l: Ledger, id: nat, ok: bool) {
    id != 0 ==>
      && Known(l.txs, id)
      && var t := l.txs[FindTx(l.txs, id)];
         t.status == (if ok then Committed else Aborted) && EndsClosed(l.log, t)
  }

  /** The end of an open transaction. */
  function Ending(l: Ledger, id: nat, ok: bool, reason: string): Ledger {
    if ok then Commit(l, id).0 else Abort(l, id, reason).0
  }

  lemma EndingFacts(l: Ledger, id: nat, ok: bool, reason: string)
    requires JournalOk(l) && Known(l.txs, id)
    ensures var l' := Ending(l, id, ok, reason);
            var k := FindTx(l.txs, id);
            && JournalOk(l') && l'.tx == l.tx && l'.current == l.current
            && ClosedBy(l, l', l.txs[k], ok, if ok then "allow:transaction" else reason)
            && l'.txs == l.txs[k := l.txs[k].(committedRevision := Revision(l.objects, l.txs[k].target),
                                              status := if ok then Committed else Aborted, endEvent := |l.log| + 1)]
  {
    if ok {
      CloseKeepsOk(l, id, Committed, "commit", Ok, "allow:transaction", "committed");
      CloseLeaves(l, id, Committed, "commit", Ok, "allow:transaction", "committed");
      CommitRecords(l, id);
    } else {
      CloseKeepsOk(l, id, Aborted, "abort", Denied, reason, "aborted");
      CloseLeaves(l, id, Aborted, "abort", Denied, reason, "aborted");
      AbortRecords(l, id, reason);
    }
    hide Close, LogOk, TagsOk, TableOk, Revision, Decimal, ClosedBy, Cut;
  }

  lemma OthersKeepStatus(txs: seq<Transaction>, txs': seq<Transaction>, k: nat)
    requires k < |txs| == |txs'| && (forall j :: 0 <= j < |txs| ==> txs'[j].id == txs[j].id)
    requires forall j :: 0 <= j < |txs| && j != k ==> txs'[j] == txs[j]
    ensures forall other: nat :: Known(txs, other) ==> Known(txs', other)
    ensures forall other: nat :: Known(txs, other) && other != txs[k].id ==>
              txs'[FindTx(txs', other)].status == txs[FindTx(txs, other)].status
  {
    forall other: nat | Known(txs, other)
      ensures FindTx(txs', other) == FindTx(txs, other)
    {
      KnownByIds(txs, txs', other);
    }
  }

  lemma ClosedSettled(l: Ledger, l': Ledger, id: nat, open: set<nat>)
    requires Ascending(l.txs)
    requires AllSettled(l.log, l.txs, open) && id in open && Known(l.txs, id)
    requires |l'.log| == |l.log| + 1 && l'.log[..|l.log|] == l.log
    requires |l'.txs| == |l.txs| && l'.txs[FindTx(l.txs, id)].status != Open
    requires Closes(l'.log[|l.log|], id, l'.txs[FindTx(l.txs, id)].status == Committed)
    requires l'.txs[FindTx(l.txs, id)].endEvent == |l.log| + 1
    requires forall j :: 0 <= j < |l.txs| ==>
               l'.txs[j].id == l.txs[j].id && (j != FindTx(l.txs, id) ==> l'.txs[j] == l.txs[j])
    ensures AllSettled(l'.log, l'.txs, open - {id})
  {
    assert IsClose(l'.log[|l.log|]) && l'.log[|l.log|].tx == id;
    hide IsClose, Closes;
    assert l'.log == l.log + [l'.log[|l.log|]];
    forall k | 0 <= k < |l'.txs|
      ensures Settled(l'.log, l'.txs[k], open - {id})
    {
      ClosingsPush(l.log, l'.log[|l.log|], l'.txs[k].id);
      assert Settled(l.log, l.txs[k], open);
      AscendingIds(l.txs, k);
    }
  }

  lemma EndingSettles(l: Ledger, id: nat, ok: bool, reason: string, open: set<nat>)
    requires OpenExactly(l, open) && id in open
    ensures OpenExactly(Ending(l, id, ok, reason).(tx := 0), open - {id})
  {
    hide Ending, LogOk, TagsOk, RecordAgrees, Revision, Closes, Settled, FindTx;
    EndingFacts(l, id, ok, reason);
    var l' := Ending(l, id, ok, reason);
    OthersKeepStatus(l.txs, l'.txs, FindTx(l.txs, id));
    ClosedSettled(l, l', id, open);
  }

  lemma ClosesAt(l: Ledger, l': Ledger, t: Transaction, ok: bool, reason: string)
    requires ClosedBy(l, l', t, ok, reason)
    ensures |l'.log| == |l.log| + 1 && Closes(l'.log[|l.log|], t.id, ok)
  {
  }

  /** How it ended, and that the others go on. */
  lemma EndingEnds(l: Ledger, id: nat, ok: bool, reason: string)
    requires JournalOk(l) && Known(l.txs, id)
    ensures var l' := Ending(l, id, ok, reason);
            && Ended(l', id, ok)
            && (forall other: nat :: Known(l.txs, other) ==> Known(l'.txs, other))
            && (forall other: nat :: Known(l.txs, other) && other != id ==>
                  l'.txs[FindTx(l'.txs, other)].status == l.txs[FindTx(l.txs, other)].status)
  {
    hide Ending, JournalOk, Revision, Closes, ClosedBy, FindTx;
    EndingFacts(l, id, ok, reason);
    var l' := Ending(l, id, ok, reason);
    OthersKeepStatus(l.txs, l'.txs, FindTx(l.txs, id));
    KnownByIds(l.txs, l'.txs, id);
    ClosesAt(l, l', l.txs[FindTx(l.txs, id)], ok, if ok then "allow:transaction" else reason);
  }

  lemma OpenIsKnown(l: Ledger, open: set<nat>)
    requires OpenExactly(l, open)
    ensures JournalOk(l) && forall id :: id in open ==> Known(l.txs, id)
  {
  }

  /** An open transaction is closed, once, by an event that says "commit", with the result Ok, or "abort", with
      Denied, and by the status Committed or Aborted; no other changes its status. */
  lemma CloseCloses(l: Ledger, id: nat, ok: bool, reason: string, open: set<nat>)
    requires OpenExactly(l, open) && id in open
    ensures var l' := Ending(l, id, ok, reason);
            && OpenExactly(l'.(tx := 0), open - {id})
            && l'.tx == l.tx && l'.current == l.current
            && ClosedBy(l, l', l.txs[FindTx(l.txs, id)], ok, if ok then "allow:transaction" else reason)
            && Ended(l', id, ok)
            && (forall other: nat :: Known(l.txs, other) ==> Known(l'.txs, other))
            && (forall other: nat :: Known(l.txs, other) && other != id ==>
                  l'.txs[FindTx(l'.txs, other)].status == l.txs[FindTx(l.txs, other)].status)
  {
    OpenIsKnown(l, open);
    hide Ending, OpenExactly, JournalOk, Revision, ClosedBy, Ended, FindTx;
    EndingFacts(l, id, ok, reason);
    EndingEnds(l, id, ok, reason);
    EndingSettles(l, id, ok, reason, open);
  }

  // ---------------------------------------------------------------- handlers

  /** A step that leaves the set of open transactions, the current event and the current transaction. */
  ghost predicate Quiet(l: Ledger, l': Ledger, open: set<nat>) {
    OpenExactly(l', open) && |l.log| <= |l'.log| && l'.current == l.current && l'.tx == l.tx
  }

  lemma NoteQuiet(k: Kernel, actor: string, target: string, operation: string, result: EventResult,
                  parent: nat, decision: string, kind: string, open: set<nat>)
    requires OpenExactly(k.l, open) && parent <= |k.l.log| && PlainKind(kind)
    ensures var k' := Note(k, actor, target, operation, result, parent, decision, kind);
            Quiet(k.l, k'.l, open) && |k'.l.log| == |k.l.log| + 1 && k'.p == k.p && k'.config == k.config
  {
    RecordPlain(k.l, actor, target, operation, result, parent, decision, kind, open);
    hide Record, OpenExactly;
  }

  lemma CheckQuiet(k: Kernel, actor: string, target: string, operation: string, open: set<nat>)
    requires OpenExactly(k.l, open)
    ensures var c := Check(k, actor, target, operation);
            && Quiet(k.l, c.k.l, open) && c.event == |c.k.l.log| && c.k.p == k.p && c.k.config == k.config
            && c.allowed == P.Decide(k.p, actor, target, operation).allowed
  {
    PlainKinds();
    var v := P.Decide(k.p, actor, target, operation);
    RecordPlain(k.l, actor, target, "policy_check", if v.allowed then Ok else Denied, k.l.current, v.reason, "policy",
                open);
    hide Record, OpenExactly, P.Decide, PlainKind;
  }

  lemma SetKeyQuiet(k: Kernel, key: string, value: string, open: set<nat>)
    requires OpenExactly(k.l, open)
    ensures var (k', ok) := SetKey(k, key, value);
            && Quiet(k.l, k'.l, open) && k'.p == k.p
            && (ok <==> key in k.config)
            && k'.config == if ok then k.config[key := Cut(value, LABEL)] else k.config
  {
    PlainKinds();
    if key !in k.config {
      RecordPlain(k.l, "config", key, "set", Denied, k.l.current, "deny:unknown-config-key", "state", open);
    } else {
      UpdatePlain(k.l, key, Cut(value, LABEL), open);
    }
    hide Record, UpdateState, OpenExactly, PlainKind, Cut;
  }

  lemma ChangePolicyQuiet(k: Kernel, allow: bool, subject: string, operation: string, object_: string, open: set<nat>)
    requires OpenExactly(k.l, open)
    ensures var (k', ok) := ChangePolicy(k, allow, subject, operation, object_);
            && Quiet(k.l, k'.l, open) && k'.config == k.config
            && (k'.p, ok) == P.ChangeRule(k.p, allow, subject, operation, object_)
  {
    PlainKinds();
    CurrentIsPast(k.l, open);
    hide Record, UpdateState, OpenExactly, PlainKind, Cut, Register, P.Reason, FindObject, CapabilityName,
        CapabilityState;
    var (p', ok) := P.ChangeRule(k.p, allow, subject, operation, object_);
    var verb := if allow then "allow" else "deny";
    if !ok {
      RecordPlain(k.l, "policy", POLICY_OBJECT, verb, Denied, k.l.current, "deny:policy-full", "state", open);
    } else {
      var r := p'.list[|k.p.list|];
      RegisterPlain(k.l, "capability", CapabilityName(r.subject, r.operation, r.object_),
                    ObjectId(k.l.objects, POLICY_OBJECT),
                    CapabilityState(r.allow, r.number, p'.revision), k.l.current, open);
      var l1 := RegisterCapability(k.l, r, p'.revision, ObjectId(k.l.objects, POLICY_OBJECT));
      var reason := P.Reason(true, if allow then "policy:allow" else "policy:deny", p'.revision, r.number);
      CurrentIsPast(l1, open);
      RecordPlain(l1, "policy", POLICY_OBJECT, verb, Ok, l1.current, reason, "state", open);
      var l2 := Record(l1, "policy", POLICY_OBJECT, verb, Ok, l1.current, reason, "state");
      UpdatePlain(l2, POLICY_OBJECT, if allow then "allow-added" else "deny-added", open);
    }
  }

  lemma CurrentIsPast(l: Ledger, open: set<nat>)
    requires OpenExactly(l, open)
    ensures l.current <= |l.log|
  {
  }

  lemma AtOpen(k: Kernel, event: nat, open: set<nat>)
    requires OpenExactly(k.l, open) && event <= |k.l.log|
    ensures OpenExactly(At(k, event).l, open)
  {
  }

  lemma ShowConfigFacts(k: Kernel, key: string, open: set<nat>)
    requires OpenExactly(k.l, open)
    ensures var (k', ok) := ShowConfig(k, key);
            && Quiet(k.l, k'.l, open) && k'.p == k.p && k'.config == k.config
            && (ok <==> P.Decide(k.p, "shell", key, "config:get").allowed && key in k.config)
  {
    PlainKinds();
    hide OpenExactly, PlainKind, Note, Check, P.Decide;
    CheckQuiet(k, "shell", key, "config:get", open);
    var c := Check(k, "shell", key, "config:get");
    if c.allowed && key !in k.config {
      NoteQuiet(c.k, "config", key, "get", Denied, c.event, "deny:unknown-config-key", "state", open);
    } else if c.allowed {
      NoteQuiet(c.k, "config", key, "get", Ok, c.event, c.reason, "state", open);
    }
  }

  /** When the set command is accepted. */
  predicate SetAccepted(k: Kernel, argument: string) {
    var (key, value) := Split(argument);
    value.Some? && P.Decide(k.p, "shell", key, "config:set").allowed && key in k.config
  }

  lemma SetConfigFacts(k: Kernel, argument: string, open: set<nat>)
    requires OpenExactly(k.l, open)
    ensures var (k', ok) := SetConfig(k, argument);
            && Quiet(k.l, k'.l, open) && k'.p == k.p
            && (ok <==> SetAccepted(k, argument))
            && k'.config == if ok then k.config[Split(argument).0 := Cut(Split(argument).1.value, LABEL)] else k.config
  {
    PlainKinds();
    CurrentIsPast(k.l, open);
    hide OpenExactly, PlainKind, Note, Check, SetKey, P.Decide, Split, Cut;
    var (key, value) := Split(argument);
    if value.Some? {
      CheckQuiet(k, "shell", key, "config:set", open);
      var c := Check(k, "shell", key, "config:set");
      if c.allowed {
        AtOpen(c.k, c.event, open);
        SetKeyQuiet(At(c.k, c.event), key, value.value, open);
        var (k1, ok) := SetKey(At(c.k, c.event), key, value.value);
        AtOpen(k1, k.l.current, open);
        if ok {
          NoteQuiet(At(k1, k.l.current), "config", key, "set", Ok, c.event, c.reason, "state", open);
        }
      }
    }
  }

  /** When the policy command succeeds. */
  predicate PolicyAccepted(k: Kernel, request: Option<string>) {
    match ParseRequest(request)
    case Malformed => false
    case Show => P.Decide(k.p, "shell", POLICY_OBJECT, "policy:show").allowed
    case Change(_, _, _, _) =>
      P.Decide(k.p, "shell", POLICY_OBJECT, "policy:change").allowed && |k.p.list| < P.MAX_RULES
  }

  lemma ShowPolicyFacts(k: Kernel, open: set<nat>)
    requires OpenExactly(k.l, open)
    ensures var (k', ok) := ShowPolicy(k);
            && Quiet(k.l, k'.l, open) && k'.config == k.config && k'.p == k.p
            && (ok <==> P.Decide(k.p, "shell", POLICY_OBJECT, "policy:show").allowed)
  {
    PlainKinds();
    hide OpenExactly, PlainKind, Note, Check, P.Decide;
    CheckQuiet(k, "shell", POLICY_OBJECT, "policy:show", open);
    var c := Check(k, "shell", POLICY_OBJECT, "policy:show");
    if c.allowed {
      NoteQuiet(c.k, "shell", POLICY_OBJECT, "policy_show", Ok, c.event, c.reason, "query", open);
    }
  }

  lemma ChangeByCommandFacts(k: Kernel, allow: bool, subject: string, operation: string, object_: string,
                             open: set<nat>)
    requires OpenExactly(k.l, open)
    ensures var (k', ok) := ChangeByCommand(k, allow, subject, operation, object_);
            && Quiet(k.l, k'.l, open) && k'.config == k.config
            && (ok <==> P.Decide(k.p, "shell", POLICY_OBJECT, "policy:change").allowed && |k.p.list| < P.MAX_RULES)
            && k'.p == if ok then P.AddRule(k.p, allow, subject, operation, object_) else k.p
  {
    CurrentIsPast(k.l, open);
    hide OpenExactly, Check, ChangePolicy, P.Decide, P.AddRule;
    CheckQuiet(k, "shell", POLICY_OBJECT, "policy:change", open);
    var c := Check(k, "shell", POLICY_OBJECT, "policy:change");
    if c.allowed {
      AtOpen(c.k, c.event, open);
      ChangePolicyQuiet(At(c.k, c.event), allow, subject, operation, object_, open);
      AtOpen(ChangePolicy(At(c.k, c.event), allow, subject, operation, object_).0, k.l.current, open);
    }
  }

  lemma RunPolicyFacts(k: Kernel, request: Option<string>, open: set<nat>)
    requires OpenExactly(k.l, open)
    ensures var (k', ok) := RunPolicy(k, request);
            && Quiet(k.l, k'.l, open) && k'.config == k.config
            && (ok <==> PolicyAccepted(k, request))
            && k'.p == (match ParseRequest(request)
                        case Change(allow, subject, operation, object_) =>
                          if ok then P.AddRule(k.p, allow, subject, operation, object_) else k.p
                        case _ => k.p)
  {
    hide OpenExactly, ShowPolicy, ChangeByCommand, P.Decide, ParseRequest, P.AddRule;
    match ParseRequest(request)
    case Malformed => CurrentIsPast(k.l, open);
    case Show => ShowPolicyFacts(k, open);
    case Change(allow, subject, operation, object_) =>
      ChangeByCommandFacts(k, allow, subject, operation, object_, open);
  }

  // ---------------------------------------------------------------- system calls

  /** When a system call succeeds: the leave that each asks. */
  predicate CallAccepted(k: Kernel, call: Call, thread: string, target: string) {
    match call
    case Inspect => P.Decide(k.p, thread, target, "syscall:inspect").allowed
    case Yield => P.Decide(k.p, thread, target, "syscall:yield").allowed
    case ConfigGet => P.Decide(k.p, thread, target, "syscall:config_get").allowed && target in k.config
    case ConfigSet => P.Decide(k.p, thread, target, "syscall:config_set").allowed
    case Unknown => false
  }

  lemma CallEventsQuiet(k: Kernel, call: Call, thread: string, target: string, event: nat, reason: string,
                        open: set<nat>)
    requires OpenExactly(k.l, open) && event <= |k.l.log| && call != Unknown
    ensures var (k', ok) := CallEvents(k, call, thread, target, event, reason);
            && Quiet(k.l, k'.l, open) && k'.p == k.p && k'.config == k.config
            && (ok <==> (call == ConfigGet ==> target in k.config))
  {
    PlainKinds();
    hide OpenExactly, PlainKind, Note;
    match call
    case Inspect => NoteQuiet(k, thread, target, "inspect", Ok, event, reason, "syscall", open);
    case Yield =>
      NoteQuiet(k, thread, "scheduler", "yield", Ok, event, reason, "syscall", open);
      var k1 := Note(k, thread, "scheduler", "yield", Ok, event, reason, "syscall");
      NoteQuiet(k1, "scheduler", thread, "schedule", Ok, event, reason, "state", open);
    case ConfigGet =>
      if target !in k.config {
        NoteQuiet(k, thread, target, "config_get", Denied, event, "deny:unknown-config-key", "syscall", open);
      } else {
        NoteQuiet(k, thread, target, "config_get", Ok, event, reason, "syscall", open);
      }
    case ConfigSet => NoteQuiet(k, thread, target, "config_set", Ok, event, reason, "syscall", open);
  }

  lemma CallBodyQuiet(k: Kernel, call: Call, thread: string, target: string, open: set<nat>)
    requires OpenExactly(k.l, open)
    ensures var (k', ok) := CallBody(k, call, thread, target);
            && Quiet(k.l, k'.l, open) && k'.p == k.p && k'.config == k.config
            && (ok <==> CallAccepted(k, call, thread, target))
  {
    PlainKinds();
    CurrentIsPast(k.l, open);
    hide OpenExactly, PlainKind, Note, Check, CallEvents, P.Decide;
    if call == Unknown {
      NoteQuiet(k, thread, "kernel", "unknown_syscall", Denied, k.l.current, "deny:unknown-syscall", "syscall", open);
    } else {
      CheckQuiet(k, thread, target, Operation(call), open);
      var c := Check(k, thread, target, Operation(call));
      if c.allowed {
        CallEventsQuiet(c.k, call, thread, target, c.event, c.reason, open);
      }
    }
  }

  /** A system call closes exactly the transaction it opened, by its outcome, and leaves no current one;
      it succeeds exactly when it is known, allowed and about a key there is. */
  lemma SyscallCloses(k: Kernel, call: Call, thread: string, target: string, open: set<nat>)
    requires OpenExactly(k.l, open)
    ensures var (k', id, ok) := Syscall(k, call, thread, target);
            && OpenExactly(k'.l, open) && k'.l.tx == 0 && |k.l.log| <= |k'.l.log|
            && k'.p == k.p && k'.config == k.config
            && (ok <==> CallAccepted(k, call, thread, CallTarget(call, thread, target)))
            && (id == 0 <==> |k.l.txs| >= TRANSACTION_CAPACITY)
            && Ended(k'.l, id, ok)
  {
    var about := CallTarget(call, thread, target);
    SyscallOpens(k, thread, about, open);
    hide OpenExactly, SyscallBegin, Close, CallBody, P.Decide, Known, FindTx;
    var (k1, id) := SyscallBegin(k, thread, about);
    var within := if id == 0 then open else open + {id};
    CallBodyQuiet(k1, call, thread, about, within);
    var (k2, ok) := CallBody(k1, call, thread, about);
    Finish(k2.l, id, ok, "deny:syscall", open);
  }

  lemma SyscallOpens(k: Kernel, thread: string, about: string, open: set<nat>)
    requires OpenExactly(k.l, open)
    ensures var (k', id) := SyscallBegin(k, thread, about);
            && OpenExactly(k'.l, if id == 0 then open else open + {id})
            && k'.p == k.p && k'.config == k.config && |k.l.log| <= |k'.l.log|
            && id !in open
            && (id == 0 <==> |k.l.txs| >= TRANSACTION_CAPACITY)
  {
    CurrentIsPast(k.l, open);
    BeginOpens(k.l, thread, about, k.l.current, open);
    BeginKeepsOk0(k.l, thread, about, k.l.current);
    var (l1, id) := Begin(k.l, thread, about, k.l.current);
    assert 0 !in open by { ZeroNeverOpen(k.l, open); }
    MoveCurrent(l1, if id == 0 then k.l.current else id, id, if id == 0 then open else open + {id});
    hide OpenExactly, Begin;
  }

  lemma ZeroNeverOpen(l: Ledger, open: set<nat>)
    requires OpenExactly(l, open)
    ensures 0 !in open
  {
    if 0 in open {
      KnownTagIsPast(l, 0);
    }
  }

  lemma BeginKeepsOk0(l: Ledger, actor: string, target: string, parent: nat)
    ensures Begin(l, actor, target, parent).1 == 0 <==> |l.txs| >= TRANSACTION_CAPACITY
  {
    hide Register, Record;
  }

  /** The end of a bracket. */
  lemma Finish(l: Ledger, id: nat, ok: bool, reason: string, open: set<nat>)
    requires OpenExactly(l, if id == 0 then open else open + {id}) && id !in open
    ensures var l1 := if id == 0 then l else if ok then Commit(l, id).0 else Abort(l, id, reason).0;
            && OpenExactly(l1.(tx := 0), open)
            && |l.log| <= |l1.log|
            && Ended(l1, id, ok)
  {
    hide OpenExactly, Close, FindTx;
    if id == 0 {
      CurrentIsPast(l, open);
      MoveCurrent(l, l.current, 0, open);
    } else {
      assert open + {id} - {id} == open;
      CloseCloses(l, id, ok, reason, open + {id});
    }
  }

  lemma EnterTrapQuiet(k: Kernel, ring3: bool, thread: string, open: set<nat>)
    requires OpenExactly(k.l, open)
    ensures var k2 := EnterTrap(k, ring3, thread);
            Quiet(k.l, k2.l, open) && k2.p == k.p && k2.config == k.config && |k2.l.txs| == |k.l.txs|
  {
    PlainKinds();
    CurrentIsPast(k.l, open);
    hide OpenExactly, PlainKind, Cut, FindTx, FindObject;
    NoteQuiet(k, thread, "kernel", "cpl3_trap", if ring3 then Ok else Denied, k.l.current,
              if ring3 then "allow:cpl3" else "deny:not-cpl3", "syscall", open);
    var k1 := Note(k, thread, "kernel", "cpl3_trap", if ring3 then Ok else Denied, k.l.current,
                   if ring3 then "allow:cpl3" else "deny:not-cpl3", "syscall");
    NoteQuiet(k1, thread, "kernel", "switch_cr3", Ok, k1.l.current, "allow:syscall-kernel-cr3", "action", open);
  }

  /** The text at an address of the code page, "kernel" when there is none. */
  function TextNamed(page: Page, address: nat): string {
    match UserString(page, address) case None => "kernel" case Some(text) => text
  }

  /** When a trap's call succeeds, by its number: 1 inspects, 2 yields, 3 reads a configuration value and 4 asks
      to write one; no other number ever does. */
  predicate TrapAccepted(k: Kernel, number: nat, pid: nat, page: Page, address: nat) {
    var thread := Cut("thread/" + Decimal(pid), 47);
    if number == 1 then P.Decide(k.p, thread, TextNamed(page, address), "syscall:inspect").allowed
    else if number == 2 then P.Decide(k.p, thread, thread, "syscall:yield").allowed
    else if number == 3 then
      && P.Decide(k.p, thread, TextNamed(page, address), "syscall:config_get").allowed
      && TextNamed(page, address) in k.config
    else if number == 4 then P.Decide(k.p, thread, TextNamed(page, address), "syscall:config_set").allowed
    else false
  }

  lemma CallByNumber(k: Kernel, number: nat, pid: nat, page: Page, address: nat)
    ensures TrapAccepted(k, number, pid, page, address) <==>
            CallAccepted(k, CallOf(number), ThreadName(pid),
                         CallTarget(CallOf(number), ThreadName(pid), TrapTarget(number, page, address)))
  {
    hide UserString, P.Decide;
  }

  /** A text at a user address: it starts in the code page and ends there, within 46 characters. */
  lemma UserStringExactly(page: Page, address: nat, text: string)
    ensures UserString(page, address) == Some(text) <==>
            && 0x40_0000 <= address && address + |text| < 0x40_1000 && |text| <= 46
            && page[address - 0x40_0000..address - 0x40_0000 + |text|] == text && '\0' !in text
            && page[address - 0x40_0000 + |text|] == '\0'
  {
    if 0x40_0000 <= address && address + |text| < 0x40_1000 {
      var at := address - 0x40_0000;
      if page[at..at + |text|] == text && '\0' !in text && page[at + |text|] == '\0' {
        assert forall i :: at <= i < at + |text| ==> page[i] == text[i - at];
        NulAtIs(page, at, at + |text|);
      }
    }
  }

  /** Whenever a trap has returned, the transaction it opened is closed, by the call's outcome, every
      transaction that was open before still is, and no transaction is current. */
  lemma TrapCloses(k: Kernel, number: nat, ring3: bool, pid: nat, page: Page, address: nat, open: set<nat>)
    requires OpenExactly(k.l, open)
    ensures var (k', id, ok) := Trap(k, number, ring3, pid, page, address);
            && OpenExactly(k'.l, open) && k'.l.tx == 0 && |k.l.log| <= |k'.l.log|
            && k'.p == k.p && k'.config == k.config
            && (ok <==> TrapAccepted(k, number, pid, page, address))
            && (id == 0 <==> |k.l.txs| >= TRANSACTION_CAPACITY)
            && Ended(k'.l, id, ok)
  {
    PlainKinds();
    CallByNumber(k, number, pid, page, address);
    var thread, target := ThreadName(pid), TrapTarget(number, page, address);
    EnterTrapQuiet(k, ring3, thread, open);
    hide OpenExactly, PlainKind, Syscall, EnterTrap, Record, P.Decide, Known, FindTx, TrapTarget, ThreadName,
         SpaceName, TrapAccepted;
    var k2 := EnterTrap(k, ring3, thread);
    SyscallCloses(k2, CallOf(number), thread, target, open);
    var (k3, id, ok) := Syscall(k2, CallOf(number), thread, target);
    CurrentIsPast(k3.l, open);
    NoteQuiet(k3, thread, SpaceName(pid), "switch_cr3", Ok, k3.l.current, "allow:syscall-user-cr3", "action", open);
    EndedKept(k3.l, thread, SpaceName(pid), "switch_cr3", Ok, k3.l.current, "allow:syscall-user-cr3", "action", id, ok);
  }

  lemma UntaggedRecord(l: Ledger, actor: string, target: string, operation: string, result: EventResult,
                       parent: nat, decision: string, kind: string)
    requires l.tx == 0
    ensures var l' := Record(l, actor, target, operation, result, parent, decision, kind);
            |l'.log| == |l.log| + 1 && l'.log[..|l.log|] == l.log && |l'.txs| == |l.txs|
            && forall k :: 0 <= k < |l.txs| && k != FindTx(l.txs, 0) ==> l'.txs[k] == l.txs[k]
  {
    hide FindObject, Cut, FindTx;
  }

  /** Recording an event outside all transactions changes none. */
  lemma EndedKept(l: Ledger, actor: string, target: string, operation: string, result: EventResult,
                  parent: nat, decision: string, kind: string, id: nat, ok: bool)
    requires Ended(l, id, ok) && l.tx == 0
    ensures Ended(Record(l, actor, target, operation, result, parent, decision, kind), id, ok)
  {
    UntaggedRecord(l, actor, target, operation, result, parent, decision, kind);
    hide Record, FindTx, Closes;
    if id != 0 {
      assert l.txs[FindTx(l.txs, id)].endEvent <= |l.log|;
    }
  }
}
