/** The system calls of user processes, by their numbers: what each leaves in the journal. */
module CallTranscripts {
  import opened Text
  import opened EventRing
  import opened Ledger
  import opened Kernel
  import opened Closure
  import opened Transcript
  import B = BasePolicy
  import P = Policy

  /** What a call with this number leaves inside its bracket, after n events. */
  function CallEntries(p: P.Rules, config: Config, number: nat, thread: string, text: string, n: nat, current: nat,
                       tx: nat)
    : seq<Entry>
  {
    if number == 1 then
      var v := P.Decide(p, thread, text, "syscall:inspect");
      [Asked(p, thread, text, "syscall:inspect", current, tx)] +
      if v.allowed then [Entry(thread, text, "inspect", Ok, v.reason, "syscall", n + 1, tx)] else []
    else if number == 2 then
      var v := P.Decide(p, thread, thread, "syscall:yield");
      [Asked(p, thread, thread, "syscall:yield", current, tx)] +
      if v.allowed then
        [Entry(thread, "scheduler", "yield", Ok, v.reason, "syscall", n + 1, tx),
         Entry("scheduler", thread, "schedule", Ok, v.reason, "state", n + 1, tx)]
      else []
    else if number == 3 then
      var v := P.Decide(p, thread, text, "syscall:config_get");
      [Asked(p, thread, text, "syscall:config_get", current, tx)] +
      if !v.allowed then []
      else if text in config then [Entry(thread, text, "config_get", Ok, v.reason, "syscall", n + 1, tx)]
      else [Entry(thread, text, "config_get", Denied, "deny:unknown-config-key", "syscall", n + 1, tx)]
    else if number == 4 then
      var v := P.Decide(p, thread, text, "syscall:config_set");
      [Asked(p, thread, text, "syscall:config_set", current, tx)] +
      if v.allowed then [Entry(thread, text, "config_set", Ok, v.reason, "syscall", n + 1, tx)] else []
    else [Entry(thread, "kernel", "unknown_syscall", Denied, "deny:unknown-syscall", "syscall", current, tx)]
  }

  lemma CheckedCallLeaves(k: Kernel, thread: string, target: string, gate: string, rest: seq<Entry>, k': Kernel)
    requires var c := Check(k, thread, target, gate);
             if c.allowed then Leaves(c.k.l, k'.l, rest) else k' == c.k && rest == []
    ensures Leaves(k.l, k'.l, [Asked(k.p, thread, target, gate, k.l.current, k.l.tx)] + rest)
  {
    hide Check, Leaves;
    CheckLeaves(k, thread, target, gate);
    var c := Check(k, thread, target, gate);
    if c.allowed {
      Together(k.l, c.k.l, k'.l, [Asked(k.p, thread, target, gate, k.l.current, k.l.tx)], rest);
    } else {
      var asked := [Asked(k.p, thread, target, gate, k.l.current, k.l.tx)];
      assert asked + rest == asked;
    }
  }

  lemma YieldLeaves(k: Kernel, thread: string, event: nat, reason: string)
    ensures Leaves(k.l, CallEvents(k, Yield, thread, thread, event, reason).0.l,
                   [Entry(thread, "scheduler", "yield", Ok, reason, "syscall", event, k.l.tx),
                    Entry("scheduler", thread, "schedule", Ok, reason, "state", event, k.l.tx)])
  {
    hide Note, Leaves;
    var k1 := Note(k, thread, "scheduler", "yield", Ok, event, reason, "syscall");
    NoteLeaves(k, thread, "scheduler", "yield", Ok, event, reason, "syscall");
    NoteLeaves(k1, "scheduler", thread, "schedule", Ok, event, reason, "state");
    Together(k.l, k1.l, Note(k1, "scheduler", thread, "schedule", Ok, event, reason, "state").l,
             [Entry(thread, "scheduler", "yield", Ok, reason, "syscall", event, k.l.tx)],
             [Entry("scheduler", thread, "schedule", Ok, reason, "state", event, k.l.tx)]);
    assert forall a: Entry, b: Entry :: [a] + [b] == [a, b];
  }

  lemma CallBodyLeaves(k: Kernel, number: nat, thread: string, text: string)
    ensures var k' := CallBody(k, CallOf(number), thread, CallTarget(CallOf(number), thread, text)).0;
            && Leaves(k.l, k'.l, CallEntries(k.p, k.config, number, thread, text, |k.l.log|, k.l.current, k.l.tx))
            && k'.l.current == k.l.current && k'.l.tx == k.l.tx
  {
    hide Check, Note, Leaves, P.Decide, Asked;
    var target := CallTarget(CallOf(number), thread, text);
    var k' := CallBody(k, CallOf(number), thread, target).0;
    if 1 <= number <= 4 {
      var gate := Operation(CallOf(number));
      CheckLeaves(k, thread, target, gate);
      var c := Check(k, thread, target, gate);
      NoteLeaves(c.k, thread, text, "inspect", Ok, c.event, c.reason, "syscall");
      NoteLeaves(c.k, thread, text, "config_get", Ok, c.event, c.reason, "syscall");
      NoteLeaves(c.k, thread, text, "config_get", Denied, c.event, "deny:unknown-config-key", "syscall");
      NoteLeaves(c.k, thread, text, "config_set", Ok, c.event, c.reason, "syscall");
      YieldLeaves(c.k, thread, c.event, c.reason);
      YieldKeeps(c.k, thread, c.event, c.reason);
      var entries := CallEntries(k.p, k.config, number, thread, text, |k.l.log|, k.l.current, k.l.tx);
      CheckedCallLeaves(k, thread, target, gate, entries[1..], k');
      assert entries == [Asked(k.p, thread, target, gate, k.l.current, k.l.tx)] + entries[1..];
    } else {
      NoteLeaves(k, thread, "kernel", "unknown_syscall", Denied, k.l.current, "deny:unknown-syscall", "syscall");
    }
  }

  lemma YieldKeeps(k: Kernel, thread: string, event: nat, reason: string)
    ensures var k' := CallEvents(k, Yield, thread, thread, event, reason).0;
            k'.l.current == k.l.current && k'.l.tx == k.l.tx
  {
    hide Record;
    RecordKeeps(k.l, thread, "scheduler", "yield", Ok, event, reason, "syscall");
    RecordKeeps(Note(k, thread, "scheduler", "yield", Ok, event, reason, "syscall").l, "scheduler", thread, "schedule",
                Ok, event, reason, "state");
  }

  lemma RecordKeeps(l: Ledger, actor: string, target: string, operation: string, result: EventResult,
                    parent: nat, decision: string, kind: string)
    ensures var l' := Record(l, actor, target, operation, result, parent, decision, kind);
            l'.current == l.current && l'.tx == l.tx && l'.objects == l.objects
  {
    hide Found, Touch, Cut;
  }

  // ---------------------------------------------------------------- the bracket

  /** Whether the call succeeds. */
  predicate CallSucceeds(p: P.Rules, config: Config, number: nat, thread: string, text: string) {
    if number == 1 then P.Decide(p, thread, text, "syscall:inspect").allowed
    else if number == 2 then P.Decide(p, thread, thread, "syscall:yield").allowed
    else if number == 3 then P.Decide(p, thread, text, "syscall:config_get").allowed && text in config
    else if number == 4 then P.Decide(p, thread, text, "syscall:config_set").allowed
    else false
  }

  /** A call and its bracket, after n events, with `used` transactions in use and `current` current. */
  function BracketEntries(p: P.Rules, config: Config, number: nat, thread: string, text: string, n: nat, used: nat,
                          current: nat)
    : seq<Entry>
  {
    if used >= 32 then CallEntries(p, config, number, thread, text, n, current, 0)
    else
      var id := n + 1;
      var body := CallEntries(p, config, number, thread, text, n + 1, id, id);
      var ok := CallSucceeds(p, config, number, thread, text);
      [Entry(thread, Transact(id), "begin", Ok, "allow:transaction", "transaction", current, id)] + body +
      [Entry(thread, Transact(id), if ok then "commit" else "abort", if ok then Ok else Denied,
             if ok then "allow:transaction" else "deny:syscall", "transaction", n + 1 + |body|, id)]
  }

  /** The transaction whose begin event is event `id` and whose last event is the last of the log. */
  lemma LastOfTransaction(l: Ledger, id: nat)
    requires JournalOk(l) && Known(l.txs, id) && l.log != [] && l.log[|l.log| - 1].tx == id
    ensures var t := l.txs[FindTx(l.txs, id)];
            1 <= id <= |l.log| && t.endEvent == |l.log| && t.actor == l.log[id - 1].actor
  {
    assert RecordAgrees(l.log, l.txs[FindTx(l.txs, id)]);
    hide LogOk, TagsOk, Ascending, Decimal;
  }

  lemma LastEntry(l: Ledger, l': Ledger, entries: seq<Entry>)
    requires Leaves(l, l', entries) && entries != []
    ensures l'.log != [] && Shows(l'.log[|l'.log| - 1], entries[|entries| - 1])
  {
    hide Shows;
    assert Shows(l'.log[|l.log| + (|entries| - 1)], entries[|entries| - 1]);
  }

  lemma CallEntriesTagged(p: P.Rules, config: Config, number: nat, thread: string, text: string, n: nat, current: nat,
                          tx: nat)
    ensures var entries := CallEntries(p, config, number, thread, text, n, current, tx);
            entries != [] && entries[|entries| - 1].tx == tx
  {
    hide P.Decide;
  }

  /** The closing event of a bracket whose last event so far is its own. */
  lemma ClosingLeaves(l: Ledger, id: nat, ok: bool, reason: string, actor: string)
    requires JournalOk(l) && Known(l.txs, id) && l.log != [] && l.log[|l.log| - 1].tx == id
    requires 1 <= id <= |l.log| && l.log[id - 1].actor == Cut(actor, 47)
    ensures var l' := if ok then Commit(l, id).0 else Abort(l, id, reason).0;
            Leaves(l, l', [Entry(actor, Transact(id), if ok then "commit" else "abort", if ok then Ok else Denied,
                                 if ok then "allow:transaction" else reason, "transaction", |l.log|, id)])
  {
    LastOfTransaction(l, id);
    EndLeaves(l, id, ok, reason);
    hide Commit, Abort, JournalOk, FindTx, Decimal;
    var t := l.txs[FindTx(l.txs, id)];
    SameActor(l, if ok then Commit(l, id).0 else Abort(l, id, reason).0, actor,
              Entry(t.actor, Transact(id), if ok then "commit" else "abort", if ok then Ok else Denied,
                    if ok then "allow:transaction" else reason, "transaction", |l.log|, id));
  }

  /** An actor that is cut already reads the same. */
  lemma SameActor(l: Ledger, l': Ledger, actor: string, x: Entry)
    requires Leaves(l, l', [x]) && x.actor == Cut(actor, 47)
    ensures Leaves(l, l', [x.(actor := actor)])
  {
    assert Shows(l'.log[|l.log|], [x][0]);
  }

  /** After syscall_begin. */
  lemma OpenedCall(k: Kernel, thread: string, about: string, open: set<nat>)
    requires OpenExactly(k.l, open)
    ensures var (k1, id) := SyscallBegin(k, thread, about);
            && OpenExactly(k1.l, if id == 0 then open else open + {id})
            && k1.p == k.p && k1.config == k.config && k1.l.tx == id
            && if |k.l.txs| >= 32 then id == 0 && k1.l.log == k.l.log && k1.l.current == k.l.current
               else
                 && id == |k.l.log| + 1 == k1.l.current && |k1.l.log| == id
                 && k1.l.log[id - 1].actor == Cut(thread, 47)
                 && Leaves(k.l, k1.l, [Entry(thread, Transact(id), "begin", Ok, "allow:transaction", "transaction",
                                             k.l.current, id)])
  {
    SyscallOpens(k, thread, about, open);
    assert JournalOk(k.l);
    BeginLeaves(k.l, thread, about, k.l.current);
    var (l', id) := Begin(k.l, thread, about, k.l.current);
    if id != 0 {
      var begin := Entry(thread, Transact(id), "begin", Ok, "allow:transaction", "transaction", k.l.current, id);
      LastEntry(k.l, l', [begin]);
    }
    hide OpenExactly, Begin, Decimal, JournalOk;
  }

  lemma SucceedsWhenAccepted(k: Kernel, number: nat, thread: string, text: string)
    ensures CallSucceeds(k.p, k.config, number, thread, text) <==>
            CallAccepted(k, CallOf(number), thread, CallTarget(CallOf(number), thread, text))
  {
    hide P.Decide;
  }

  /** Inside the bracket. */
  lemma BracketBody(k1: Kernel, number: nat, thread: string, text: string, within: set<nat>)
    requires OpenExactly(k1.l, within)
    ensures var (k2, ok) := CallBody(k1, CallOf(number), thread, CallTarget(CallOf(number), thread, text));
            var body := CallEntries(k1.p, k1.config, number, thread, text, |k1.l.log|, k1.l.current, k1.l.tx);
            && OpenExactly(k2.l, within) && Leaves(k1.l, k2.l, body)
            && k2.l.current == k1.l.current && k2.l.tx == k1.l.tx
            && (ok <==> CallSucceeds(k1.p, k1.config, number, thread, text))
            && k2.l.log != [] && k2.l.log[|k2.l.log| - 1].tx == k1.l.tx
  {
    hide OpenExactly, CallBody, Leaves, CallEntries, CallAccepted, CallSucceeds, CallOf, CallTarget, P.Decide, Cut;
    var about := CallTarget(CallOf(number), thread, text);
    var (k2, ok) := CallBody(k1, CallOf(number), thread, about);
    CallBodyLeaves(k1, number, thread, text);
    CallBodyQuiet(k1, CallOf(number), thread, about, within);
    CallEntriesTagged(k1.p, k1.config, number, thread, text, |k1.l.log|, k1.l.current, k1.l.tx);
    SucceedsWhenAccepted(k1, number, thread, text);
    LastEntry(k1.l, k2.l, CallEntries(k1.p, k1.config, number, thread, text, |k1.l.log|, k1.l.current, k1.l.tx));
  }

  lemma FirstStays(l: Ledger, l': Ledger, entries: seq<Entry>, i: nat)
    requires Leaves(l, l', entries) && i < |l.log|
    ensures i < |l'.log| && l'.log[i] == l.log[i]
  {
  }

  lemma SyscallLeaves(k: Kernel, number: nat, thread: string, text: string, open: set<nat>)
    requires OpenExactly(k.l, open)
    ensures var k' := Syscall(k, CallOf(number), thread, text).0;
            && Leaves(k.l, k'.l,
                      BracketEntries(k.p, k.config, number, thread, text, |k.l.log|, |k.l.txs|, k.l.current))
            && k'.l.tx == 0
            && k'.l.current == (if |k.l.txs| < 32 then |k.l.log| + 1 else k.l.current)
  {
    hide OpenExactly, SyscallBegin, CallBody, Commit, Abort, Leaves, CallEntries, P.Decide, Decimal, CallSucceeds,
         Shows, CallOf, CallTarget;
    var about := CallTarget(CallOf(number), thread, text);
    OpenedCall(k, thread, about, open);
    var (k1, id) := SyscallBegin(k, thread, about);
    var within := if id == 0 then open else open + {id};
    BracketBody(k1, number, thread, text, within);
    var (k2, ok) := CallBody(k1, CallOf(number), thread, about);
    var body := CallEntries(k.p, k.config, number, thread, text, |k1.l.log|, k1.l.current, k1.l.tx);
    if id != 0 {
      OpenIsKnown(k2.l, within);
      FirstStays(k1.l, k2.l, body, id - 1);
      ClosingLeaves(k2.l, id, ok, "deny:syscall", thread);
      var begin := Entry(thread, Transact(id), "begin", Ok, "allow:transaction", "transaction", k.l.current, id);
      Together(k.l, k1.l, k2.l, [begin], body);
      var l3 := if ok then Commit(k2.l, id).0 else Abort(k2.l, id, "deny:syscall").0;
      var closing := Entry(thread, Transact(id), if ok then "commit" else "abort", if ok then Ok else Denied,
                           if ok then "allow:transaction" else "deny:syscall", "transaction", |k2.l.log|, id);
      Together(k.l, k2.l, l3, [begin] + body, [closing]);
      LeavesLength(k1.l, k2.l, body);
      EndKeepsCurrent(k2.l, id, ok, "deny:syscall");
      SameLog(k.l, l3, l3.(tx := 0), [begin] + body + [closing]);
    } else {
      SameStart(k.l, k1.l, k2.l, body);
      SameLog(k.l, k2.l, k2.l.(tx := 0), body);
    }
  }

  lemma LeavesLength(l: Ledger, l': Ledger, entries: seq<Entry>)
    requires Leaves(l, l', entries)
    ensures |l'.log| == |l.log| + |entries|
  {
  }

  lemma SameLog(l: Ledger, l1: Ledger, l2: Ledger, entries: seq<Entry>)
    requires Leaves(l, l1, entries) && l2.log == l1.log
    ensures Leaves(l, l2, entries)
  {
  }

  lemma SameStart(l: Ledger, l1: Ledger, l2: Ledger, entries: seq<Entry>)
    requires Leaves(l1, l2, entries) && l1.log == l.log
    ensures Leaves(l, l2, entries)
  {
  }

  lemma EndKeepsCurrent(l: Ledger, id: nat, ok: bool, reason: string)
    requires Known(l.txs, id)
    ensures (if ok then Commit(l, id).0 else Abort(l, id, reason).0).current == l.current
  {
    CloseLeaves(l, id, Committed, "commit", Ok, "allow:transaction", "committed");
    CloseLeaves(l, id, Aborted, "abort", Denied, reason, "aborted");
    hide Close, Decimal, FindTx, Revision;
  }

  // ---------------------------------------------------------------- the trap

  /** user_syscall_trap, after n events and with `used` transactions in use: two events on the way in, the call,
      and one on the way out. */
  function TrapEntries(p: P.Rules, config: Config, number: nat, ring3: bool, pid: nat, page: Page, address: nat, n: nat,
                       used: nat, current: nat, tx: nat)
    : seq<Entry>
  {
    var thread := Cut("thread/" + Decimal(pid), 47);
    var text := if number == 1 || number == 3 || number == 4 then TextNamed(page, address) else "kernel";
    [Entry(thread, "kernel", "cpl3_trap", if ring3 then Ok else Denied, if ring3 then "allow:cpl3" else "deny:not-cpl3",
           "syscall", current, tx),
     Entry(thread, "kernel", "switch_cr3", Ok, "allow:syscall-kernel-cr3", "action", current, tx)] +
    BracketEntries(p, config, number, thread, text, n + 2, used, current) +
    [Entry(thread, Cut("address_space/" + Decimal(pid), 47), "switch_cr3", Ok, "allow:syscall-user-cr3", "action",
           if used < 32 then n + 3 else current, 0)]
  }

  lemma EnterTrapLeaves(k: Kernel, ring3: bool, thread: string)
    ensures var k2 := EnterTrap(k, ring3, thread);
            && k2.p == k.p && k2.config == k.config && k2.l.current == k.l.current && k2.l.tx == k.l.tx
            && Leaves(k.l, k2.l,
                      [Entry(thread, "kernel", "cpl3_trap", if ring3 then Ok else Denied,
                             if ring3 then "allow:cpl3" else "deny:not-cpl3", "syscall", k.l.current, k.l.tx),
                       Entry(thread, "kernel", "switch_cr3", Ok, "allow:syscall-kernel-cr3", "action", k.l.current,
                             k.l.tx)])
  {
    hide Note, Leaves;
    var result, why := if ring3 then Ok else Denied, if ring3 then "allow:cpl3" else "deny:not-cpl3";
    var k1 := Note(k, thread, "kernel", "cpl3_trap", result, k.l.current, why, "syscall");
    NoteLeaves(k, thread, "kernel", "cpl3_trap", result, k.l.current, why, "syscall");
    NoteLeaves(k1, thread, "kernel", "switch_cr3", Ok, k1.l.current, "allow:syscall-kernel-cr3", "action");
    Together(k.l, k1.l, EnterTrap(k, ring3, thread).l,
             [Entry(thread, "kernel", "cpl3_trap", result, why, "syscall", k.l.current, k.l.tx)],
             [Entry(thread, "kernel", "switch_cr3", Ok, "allow:syscall-kernel-cr3", "action", k.l.current, k.l.tx)]);
    assert forall a: Entry, b: Entry :: [a] + [b] == [a, b];
  }

  lemma TrapParts(k: Kernel, number: nat, ring3: bool, pid: nat, page: Page, address: nat, open: set<nat>,
                  enter: seq<Entry>)
    requires OpenExactly(k.l, open) && |enter| == 2 && Leaves(k.l, EnterTrap(k, ring3, ThreadName(pid)).l, enter)
    ensures var thread, text := ThreadName(pid), TrapTarget(number, page, address);
            var current := if |k.l.txs| < 32 then |k.l.log| + 3 else k.l.current;
            Leaves(k.l, Trap(k, number, ring3, pid, page, address).0.l,
                   enter +
                   BracketEntries(k.p, k.config, number, thread, text, |k.l.log| + 2, |k.l.txs|, k.l.current) +
                   [Entry(thread, SpaceName(pid), "switch_cr3", Ok, "allow:syscall-user-cr3", "action", current, 0)])
    ensures var k' := Trap(k, number, ring3, pid, page, address).0;
            k'.l.tx == 0 && k'.l.current == if |k.l.txs| < 32 then |k.l.log| + 3 else k.l.current
  {
    var thread, text := ThreadName(pid), TrapTarget(number, page, address);
    EnterTrapQuiet(k, ring3, thread, open);
    EnterTrapLeaves(k, ring3, thread);
    LeavesLength(k.l, EnterTrap(k, ring3, thread).l, enter);
    hide OpenExactly, EnterTrap, Syscall, Note, Leaves, BracketEntries, ThreadName, SpaceName, TrapTarget, CallOf;
    var k2 := EnterTrap(k, ring3, thread);
    SyscallLeaves(k2, number, thread, text, open);
    var k3 := Syscall(k2, CallOf(number), thread, text).0;
    NoteLeaves(k3, thread, SpaceName(pid), "switch_cr3", Ok, k3.l.current, "allow:syscall-user-cr3", "action");
    var inside := BracketEntries(k.p, k.config, number, thread, text, |k.l.log| + 2, |k.l.txs|, k.l.current);
    Together(k.l, k2.l, k3.l, enter, inside);
    Together(k.l, k3.l, Trap(k, number, ring3, pid, page, address).0.l, enter + inside,
             [Entry(thread, SpaceName(pid), "switch_cr3", Ok, "allow:syscall-user-cr3", "action", k3.l.current, 0)]);
  }

  /** Every trap leaves exactly these events. */
  lemma TrapLeaves(k: Kernel, number: nat, ring3: bool, pid: nat, page: Page, address: nat, open: set<nat>)
    requires OpenExactly(k.l, open)
    ensures Leaves(k.l, Trap(k, number, ring3, pid, page, address).0.l,
                   TrapEntries(k.p, k.config, number, ring3, pid, page, address, |k.l.log|, |k.l.txs|, k.l.current,
                               k.l.tx))
    ensures var k' := Trap(k, number, ring3, pid, page, address).0;
            k'.l.tx == 0 && k'.l.current == if |k.l.txs| < 32 then |k.l.log| + 3 else k.l.current
  {
    var thread := ThreadName(pid);
    EnterTrapLeaves(k, ring3, thread);
    TargetIsNamed(number, page, address);
    var enter :=
      [Entry(thread, "kernel", "cpl3_trap", if ring3 then Ok else Denied,
             if ring3 then "allow:cpl3" else "deny:not-cpl3", "syscall", k.l.current, k.l.tx),
       Entry(thread, "kernel", "switch_cr3", Ok, "allow:syscall-kernel-cr3", "action", k.l.current, k.l.tx)];
    hide OpenExactly, EnterTrap, Trap, Leaves, BracketEntries, Decimal, TextNamed, TrapTarget;
    TrapParts(k, number, ring3, pid, page, address, open, enter);
  }

  lemma TargetIsNamed(number: nat, page: Page, address: nat)
    ensures TrapTarget(number, page, address) ==
            if number == 1 || number == 3 || number == 4 then TextNamed(page, address) else "kernel"
  {
    hide UserString;
  }

  // ---------------------------------------------------------------- under the shipped policy

  lemma NoRuleForWriting(i: nat, thread: string, text: string)
    requires i < 22
    ensures !P.Applies(B.RULES[i], thread, text, "syscall:config_set")
  {
    assert forall i {:trigger B.RULES[i]} :: 0 <= i < 22 ==> B.RULES[i].operation != "syscall:config_set";
  }

  lemma WritingIsDenied(thread: string, text: string)
    ensures !P.Decide(B.LOADED, thread, text, "syscall:config_set").allowed
  {
    B.RulesAreNumbered();
    forall i | 0 <= i < 22
      ensures !P.Applies(B.LOADED.list[i], thread, text, "syscall:config_set")
    {
      NoRuleForWriting(i, thread, text);
    }
    hide P.Applies, P.Reason;
  }

  lemma OthersAreAllowed(thread: string, text: string)
    ensures P.Decide(B.LOADED, thread, text, "syscall:inspect").allowed
    ensures P.Decide(B.LOADED, thread, text, "syscall:yield").allowed
    ensures P.Decide(B.LOADED, thread, text, "syscall:config_get").allowed
  {
    B.NewestRuleDecides(B.LOADED, 19, thread, text, "syscall:inspect");
    B.NewestRuleDecides(B.LOADED, 20, thread, text, "syscall:yield");
    B.NewestRuleDecides(B.LOADED, 21, thread, text, "syscall:config_get");
  }

  lemma ShippedPolicyAccepts(k: Kernel, number: nat, pid: nat, page: Page, address: nat)
    requires k.p == B.LOADED
    ensures TrapAccepted(k, number, pid, page, address) <==>
            number == 1 || number == 2 || (number == 3 && TextNamed(page, address) in k.config)
  {
    var thread, text := Cut("thread/" + Decimal(pid), 47), TextNamed(page, address);
    OthersAreAllowed(thread, text);
    OthersAreAllowed(thread, thread);
    WritingIsDenied(thread, text);
    hide P.Decide, TextNamed, Decimal, Cut, B.LOADED;
  }

  predicate IsConfigKey(text: string) { text == "/config/theme" || text == "/config/prompt" }

  lemma KeyOfConfig(config: Config, text: string)
    requires config.Keys == {"/config/theme", "/config/prompt"}
    ensures text in config <==> IsConfigKey(text)
  {
    assert text in config <==> text in config.Keys;
  }

  /** Under the shipped policy any process may inspect, yield and read values, of the two keys, and none may
      ever write one: call 4 is denied and its transaction aborted. */
  lemma ShippedPolicyCalls(k: Kernel, number: nat, ring3: bool, pid: nat, page: Page, address: nat, open: set<nat>)
    requires OpenExactly(k.l, open) && k.p == B.LOADED && k.config.Keys == {"/config/theme", "/config/prompt"}
    ensures var (k', id, ok) := Trap(k, number, ring3, pid, page, address);
            && (ok <==> number == 1 || number == 2 || (number == 3 && IsConfigKey(TextNamed(page, address))))
            && Ended(k'.l, id, ok)
  {
    KeyOfConfig(k.config, TextNamed(page, address));
    hide IsConfigKey;
    ShippedPolicyAccepts(k, number, pid, page, address);
    hide OpenExactly, Trap, Ended, TextNamed, TrapAccepted, B.LOADED, Known;
    TrapCloses(k, number, ring3, pid, page, address, open);
  }
}
