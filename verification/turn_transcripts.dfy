/** A turn of the command loop: every event that it leaves, from prompt to prompt. */
module TurnTranscripts {
  import opened Text
  import opened EventRing
  import opened Ledger
  import opened Kernel
  import opened Commands
  import opened Closure
  import opened Prompts
  import opened TransactionObjects
  import opened Transcript
  import opened CommandTranscripts
  import opened LineTranscripts
  import B = Boot
  import C = CallTranscripts
  import M = Mirror
  import P = Policy
  import S = Scripts

  // ---------------------------------------------------------------- tags

  predicate Tagged(entries: seq<Entry>, tx: nat) { forall x :: x in entries ==> x.tx == tx }

  lemma RunTagged(p: P.Rules, path: string, n: nat, current: nat, tx: nat)
    ensures Tagged(RunEntries(p, path, n, current, tx), tx)
  {
    hide P.Decide, IsFile, IsModule;
    var module_ := Gate(p, "memory", "memory:inspect", "memory", "memory", "inspect", "state", n + 3, current, tx);
    assert Tagged(module_, tx);
    hide Gate;
  }

  lemma PolicyTagged(p: P.Rules, objects: seq<KObject>, request: Option<string>, n: nat, current: nat, tx: nat)
    ensures Tagged(PolicyEntries(p, objects, request, n, current, tx), tx)
  {
    hide P.Decide, ParseRequest, HasObject, ChangeReason;
  }

  lemma ConfigTagged(p: P.Rules, config: Config, objects: seq<KObject>, key: string, n: nat, current: nat, tx: nat)
    ensures Tagged(GetEntries(p, config, key, n, current, tx), tx)
    ensures Tagged(SetEntries(p, config, objects, key, n, current, tx), tx)
  {
    hide P.Decide, HasObject;
  }

  lemma GateTagged(p: P.Rules, target: string, gate: string, actor: string, about: string, verb: string, kind: string,
                   n: nat, current: nat, tx: nat)
    ensures Tagged(Gate(p, target, gate, actor, about, verb, kind, n, current, tx), tx)
  {
    hide P.Decide;
  }

  lemma CatTagged(p: P.Rules, path: string, n: nat, current: nat, tx: nat)
    ensures Tagged(CatEntries(p, path, n, current, tx), tx)
  {
    hide P.Decide, IsFile;
  }

  /** Everything that a command leaves inside its bracket belongs to its transaction. */
  lemma WordTagged(p: P.Rules, config: Config, objects: seq<KObject>, word: string, argument: Option<string>,
                   about: string, n: nat, current: nat, tx: nat, event: nat)
    ensures Tagged(WordEntries(p, config, objects, word, argument, about, n, current, tx, event), tx)
  {
    hide Gate, CatEntries, RunEntries, GetEntries, SetEntries, PolicyEntries, Split, Tagged;
    OneTagged(word, event, tx);
    PolicyTagged(p, objects, argument, n, current, tx);
    GateTagged(p, "window", "ui:clear", "shell", "window", "clear", "state", n, current, tx);
    GateTagged(p, "window", "ui:redraw", "shell", "window", "redraw", "state", n, current, tx);
    GateTagged(p, "memory", "memory:inspect", "memory", "memory", "inspect", "state", n, current, tx);
    GateTagged(p, "ramfs", "filesystem:list", "ramfs", "ramfs", "list", "state", n, current, tx);
    if argument.Some? {
      var a := argument.value;
      CatTagged(p, a, n, current, tx);
      RunTagged(p, a, n, current, tx);
      ConfigTagged(p, config, objects, a, n, current, tx);
      ConfigTagged(p, config, objects, Split(a).0, n, current, tx);
      GateTagged(p, a, "inspect", "shell", a, "inspect", "query", n, current, tx);
      GateTagged(p, a, "expand", "shell", a, "expand", "query", n, current, tx);
      GateTagged(p, a, "history", "shell", a, "history", "query", n, current, tx);
      var asked := if "tx " <= a then about else a;
      GateTagged(p, asked, "why", "shell", asked, "why", "query", n, current, tx);
    }
  }

  lemma OneTagged(word: string, event: nat, tx: nat)
    ensures Tagged([], tx)
    ensures Tagged([Entry("shell", word, "command", Denied, "deny:unknown-command", "action", event, tx)], tx)
  {
  }

  // ---------------------------------------------------------------- the registry inside the bracket

  /** No object was added but a transaction's. */
  ghost predicate SameNames(objects: seq<KObject>, objects': seq<KObject>) {
    forall name :: "t" <= name || (HasObject(objects', name) <==> HasObject(objects, name))
  }

  lemma BeginKeepsNames(l: Ledger, actor: string, target: string, parent: nat)
    ensures SameNames(l.objects, Begin(l, actor, target, parent).0.objects)
  {
    hide HasObject, Begin;
    forall name: string | !("t" <= name)
      ensures HasObject(Begin(l, actor, target, parent).0.objects, name) <==> HasObject(l.objects, name)
    {
      BeginObjects(l, actor, target, parent, name);
    }
  }

  lemma BeginObjects(l: Ledger, actor: string, target: string, parent: nat, name: string)
    requires !("t" <= name)
    ensures HasObject(Begin(l, actor, target, parent).0.objects, name) <==> HasObject(l.objects, name)
  {
    var l' := Begin(l, actor, target, parent).0;
    if |l.txs| < 32 {
      var id := NextSequence(l);
      var l1 := Register(l, "transaction", TransactionName(id), ObjectId(l.objects, "events"), "open", parent).0;
      assert l'.objects == l1.objects;
      assert TransactionName(id)[0] == 't';
      hide Found, TransactionName, Decimal;
      if HasObject(l.objects, name) {
        var i :| 0 <= i < |l.objects| && l.objects[i].name == name;
        assert l1.objects[i].name == name;
      }
    }
  }

  /** The entries depend on the registry only by whether the policy and the keys are in it. */
  lemma SameEntries(p: P.Rules, config: Config, o1: seq<KObject>, o2: seq<KObject>, word: string,
                    argument: Option<string>, about: string, n: nat, current: nat, tx: nat, event: nat)
    requires HasObject(o1, BASE) <==> HasObject(o2, BASE)
    requires forall key :: key in config ==> (HasObject(o1, key) <==> HasObject(o2, key))
    ensures WordEntries(p, config, o1, word, argument, about, n, current, tx, event) ==
            WordEntries(p, config, o2, word, argument, about, n, current, tx, event)
  {
    hide HasObject, Gate, CatEntries, RunEntries, GetEntries, Split, P.Decide, ParseRequest, ChangeReason;
  }

  // ---------------------------------------------------------------- the bracket

  /** What a command is about, by its words. */
  function About(word: string, argument: Option<string>): string {
    if word == "policy" then "policy/base.policy"
    else if word == "userdemo" then "scheduler"
    else if argument == None then Cut(word, 47)
    else if word == "set" then Cut(Split(argument.value).0, 47)
    else if word == "why" && "tx " <= argument.value then
      Cut("transaction/" + Decimal(ParseWhole(argument.value[3..], 0x1_0000_0000_0000_0000)), 47)
    else Cut(argument.value, 47)
  }

  lemma AboutIsTarget(line: string)
    ensures TransactionTarget(line) == About(Split(line).0, Split(line).1)
  {
    hide Split, Cut, Decimal, ParseWhole;
  }

  /** A command's two events before its body, or its one when the transaction table is full. */
  function OpeningEntries(word: string, about: string, n: nat, used: nat, boot: nat): seq<Entry> {
    [Entry("shell", about, "command", Ok, word, "command", boot, 0)] +
    if used >= 32 then []
    else [Entry("shell", Transact(n + 2), "begin", Ok, "allow:transaction", "transaction", n + 1, n + 2)]
  }

  /** The event that ends the transaction begun by event `id`, when `last` is its last event so far. */
  function ClosingEntry(id: nat, ok: bool, last: nat): Entry {
    Entry("shell", Transact(id), if ok then "commit" else "abort", if ok then Ok else Denied,
          if ok then "allow:transaction" else "deny:transaction", "transaction", last, id)
  }

  /** A command, from prompt to prompt, after n events and with `used` transactions in use. */
  function CommandEntries(p: P.Rules, config: Config, objects: seq<KObject>, word: string, argument: Option<string>,
                          n: nat, used: nat, boot: nat)
    : seq<Entry>
  {
    var about := About(word, argument);
    var opening := OpeningEntries(word, about, n, used, boot);
    if used >= 32 then opening + WordEntries(p, config, objects, word, argument, about, n + 1, n + 1, 0, n + 1)
    else
      var body := WordEntries(p, config, objects, word, argument, about, n + 2, n + 2, n + 2, n + 1);
      opening + body + [ClosingEntry(n + 2, WordSucceeds(p, config, word, argument, about), n + 2 + |body|)]
  }

  /** The two keys of the configuration are not numbers and name no transaction. */
  predicate PlainKeys(config: Config) { config.Keys == {"/config/theme", "/config/prompt"} }

  lemma KeysArePlain(config: Config, key: string)
    requires PlainKeys(config) && key in config
    ensures key != "" && key[0] == '/' && !AllDigits(key)
  {
    assert key in config.Keys;
  }

  lemma CommandEvent(l: Ledger, word: string, about: string, boot: nat)
    requires OpenExactly(l, {}) && l.current == boot && l.tx == 0
    ensures var l1 := Record(l, "shell", about, "command", Ok, boot, word, "command");
            && Leaves(l, l1, [Entry("shell", about, "command", Ok, word, "command", boot, 0)])
            && OpenExactly(l1, {}) && |l1.txs| == |l.txs| && |l1.log| == |l.log| + 1
  {
    PlainKinds();
    CurrentIsPast(l, {});
    hide OpenExactly, Record, Leaves, PlainKind;
    RecordPlain(l, "shell", about, "command", Ok, boot, word, "command", {});
    RecordLeaves(l, "shell", about, "command", Ok, boot, word, "command");
  }

  lemma BeginEvent(l: Ledger, about: string, id: nat)
    requires OpenExactly(l, {}) && id == |l.log| + 1
    ensures var (l', tx) := Begin(l, "shell", about, |l.log|);
            if |l.txs| < 32 then
              && tx == id && |l'.log| == id
              && Leaves(l, l',
                        [Entry("shell", Transact(id), "begin", Ok, "allow:transaction", "transaction", |l.log|, id)])
            else tx == 0 && l' == l
  {
    OpenIsKnown(l, {});
    BeginLeaves(l, "shell", about, |l.log|);
    hide OpenExactly, JournalOk, Begin, Decimal;
  }

  lemma EnterLeaves(k: Kernel, line: string, boot: nat)
    requires AtPrompt(k, boot)
    ensures var (k1, event, id) := Enter(k, line);
            var n := |k.l.log|;
            && Leaves(k.l, k1.l, OpeningEntries(Split(line).0, About(Split(line).0, Split(line).1), n, |k.l.txs|, boot))
            && event == n + 1 && k1.l.tx == id
            && (if |k.l.txs| < 32 then id == n + 2 && k1.l.current == id && |k1.l.log| == id
                else id == 0 && k1.l.current == n + 1 && |k1.l.log| == n + 1)
            && SameNames(k.l.objects, k1.l.objects)
  {
    AboutIsTarget(line);
    hide SameNames, OpenExactly, Record, Begin, Split, TransactionTarget, About, Leaves, Decimal;
    var word, about := Split(line).0, TransactionTarget(line);
    var event := NextSequence(k.l);
    CommandEvent(k.l, word, about, boot);
    var l1 := Record(k.l, "shell", about, "command", Ok, boot, word, "command");
    BeginEvent(l1, about, event + 1);
    BeginKeepsNames(l1, "shell", about, event);
    C.RecordKeeps(k.l, "shell", about, "command", Ok, boot, word, "command");
    var (l2, id) := Begin(l1, "shell", about, event);
    var command := [Entry("shell", about, "command", Ok, word, "command", boot, 0)];
    if id != 0 {
      var begin := [Entry("shell", Transact(id), "begin", Ok, "allow:transaction", "transaction", event, id)];
      Together(k.l, l1, l2, command, begin);
      C.SameLog(k.l, l2, l2.(tx := id, current := id), command + begin);
    } else {
      assert command + [] == command;
      C.SameLog(k.l, l1, l1.(tx := 0, current := event), command);
    }
  }

  /** Inside the bracket: what the body leaves, and whether it succeeds. */
  lemma WithinLeaves(k: Kernel, k1: Kernel, line: string, demo: Demo, event: nat, open: set<nat>)
    requires OpenExactly(k1.l, open) && event <= |k1.l.log| && k1.p == k.p && k1.config == k.config
    requires PlainKeys(k.config) && Split(line).0 != "userdemo"
    requires SameNames(k.l.objects, k1.l.objects)
    ensures var (k2, ok) := Body(k1, Dispatch(line, demo), event);
            var (word, argument) := Split(line);
            var about := About(word, argument);
            && OpenExactly(k2.l, open)
            && Leaves(k1.l, k2.l, WordEntries(k.p, k.config, k.l.objects, word, argument, about, |k1.l.log|,
                                              k1.l.current, k1.l.tx, event))
            && (ok <==> WordSucceeds(k.p, k.config, word, argument, about))
  {
    AboutIsTarget(line);
    hide OpenExactly, Split, TransactionTarget, About, Leaves, DispatchWords, Body, WordEntries, WordSucceeds,
         HasObject, Succeeds, ConfigAfter, RulesAfter, AllDigits, PlainKeys;
    var (word, argument) := Split(line);
    var about := About(word, argument);
    forall key | key in k.config
      ensures !AllDigits(key) && (HasObject(k1.l.objects, key) <==> HasObject(k.l.objects, key))
    {
      KeysArePlain(k.config, key);
    }
    BodyLeaves(k1, word, argument, about, demo, event);
    SucceedsByWord(k1, word, argument, about, demo);
    BodyKeepsOpen(k1, Dispatch(line, demo), event, open);
    assert BASE[0] != 't';
    SameEntries(k.p, k.config, k1.l.objects, k.l.objects, word, argument, about, |k1.l.log|, k1.l.current, k1.l.tx,
                event);
  }

  /** The event before the body, or the last one of the body, belongs to the command's transaction. */
  lemma LastIsTagged(l: Ledger, l1: Ledger, l2: Ledger, opening: seq<Entry>, body: seq<Entry>, id: nat)
    requires Leaves(l, l1, opening) && Leaves(l1, l2, body)
    requires opening != [] && opening[|opening| - 1].tx == id && Tagged(body, id)
    ensures l2.log != [] && l2.log[|l2.log| - 1].tx == id
  {
    C.LastEntry(l, l1, opening);
    if body != [] {
      C.LastEntry(l1, l2, body);
    }
    hide Shows;
    C.LeavesLength(l1, l2, body);
    if body == [] {
      C.FirstStays(l1, l2, body, |l1.log| - 1);
    }
  }

  lemma LeaveLeaves(k: Kernel, id: nat, ok: bool, boot: nat)
    requires OpenExactly(k.l, {id}) && id != 0 && k.l.log != [] && k.l.log[|k.l.log| - 1].tx == id
    requires id <= |k.l.log| && k.l.log[id - 1].actor == "shell"
    ensures Leaves(k.l, Leave(k, id, ok, boot).l, [ClosingEntry(id, ok, |k.l.log|)])
  {
    OpenIsKnown(k.l, {id});
    hide OpenExactly, JournalOk, Commit, Abort, Leaves, Decimal;
    C.ClosingLeaves(k.l, id, ok, "deny:transaction", "shell");
    var l1 := if ok then Commit(k.l, id).0 else Abort(k.l, id, "deny:transaction").0;
    C.SameLog(k.l, l1, Leave(k, id, ok, boot).l, [ClosingEntry(id, ok, |k.l.log|)]);
  }

  /** Every command but userdemo leaves exactly these events between one prompt and the next. */
  lemma CommandLeaves(k: Kernel, line: string, demo: Demo, boot: nat)
    requires AtPrompt(k, boot) && boot <= |k.l.log| && PlainKeys(k.config)
    requires Split(line).0 != "userdemo"
    ensures Leaves(k.l, RunCommand(k, line, demo, boot).l,
                   CommandEntries(k.p, k.config, k.l.objects, Split(line).0, Split(line).1, |k.l.log|, |k.l.txs|, boot))
  {
    hide OpenExactly, Enter, Body, Leave, Dispatch, Split, About, Leaves, WordEntries, WordSucceeds, SameNames,
         PlainKeys, OpeningEntries, ClosingEntry;
    EnterOpens(k, line, boot);
    EnterLeaves(k, line, boot);
    var (k1, event, id) := Enter(k, line);
    var (word, argument) := Split(line);
    var about := About(word, argument);
    var opening := OpeningEntries(word, about, |k.l.log|, |k.l.txs|, boot);
    WithinLeaves(k, k1, line, demo, event, if id == 0 then {} else {id});
    var (k2, ok) := Body(k1, Dispatch(line, demo), event);
    var body := WordEntries(k.p, k.config, k.l.objects, word, argument, about, |k1.l.log|, k1.l.current, k1.l.tx,
                            event);
    Together(k.l, k1.l, k2.l, opening, body);
    if id == 0 {
      FullLeave(k2, ok, boot);
      C.SameLog(k.l, k2.l, Leave(k2, 0, ok, boot).l, opening + body);
    } else {
      EndOfBracket(k, k1, k2, word, argument, about, id, event, boot, ok);
      Together(k.l, k2.l, Leave(k2, id, ok, boot).l, opening + body, [ClosingEntry(id, ok, id + |body|)]);
    }
  }

  lemma FullLeave(k: Kernel, ok: bool, boot: nat)
    ensures Leave(k, 0, ok, boot).l.log == k.l.log
  {
    hide Commit, Abort;
  }

  lemma EndOfBracket(k: Kernel, k1: Kernel, k2: Kernel, word: string, argument: Option<string>, about: string, id: nat,
                     event: nat, boot: nat, ok: bool)
    requires |k.l.txs| < 32 && id == |k.l.log| + 2 == |k1.l.log| && k1.l.current == id == k1.l.tx
    requires Leaves(k.l, k1.l, OpeningEntries(word, about, |k.l.log|, |k.l.txs|, boot))
    requires OpenExactly(k2.l, {id})
    requires Leaves(k1.l, k2.l, WordEntries(k.p, k.config, k.l.objects, word, argument, about, id, id, id, event))
    ensures var body := WordEntries(k.p, k.config, k.l.objects, word, argument, about, id, id, id, event);
            Leaves(k2.l, Leave(k2, id, ok, boot).l, [ClosingEntry(id, ok, id + |body|)])
  {
    hide OpenExactly, Leaves, WordEntries, Leave, ClosingEntry, Shows, Decimal;
    var opening := OpeningEntries(word, about, |k.l.log|, |k.l.txs|, boot);
    var body := WordEntries(k.p, k.config, k.l.objects, word, argument, about, id, id, id, event);
    WordTagged(k.p, k.config, k.l.objects, word, argument, about, id, id, id, event);
    LastIsTagged(k.l, k1.l, k2.l, opening, body, id);
    OpeningActor(k.l, k1.l, opening);
    C.LeavesLength(k1.l, k2.l, body);
    C.FirstStays(k1.l, k2.l, body, id - 1);
    LeaveLeaves(k2, id, ok, boot);
  }

  lemma OpeningActor(l: Ledger, l1: Ledger, opening: seq<Entry>)
    requires Leaves(l, l1, opening) && opening != [] && opening[|opening| - 1].actor == "shell"
    ensures l1.log != [] && l1.log[|l1.log| - 1].actor == "shell"
  {
    C.LastEntry(l, l1, opening);
  }

  /** From power-on, over any run of commands: so does the next command. */
  lemma EveryCommandLeaves(source: string, before: seq<Op>, after: seq<Op>, turns: seq<Turn>, line: string, demo: Demo)
    requires B.StartOk(source, before, after) && Split(line).0 != "userdemo"
    ensures var k := RunAll(B.Start(source, before, after), turns, 1);
            Leaves(k.l, RunCommand(k, line, demo, 1).l,
                   CommandEntries(k.p, k.config, k.l.objects, Split(line).0, Split(line).1, |k.l.log|, |k.l.txs|, 1))
  {
    hide B.StartOk, B.Start, B.T.Parse, M.SetsAfterAll, RulesAdded, RunAll, AtPrompt, M.Mirrored, P.Grown, RunCommand,
         CommandEntries, Leaves, Split;
    B.EveryPromptFromPowerOn(source, before, after, turns);
    var k := RunAll(B.Start(source, before, after), turns, 1);
    PromptIsPast(k);
    CommandLeaves(k, line, demo, 1);
  }

  lemma PromptIsPast(k: Kernel)
    requires AtPrompt(k, 1)
    ensures 1 <= |k.l.log|
  {
    OpenIsKnown(k.l, {});
  }
}
