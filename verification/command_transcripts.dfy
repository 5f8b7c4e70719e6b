/** The commands of the shell, by their words: what each leaves in the journal. */
module CommandTranscripts {
  import opened Text
  import opened EventRing
  import opened Ledger
  import opened Kernel
  import opened Commands
  import opened Closure
  import opened Prompts
  import opened TransactionObjects
  import opened Transcript
  import opened ScriptRuns
  import C = CallTranscripts
  import P = Policy
  import R = RamFs
  import S = Scripts
  import T = PolicyText

  // ---------------------------------------------------------------- files

  predicate IsModule(path: string) { path == "/modules/ABOUT.MOD" || path == "/modules/MEMORY.MOD" }

  predicate IsFile(path: string) { path == "/README.TXT" || path == "/bin/hello" || IsModule(path) }

  function LookupEntry(path: string, check: nat, tx: nat): Entry {
    Entry("ramfs", path, "lookup", if IsFile(path) then Ok else Denied,
          if IsFile(path) then "allow:filesystem:lookup" else "deny:not-found", "state", check, tx)
  }

  lemma FilesByPath(path: string)
    ensures R.Lookup(path).Some? <==> IsFile(path)
    ensures IsFile(path) ==> (R.Lookup(path).value.kind == R.ModuleFile <==> IsModule(path))
    ensures IsModule(path) ==>
              && R.Lookup(path).value.size < R.MODULE_BUFFER
              && R.Lookup(path).value.text == if path == "/modules/MEMORY.MOD" then R.MEMORY else R.ABOUT
  {
    assert R.LookupFrom(path, 4) == None;
    assert R.LookupFrom(path, 3) == if R.FILES[3].path == path then Some(R.FILES[3]) else None;
    assert R.LookupFrom(path, 2) == if R.FILES[2].path == path then Some(R.FILES[2]) else R.LookupFrom(path, 3);
    assert R.LookupFrom(path, 1) == if R.FILES[1].path == path then Some(R.FILES[1]) else R.LookupFrom(path, 2);
    assert R.LookupFrom(path, 0) == if R.FILES[0].path == path then Some(R.FILES[0]) else R.LookupFrom(path, 1);
    hide R.README, R.ABOUT, R.MEMORY;
    assert |R.ABOUT| < R.MODULE_BUFFER && |R.MEMORY| < R.MODULE_BUFFER by {
      ModuleSizes();
    }
  }

  lemma ModuleSizes()
    ensures |R.ABOUT| < R.MODULE_BUFFER && |R.MEMORY| < R.MODULE_BUFFER
  {
  }

  // ---------------------------------------------------------------- the handlers

  /** print_file */
  function CatEntries(p: P.Rules, path: string, n: nat, current: nat, tx: nat): seq<Entry> {
    var v := P.Decide(p, "shell", path, "filesystem:read");
    [Asked(p, "shell", path, "filesystem:read", current, tx)] +
    if !v.allowed then []
    else
      [LookupEntry(path, n + 1, tx)] +
      if IsFile(path) then [Entry("ramfs", path, "read", Ok, v.reason, "state", n + 1, tx)] else []
  }

  /** run_module, for the modules there are: only MEMORY.MOD has a line that records anything. */
  function RunEntries(p: P.Rules, path: string, n: nat, current: nat, tx: nat): seq<Entry> {
    var v := P.Decide(p, "shell", path, "module:load");
    [Asked(p, "shell", path, "module:load", current, tx)] +
    if !v.allowed then []
    else
      [LookupEntry(path, n + 1, tx)] +
      if !IsFile(path) then []
      else if !IsModule(path) then [Entry("ramfs", path, "type_check", Denied, "deny:not-module", "policy", n + 1, tx)]
      else
        [Entry("ramfs", path, "read", Ok, v.reason, "state", n + 1, tx)] +
        if path == "/modules/MEMORY.MOD" then
          Gate(p, "memory", "memory:inspect", "memory", "memory", "inspect", "state", n + 3, current, tx)
        else []
  }

  /** show_config */
  function GetEntries(p: P.Rules, config: Config, key: string, n: nat, current: nat, tx: nat): seq<Entry> {
    var v := P.Decide(p, "shell", key, "config:get");
    [Asked(p, "shell", key, "config:get", current, tx)] +
    if !v.allowed then []
    else if key in config then [Entry("config", key, "get", Ok, v.reason, "state", n + 1, tx)]
    else [Entry("config", key, "get", Denied, "deny:unknown-config-key", "state", n + 1, tx)]
  }

  /** What object_update_state records under event n + 1. */
  function StateEntries(objects: seq<KObject>, name: string, n: nat, tx: nat): seq<Entry> {
    if HasObject(objects, name) then
      [Entry("object", name, "state_update", Ok, "allow:object-state", "state", n + 1, tx)]
    else []
  }

  /** set_config */
  function SetEntries(p: P.Rules, config: Config, objects: seq<KObject>, key: string, n: nat, current: nat, tx: nat)
    : seq<Entry>
  {
    var v := P.Decide(p, "shell", key, "config:set");
    [Asked(p, "shell", key, "config:set", current, tx)] +
    if !v.allowed then []
    else if key !in config then [Entry("config", key, "set", Denied, "deny:unknown-config-key", "state", n + 1, tx)]
    else StateEntries(objects, key, n, tx) + [Entry("config", key, "set", Ok, v.reason, "state", n + 1, tx)]
  }

  lemma AtLeaves(k: Kernel, event: nat, l': Ledger, entries: seq<Entry>)
    requires Leaves(At(k, event).l, l', entries)
    ensures Leaves(k.l, l', entries)
  {
  }

  lemma ToAt(k: Kernel, k': Kernel, event: nat, entries: seq<Entry>)
    requires Leaves(k.l, k'.l, entries)
    ensures Leaves(k.l, At(k', event).l, entries)
  {
  }

  lemma LookupLeaves(k: Kernel, path: string, event: nat)
    ensures var k' := LookedUp(k, path, event);
            && Leaves(k.l, k'.l, [LookupEntry(path, event, k.l.tx)])
            && k'.l.current == k.l.current && k'.l.tx == k.l.tx && k'.p == k.p
  {
    FilesByPath(path);
    hide Note, Leaves, R.Lookup, IsFile;
    var found := R.Lookup(path).Some?;
    var result, why := if found then Ok else Denied, if found then "allow:filesystem:lookup" else "deny:not-found";
    NoteLeaves(At(k, event), "ramfs", path, "lookup", result, event, why, "state");
    var k1 := Note(At(k, event), "ramfs", path, "lookup", result, event, why, "state");
    AtLeaves(k, event, k1.l, [LookupEntry(path, event, k.l.tx)]);
    ToAt(k, k1, k.l.current, [LookupEntry(path, event, k.l.tx)]);
  }

  /** A check of the shell, and a lookup under its event when it allows. */
  lemma CheckedLookup(k: Kernel, path: string, gate: string)
    ensures var c := Check(k, "shell", path, gate);
            var k' := LookedUp(c.k, path, c.event);
            && Leaves(k.l, k'.l, [Asked(k.p, "shell", path, gate, k.l.current, k.l.tx),
                                  LookupEntry(path, |k.l.log| + 1, k.l.tx)])
            && k'.l.current == k.l.current && k'.l.tx == k.l.tx && k'.p == k.p && |k'.l.log| == |k.l.log| + 2
  {
    hide Check, LookedUp, P.Decide, Asked, LookupEntry, Shows;
    CheckLeaves(k, "shell", path, gate);
    var c := Check(k, "shell", path, gate);
    LookupLeaves(c.k, path, c.event);
    var a, b := Asked(k.p, "shell", path, gate, k.l.current, k.l.tx), LookupEntry(path, |k.l.log| + 1, k.l.tx);
    Together(k.l, c.k.l, LookedUp(c.k, path, c.event).l, [a], [b]);
    assert [a] + [b] == [a, b];
  }

  lemma CatLeaves(k: Kernel, path: string)
    ensures Leaves(k.l, ReadFile(k, path).l, CatEntries(k.p, path, |k.l.log|, k.l.current, k.l.tx))
  {
    hide Check, LookedUp, Note, Leaves, P.Decide, Asked, LookupEntry, IsFile, R.Lookup;
    FilesByPath(path);
    CheckLeaves(k, "shell", path, "filesystem:read");
    CheckedLookup(k, path, "filesystem:read");
    var c := Check(k, "shell", path, "filesystem:read");
    var k1 := LookedUp(c.k, path, c.event);
    NoteLeaves(k1, "ramfs", path, "read", Ok, c.event, c.reason, "state");
    var a := Asked(k.p, "shell", path, "filesystem:read", k.l.current, k.l.tx);
    var b := LookupEntry(path, |k.l.log| + 1, k.l.tx);
    var r := Entry("ramfs", path, "read", Ok, c.reason, "state", c.event, k.l.tx);
    assert [a] + [] == [a] && [a] + ([b] + []) == [a, b] && [a] + ([b] + [r]) == [a, b] + [r];
    if c.allowed && IsFile(path) {
      Together(k.l, k1.l, ReadFile(k, path).l, [a, b], [r]);
    }
  }

  lemma GetLeaves(k: Kernel, key: string)
    ensures Leaves(k.l, ShowConfig(k, key).0.l, GetEntries(k.p, k.config, key, |k.l.log|, k.l.current, k.l.tx))
  {
    hide Check, Note, Leaves, P.Decide, Asked;
    CheckLeaves(k, "shell", key, "config:get");
    var c := Check(k, "shell", key, "config:get");
    NoteLeaves(c.k, "config", key, "get", Denied, c.event, "deny:unknown-config-key", "state");
    NoteLeaves(c.k, "config", key, "get", Ok, c.event, c.reason, "state");
    var a := Asked(k.p, "shell", key, "config:get", k.l.current, k.l.tx);
    assert [a] + [] == [a];
    if c.allowed {
      var e := if key in k.config then Entry("config", key, "get", Ok, c.reason, "state", c.event, k.l.tx)
               else Entry("config", key, "get", Denied, "deny:unknown-config-key", "state", c.event, k.l.tx);
      Together(k.l, c.k.l, ShowConfig(k, key).0.l, [a], [e]);
    }
  }

  lemma SetKeyLeaves(k: Kernel, key: string, value: string, n: nat)
    requires key in k.config && !AllDigits(key) && k.l.current == n + 1
    ensures var k' := SetKey(k, key, value).0;
            Leaves(k.l, k'.l, StateEntries(k.l.objects, key, n, k.l.tx)) && k'.l.tx == k.l.tx
  {
    UpdateLeaves(k.l, key, Cut(value, LABEL));
    UpdateKeepsTag(k.l, key, Cut(value, LABEL));
    hide Leaves, UpdateState, HasObject, Cut;
  }

  lemma UpdateKeepsTag(l: Ledger, name: string, state: string)
    ensures UpdateState(l, name, state).tx == l.tx
  {
    hide FindObject, SetState, Cut, Touch, Found;
  }

  lemma SetLeaves(k: Kernel, argument: string)
    requires forall key :: key in k.config ==> !AllDigits(key)
    ensures var (key, value) := Split(argument);
            Leaves(k.l, SetConfig(k, argument).0.l,
                   if value == None then []
                   else SetEntries(k.p, k.config, k.l.objects, key, |k.l.log|, k.l.current, k.l.tx))
  {
    hide Check, Note, SetKey, Leaves, P.Decide, Asked, Split, AllDigits, StateEntries;
    var (key, value) := Split(argument);
    if value == None {
      LeavesNothing(k.l, k.l);
    } else {
      CheckLeaves(k, "shell", key, "config:set");
      var c := Check(k, "shell", key, "config:set");
      var a := Asked(k.p, "shell", key, "config:set", k.l.current, k.l.tx);
      assert [a] + [] == [a];
      if c.allowed {
        SetAfterCheck(k, c, key, value.value, [a]);
        assert [a] + (StateEntries(k.l.objects, key, |k.l.log|, k.l.tx) +
                      [Entry("config", key, "set", Ok, c.reason, "state", c.event, k.l.tx)]) ==
               [a] + StateEntries(k.l.objects, key, |k.l.log|, k.l.tx) +
               [Entry("config", key, "set", Ok, c.reason, "state", c.event, k.l.tx)];
      }
    }
  }

  /** set_config once its check has allowed it. */
  lemma SetAfterCheck(k: Kernel, c: Checked, key: string, value: string, a: seq<Entry>)
    requires c.event == |k.l.log| + 1 && c.k.l.tx == k.l.tx && c.k.l.objects == k.l.objects && c.k.config == k.config
    requires Leaves(k.l, c.k.l, a) && (key in k.config ==> !AllDigits(key))
    ensures var (k1, ok) := SetKey(At(c.k, c.event), key, value);
            var k2 := At(k1, k.l.current);
            var k' := if ok then Note(k2, "config", key, "set", Ok, c.event, c.reason, "state") else k2;
            Leaves(k.l, k'.l,
                   a + if key !in k.config then
                         [Entry("config", key, "set", Denied, "deny:unknown-config-key", "state", c.event, k.l.tx)]
                       else
                         StateEntries(k.l.objects, key, |k.l.log|, k.l.tx) +
                         [Entry("config", key, "set", Ok, c.reason, "state", c.event, k.l.tx)])
  {
    hide Note, Leaves, StateEntries, AllDigits, UpdateState, Record, Cut;
    var k0 := At(c.k, c.event);
    var (k1, ok) := SetKey(k0, key, value);
    var k2 := At(k1, k.l.current);
    if key !in k.config {
      var e := Entry("config", key, "set", Denied, "deny:unknown-config-key", "state", c.event, k.l.tx);
      RecordLeaves(k0.l, "config", key, "set", Denied, k0.l.current, "deny:unknown-config-key", "state");
      AtLeaves(c.k, c.event, k1.l, [e]);
      ToAt(c.k, k1, k.l.current, [e]);
      Together(k.l, c.k.l, k2.l, a, [e]);
    } else {
      var s := StateEntries(k.l.objects, key, |k.l.log|, k.l.tx);
      SetKeyLeaves(k0, key, value, |k.l.log|);
      AtLeaves(c.k, c.event, k1.l, s);
      ToAt(c.k, k1, k.l.current, s);
      NoteLeaves(k2, "config", key, "set", Ok, c.event, c.reason, "state");
      var e := Entry("config", key, "set", Ok, c.reason, "state", c.event, k.l.tx);
      var k3 := Note(k2, "config", key, "set", Ok, c.event, c.reason, "state");
      Together(c.k.l, k2.l, k3.l, s, [e]);
      Together(k.l, c.k.l, k3.l, a, s + [e]);
    }
  }

  // ---------------------------------------------------------------- run

  lemma MemoryText(k: Kernel)
    ensures RunLines(k, R.MEMORY) == CheckedNote(k, "memory", "memory:inspect", "inspect")
  {
    var first, second := "# Report allocator state", "meminfo";
    assert R.MEMORY == first + "\n" + (second + "\n" + "") && R.MEMORY != "";
    T.FirstLine(first, second + "\n" + "");
    T.FirstLine(second, "");
    assert first != "meminfo";
    hide CheckedNote, R.MEMORY, T.LineLength, T.AfterLine;
    TwoLines(k, R.MEMORY, second + "\n" + "");
  }

  lemma TwoLines(k: Kernel, text: string, rest: string)
    requires text != "" && rest != "" && T.AfterLine(text) == rest && T.AfterLine(rest) == ""
    requires text[..T.LineLength(text)] != "meminfo" && rest[..T.LineLength(rest)] == "meminfo"
    ensures RunLines(k, text) == CheckedNote(k, "memory", "memory:inspect", "inspect")
  {
    hide CheckedNote, T.LineLength, T.AfterLine;
    var k1 := CheckedNote(k, "memory", "memory:inspect", "inspect");
    assert RunLines(k, text) == RunLines(k, rest);
    assert RunLines(k, rest) == RunLines(k1, "");
    NoLines(k1);
  }

  lemma AboutText(k: Kernel)
    ensures RunLines(k, R.ABOUT) == k
  {
    var first, second := "# RAMFS shell module", "print Module loaded " + "through the " + "filesystem interface.";
    assert "filesystem interface.\n" == "filesystem interface." + "\n";
    assert "# RAMFS shell module\n" == first + "\n";
    assert R.ABOUT == first + "\n" + (second + "\n" + "");
    NoNewline();
    T.FirstLine(first, second + "\n" + "");
    T.FirstLine(second, "");
    assert first[0] != 'm' && second[0] != 'm';
    hide CheckedNote, R.ABOUT, T.LineLength, T.AfterLine;
    SilentLines(k, R.ABOUT, second + "\n" + "");
  }

  lemma NoNewline()
    ensures '\n' !in "# RAMFS shell module"
    ensures '\n' !in "print Module loaded " + "through the " + "filesystem interface."
  {
    assert '\n' !in "print Module loaded " && '\n' !in "through the " && '\n' !in "filesystem interface.";
  }

  lemma SilentLines(k: Kernel, text: string, rest: string)
    requires text != "" && rest != "" && T.AfterLine(text) == rest && T.AfterLine(rest) == ""
    requires text[..T.LineLength(text)] != "meminfo" && rest[..T.LineLength(rest)] != "meminfo"
    ensures RunLines(k, text) == k
  {
    hide CheckedNote, T.LineLength, T.AfterLine;
    assert RunLines(k, text) == RunLines(k, rest);
    assert RunLines(k, rest) == RunLines(k, "");
    NoLines(k);
  }

  lemma RunLeaves(k: Kernel, path: string)
    ensures Leaves(k.l, RunModule(k, path).l, RunEntries(k.p, path, |k.l.log|, k.l.current, k.l.tx))
  {
    hide Check, LookedUp, Note, Leaves, P.Decide, Asked, LookupEntry, R.Lookup, RunLines, Gate, R.MEMORY, R.ABOUT,
         CheckedNote;
    FilesByPath(path);
    CheckLeaves(k, "shell", path, "module:load");
    CheckedLookup(k, path, "module:load");
    var c := Check(k, "shell", path, "module:load");
    var a := Asked(k.p, "shell", path, "module:load", k.l.current, k.l.tx);
    var b := LookupEntry(path, |k.l.log| + 1, k.l.tx);
    NoLines(OpenModule(k, path).0);
    assert [a] + [] == [a] && [a] + ([b] + []) == [a, b];
    if c.allowed && IsFile(path) {
      LoadLeaves(k, path, a, b);
    }
  }

  lemma NoLines(k: Kernel)
    ensures RunLines(k, "") == k
  {
  }

  /** run_module for a file that is there and may be loaded. */
  lemma LoadLeaves(k: Kernel, path: string, a: Entry, b: Entry)
    requires IsFile(path) && Check(k, "shell", path, "module:load").allowed
    requires var c := Check(k, "shell", path, "module:load");
             && Leaves(k.l, LookedUp(c.k, path, c.event).l, [a, b])
             && c.event == |k.l.log| + 1 && LookedUp(c.k, path, c.event).l.tx == k.l.tx
             && c.reason == P.Decide(k.p, "shell", path, "module:load").reason
    ensures var v := P.Decide(k.p, "shell", path, "module:load");
            var n, tx := |k.l.log|, k.l.tx;
            Leaves(k.l, RunModule(k, path).l,
                   [a] + ([b] +
                   if !IsModule(path) then
                     [Entry("ramfs", path, "type_check", Denied, "deny:not-module", "policy", n + 1, tx)]
                   else
                     [Entry("ramfs", path, "read", Ok, v.reason, "state", n + 1, tx)] +
                     if path == "/modules/MEMORY.MOD" then
                       Gate(k.p, "memory", "memory:inspect", "memory", "memory", "inspect", "state", n + 3, k.l.current,
                            tx)
                     else []))
  {
    FilesByPath(path);
    CheckLeaves(k, "shell", path, "module:load");
    CheckedLookup(k, path, "module:load");
    hide Check, LookedUp, Note, Leaves, P.Decide, Asked, LookupEntry, R.Lookup, RunLines, Gate, R.MEMORY, R.ABOUT,
         CheckedNote, IsFile;
    var c := Check(k, "shell", path, "module:load");
    var k1 := LookedUp(c.k, path, c.event);
    var n, tx := |k.l.log|, k.l.tx;
    assert forall rest: seq<Entry> :: [a] + ([b] + rest) == [a, b] + rest;
    if !IsModule(path) {
      var e := Entry("ramfs", path, "type_check", Denied, "deny:not-module", "policy", n + 1, tx);
      NoteLeaves(k1, "ramfs", path, "type_check", Denied, c.event, "deny:not-module", "policy");
      var k2 := Note(k1, "ramfs", path, "type_check", Denied, c.event, "deny:not-module", "policy");
      NoLines(k2);
      Together(k.l, k1.l, k2.l, [a, b], [e]);
    } else {
      var e := Entry("ramfs", path, "read", Ok, c.reason, "state", n + 1, tx);
      NoteLeaves(k1, "ramfs", path, "read", Ok, c.event, c.reason, "state");
      var k2 := Note(k1, "ramfs", path, "read", Ok, c.event, c.reason, "state");
      Together(k.l, k1.l, k2.l, [a, b], [e]);
      if path == "/modules/MEMORY.MOD" {
        ModuleLines(k, k2, [a, b] + [e], n);
        var gate := Gate(k.p, "memory", "memory:inspect", "memory", "memory", "inspect", "state", n + 3, k.l.current,
                         tx);
        assert [a] + ([b] + ([e] + gate)) == [a, b] + [e] + gate;
      } else {
        AboutText(k2);
        assert [e] + [] == [e];
      }
    }
  }

  lemma ModuleLines(k: Kernel, k2: Kernel, before: seq<Entry>, n: nat)
    requires Leaves(k.l, k2.l, before) && |before| == 3 && n == |k.l.log|
    requires k2.p == k.p && k2.l.current == k.l.current && k2.l.tx == k.l.tx
    ensures Leaves(k.l, RunLines(k2, R.MEMORY).l,
                   before + Gate(k.p, "memory", "memory:inspect", "memory", "memory", "inspect", "state", n + 3,
                                 k.l.current, k.l.tx))
  {
    MemoryText(k2);
    GateLeaves(k2, "memory", "memory:inspect", "memory", "memory", "inspect", "state");
    C.LeavesLength(k.l, k2.l, before);
    hide Leaves, RunLines, Gate, R.MEMORY, Check, Note;
    Together(k.l, k2.l, RunLines(k2, R.MEMORY).l, before,
             Gate(k.p, "memory", "memory:inspect", "memory", "memory", "inspect", "state", n + 3, k.l.current, k.l.tx));
  }
}
