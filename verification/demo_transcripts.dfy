/** What userdemo leaves in the journal when its program runs, event by event. */
module DemoTranscripts {
  import opened Text
  import opened EventRing
  import opened Ledger
  import opened Kernel
  import opened Commands
  import opened Closure
  import opened Prompts
  import opened Transcript
  import opened WorkTranscripts
  import C = CallTranscripts
  import Q = Capacity
  import P = Policy
  import S = Scripts

  // ---------------------------------------------------------------- the set-up

  /** A page is granted. */
  function Granted(current: nat, tx: nat): Entry {
    Entry("memory", "page_allocator", "allocate", Ok, "allow:page-owner", "action", current, tx)
  }

  function Name(kind: string, pid: nat): string { Cut(kind + Decimal(pid), 47) }

  /** A process, its thread and its address space of five pages are made. */
  function CreateEntries(pid: nat, current: nat, tx: nat): seq<Entry> {
    var g := Granted(current, tx);
    var space := Name("address_space/", pid);
    [Entry("scheduler", Name("process/", pid), "process_create", Ok, "allow:user-process", "state", current, tx),
     Entry("scheduler", Name("thread/", pid), "thread_create", Ok, "allow:user-thread", "state", current, tx)] +
    [g, g, g, g, g] +
    [Entry("memory", space, "address_space_create", Ok, "allow:address-space", "action", current, tx),
     Entry("scheduler", space, "address_space_create", Ok, "allow:user-address-space", "state", current, tx)]
  }

  /** A page is mapped, with a new table for it. */
  function MapEntries(policy: string, current: nat, tx: nat): seq<Entry> {
    [Granted(current, tx), Entry("memory", "page_tables", "map_virtual", Ok, policy, "action", current, tx)]
  }

  /** The program is loaded, after its check, event `check`. */
  function LoadEntries(pid: nat, check: nat, reason: string, current: nat, tx: nat): seq<Entry> {
    [Entry("ramfs", "/bin/hello", "lookup", Ok, "allow:filesystem:lookup", "state", check, tx)] +
    [Granted(current, tx), Granted(current, tx)] +
    MapEntries("allow:user-code-page", current, tx) +
    MapEntries("allow:user-stack-page", current, tx) +
    [Entry("ramfs", "/bin/hello", "read", Ok, reason, "state", check, tx),
     Entry("scheduler", Name("process/", pid), "load_executable", Ok, "allow:user-image", "state", check, tx)]
  }

  /** The peer's private page is mapped. */
  function PeerEntries(pid: nat, current: nat, tx: nat): seq<Entry> {
    [Granted(current, tx)] + MapEntries("allow:user-private-page", current, tx) +
    [Entry("scheduler", Name("process/", pid), "map_private_page", Ok, "allow:user-private-page", "state", current, tx)]
  }

  /** Into user mode. */
  function EnterEntries(pid: nat, current: nat, tx: nat): seq<Entry> {
    [Entry("scheduler", Name("thread/", pid), "enter_cpl3", Ok, "allow:user-enter", "state", current, tx),
     Entry("scheduler", Name("address_space/", pid), "switch_cr3", Ok, "allow:process-cr3", "action", current, tx)]
  }

  /** Out of it by a page fault, at the peer's page or elsewhere. */
  function FaultEntries(pid: nat, probed: bool, current: nat, tx: nat): seq<Entry> {
    var thread := Name("thread/", pid);
    [Entry(thread, "kernel", "switch_cr3", Ok, "allow:fault-kernel-cr3", "action", current, tx),
     if probed then
       Entry(thread, Name("process/", pid + 1), "isolation_fault", Fault, "deny:address-space-isolation", "fault",
             current, tx)
     else Entry(thread, "kernel", "page_fault", Fault, "deny:user-page-fault", "fault", current, tx),
     Entry("scheduler", "kernel", "switch_cr3", Ok, "allow:kernel-cr3", "action", current, tx)]
  }

  lemma SaidPage(free: nat, current: nat, tx: nat)
    requires free > 0
    ensures SaidAll([PageWork(true, free)], current, tx) == [Granted(current, tx)]
    ensures NowAll([PageWork(true, free)], current) == current && Simple(PageWork(true, free))
  {
    SaidOne(PageWork(true, free), current, tx);
  }

  lemma {:induction false} SaidPages(free: nat, n: nat, current: nat, tx: nat)
    requires free >= n
    ensures var work := PagesWork(true, free, n);
            && SaidAll(work, current, tx) == seq(n, _ => Granted(current, tx)) && NowAll(work, current) == current
            && AllSimple(work)
    decreases n
  {
    if n > 0 {
      hide PageWork, Simple, SaidAll, NowAll, Granted;
      SaidPage(free, current, tx);
      SaidPages(free - 1, n - 1, current, tx);
      SaidAppend([PageWork(true, free)], PagesWork(true, free - 1, n - 1), current, tx);
      assert seq(n, _ => Granted(current, tx)) == [Granted(current, tx)] + seq(n - 1, _ => Granted(current, tx));
    }
  }

  lemma SaidMap(free: nat, policy: string, current: nat, tx: nat)
    requires free > 0
    ensures var work := MapWork(free, policy);
            && SaidAll(work, current, tx) == MapEntries(policy, current, tx) && NowAll(work, current) == current
            && AllSimple(work)
  {
    var work := MapWork(free, policy);
    SaidTwo(work[0], work[1], current, tx);
  }

  lemma SaidLookup(event: nat, current: nat, tx: nat)
    ensures var work := LookupWork("/bin/hello", true, event, current);
            && SaidAll(work, current, tx) ==
               [Entry("ramfs", "/bin/hello", "lookup", Ok, "allow:filesystem:lookup", "state", event, tx)]
            && NowAll(work, current) == current && AllSimple(work)
  {
    var work := LookupWork("/bin/hello", true, event, current);
    SaidThree(work[0], work[1], work[2], current, tx);
  }

  // ---------------------------------------------------------------- its parts, one after another

  lemma CreateSays(free: nat, pid: nat, current: nat, tx: nat)
    requires free >= 5
    ensures Says(CreateWork(true, free, pid), current, tx, CreateEntries(pid, current, tx))
  {
    var process, thread, space := ProcessName(pid), ThreadName(pid), SpaceName(pid);
    assert process == Name("process/", pid) && thread == Name("thread/", pid) && space == Name("address_space/", pid);
    var r1 := Registered("process", process, "scheduler", "created");
    var r2 := Registered("thread", thread, process, "runnable");
    var r3 := Registered("address_space", space, process, "created");
    var e1 := Noted("scheduler", process, "process_create", Ok, "allow:user-process", "state");
    var e2 := Noted("scheduler", thread, "thread_create", Ok, "allow:user-thread", "state");
    var e3 := Noted("memory", space, "address_space_create", Ok, "allow:address-space", "action");
    var e4 := Noted("scheduler", space, "address_space_create", Ok, "allow:user-address-space", "state");
    SaidThree(r1, r2, r3, current, tx);
    SaidTwo(e1, e2, current, tx);
    SaidPages(free, 5, current, tx);
    SaidTwo(e3, e4, current, tx);
    var pages := PagesWork(true, free, 5);
    var g := Granted(current, tx);
    assert seq(5, _ => g) == [g, g, g, g, g];
    var a, b, c, d := Said(e1, current, tx), Said(e2, current, tx), Said(e3, current, tx), Said(e4, current, tx);
    assert a + b == [a[0], b[0]] && c + d == [c[0], d[0]];
    assert Says([r1, r2, r3], current, tx, []);
    assert Says([e1, e2], current, tx, a + b) && Says(pages, current, tx, [g, g, g, g, g]);
    assert Says([e3, e4], current, tx, c + d);
    hide Says, Said, SaidAll, NowAll, PagesWork, Granted, Name, ProcessName, ThreadName, SpaceName;
    SaysBoth([r1, r2, r3], [e1, e2], current, tx, [], a + b);
    SaysBoth([r1, r2, r3] + [e1, e2], pages, current, tx, [] + (a + b), [g, g, g, g, g]);
    SaysBoth([r1, r2, r3] + [e1, e2] + pages, [e3, e4], current, tx, [] + (a + b) + [g, g, g, g, g], c + d);
    assert [r1, r2, r3] + [e1, e2] == [r1, r2, r3, e1, e2];
    assert [] + (a + b) == a + b;
  }

  lemma PartsSay(free: nat, policy: string, event: nat, current: nat, tx: nat)
    requires free > 0
    ensures Says([PageWork(true, free)], current, tx, [Granted(current, tx)])
    ensures Says(MapWork(free, policy), current, tx, MapEntries(policy, current, tx))
    ensures Says(LookupWork("/bin/hello", true, event, current), current, tx,
                 [Entry("ramfs", "/bin/hello", "lookup", Ok, "allow:filesystem:lookup", "state", event, tx)])
    ensures free >= 2 ==> Says(PagesWork(true, free, 2), current, tx, [Granted(current, tx), Granted(current, tx)])
  {
    SaidPage(free, current, tx);
    SaidMap(free, policy, current, tx);
    SaidLookup(event, current, tx);
    if free >= 2 {
      SaidPages(free, 2, current, tx);
      assert seq(2, _ => Granted(current, tx)) == [Granted(current, tx), Granted(current, tx)];
    }
    hide SaidAll, NowAll, AllSimple, PageWork, MapWork, LookupWork, PagesWork, Granted;
  }

  /** load_executable up to the maps, and its end. */
  lemma LoadSays(pid: nat, free: nat, event: nat, current: nat, tx: nat, reason: string)
    requires free >= 4
    ensures var process := ProcessName(pid);
            Says(LookupWork(HELLO, true, event, current) + PagesWork(true, free, 2) +
                 MapWork(free - 2, "allow:user-code-page") + MapWork(free - 3, "allow:user-stack-page") +
                 [Plain(RecordOp("ramfs", HELLO, "read", Ok, event, reason, "state")),
                  Plain(RecordOp("scheduler", process, "load_executable", Ok, event, "allow:user-image", "state"))],
                 current, tx, LoadEntries(pid, event, reason, current, tx))
  {
    var process := ProcessName(pid);
    assert process == Name("process/", pid);
    var w1 := Plain(RecordOp("ramfs", HELLO, "read", Ok, event, reason, "state"));
    var w2 := Plain(RecordOp("scheduler", process, "load_executable", Ok, event, "allow:user-image", "state"));
    PairSays(w1, w2, current, tx);
    PartsSay(free, "", event, current, tx);
    PartsSay(free - 2, "allow:user-code-page", event, current, tx);
    PartsSay(free - 3, "allow:user-stack-page", event, current, tx);
    var l := [Entry("ramfs", "/bin/hello", "lookup", Ok, "allow:filesystem:lookup", "state", event, tx)];
    var g := [Granted(current, tx), Granted(current, tx)];
    var x, y := Said(w1, current, tx), Said(w2, current, tx);
    assert x + y == [x[0], y[0]];
    hide Says, Said, LookupWork, PagesWork, MapWork, MapEntries, Granted, Name, ProcessName;
    var code := MapEntries("allow:user-code-page", current, tx);
    var stack := MapEntries("allow:user-stack-page", current, tx);
    SaysBoth(LookupWork(HELLO, true, event, current), PagesWork(true, free, 2), current, tx, l, g);
    SaysBoth(LookupWork(HELLO, true, event, current) + PagesWork(true, free, 2),
             MapWork(free - 2, "allow:user-code-page"), current, tx, l + g, code);
    SaysBoth(LookupWork(HELLO, true, event, current) + PagesWork(true, free, 2) +
             MapWork(free - 2, "allow:user-code-page"), MapWork(free - 3, "allow:user-stack-page"), current, tx,
             l + g + code, stack);
    SaysBoth(LookupWork(HELLO, true, event, current) + PagesWork(true, free, 2) +
             MapWork(free - 2, "allow:user-code-page") + MapWork(free - 3, "allow:user-stack-page"), [w1, w2], current,
             tx, l + g + code + stack, x + y);
  }

  lemma PeerSays(pid: nat, free: nat, current: nat, tx: nat)
    requires free >= 2
    ensures Says([PageWork(true, free)] + MapWork(free - 1, "allow:user-private-page") +
                 [Noted("scheduler", ProcessName(pid), "map_private_page", Ok, "allow:user-private-page", "state")],
                 current, tx, PeerEntries(pid, current, tx))
  {
    assert ProcessName(pid) == Name("process/", pid);
    var w := Noted("scheduler", ProcessName(pid), "map_private_page", Ok, "allow:user-private-page", "state");
    OneSays(w, current, tx);
    PartsSay(free, "", 0, current, tx);
    PartsSay(free - 1, "allow:user-private-page", 0, current, tx);
    hide Says, PageWork, MapWork, MapEntries, Granted, Name, ProcessName;
    var g, m := [Granted(current, tx)], MapEntries("allow:user-private-page", current, tx);
    SaysBoth([PageWork(true, free)], MapWork(free - 1, "allow:user-private-page"), current, tx, g, m);
    SaysBoth([PageWork(true, free)] + MapWork(free - 1, "allow:user-private-page"), [w], current, tx, g + m,
             Said(w, current, tx));
  }

  // ---------------------------------------------------------------- the system calls

  /** The system calls of the program, one trap after another. */
  function CallsEntries(p: P.Rules, config: Config, page: Page, pid: nat, calls: seq<UserCall>, n: nat, used: nat,
                        current: nat, tx: nat)
    : seq<Entry>
    decreases |calls|
  {
    if calls == [] then []
    else
      var call := calls[0];
      var trap := C.TrapEntries(p, config, call.number, call.ring3, pid, page, call.address, n, used, current, tx);
      trap + CallsEntries(p, config, page, pid, calls[1..], n + |trap|, if used < 32 then used + 1 else used,
                          if used < 32 then n + 3 else current, 0)
  }

  /** The event that is current after the calls: the begin event of the last of them that had a transaction. */
  function CurrentAfter(p: P.Rules, config: Config, page: Page, pid: nat, calls: seq<UserCall>, n: nat, used: nat,
                        current: nat, tx: nat)
    : nat
    decreases |calls|
  {
    if calls == [] then current
    else
      var call := calls[0];
      var trap := C.TrapEntries(p, config, call.number, call.ring3, pid, page, call.address, n, used, current, tx);
      CurrentAfter(p, config, page, pid, calls[1..], n + |trap|, if used < 32 then used + 1 else used,
                   if used < 32 then n + 3 else current, 0)
  }

  lemma OneCall(k: Kernel, call: UserCall, page: Page, pid: nat, open: set<nat>)
    requires OpenExactly(k.l, open) && |k.l.txs| <= 32
    ensures var k' := DoWork(k, Called(call.number, call.ring3, pid, page, call.address));
            var trap := C.TrapEntries(k.p, k.config, call.number, call.ring3, pid, page, call.address, |k.l.log|,
                                      |k.l.txs|, k.l.current, k.l.tx);
            && Leaves(k.l, k'.l, trap) && |k'.l.log| == |k.l.log| + |trap|
            && OpenExactly(k'.l, open) && k'.p == k.p && k'.config == k.config && k'.l.tx == 0
            && |k'.l.txs| == (if |k.l.txs| < 32 then |k.l.txs| + 1 else |k.l.txs|)
            && k'.l.current == if |k.l.txs| < 32 then |k.l.log| + 3 else k.l.current
  {
    hide OpenExactly, Trap, Leaves, C.TrapEntries, Ended, TrapAccepted;
    C.TrapLeaves(k, call.number, call.ring3, pid, page, call.address, open);
    TrapCloses(k, call.number, call.ring3, pid, page, call.address, open);
    Q.OneAfterTrap(k, call.number, call.ring3, pid, page, call.address);
    C.LeavesLength(k.l, Trap(k, call.number, call.ring3, pid, page, call.address).0.l,
                   C.TrapEntries(k.p, k.config, call.number, call.ring3, pid, page, call.address, |k.l.log|, |k.l.txs|,
                                 k.l.current, k.l.tx));
  }

  lemma {:induction false} CallsLeave(k: Kernel, calls: seq<UserCall>, page: Page, pid: nat, open: set<nat>)
    requires OpenExactly(k.l, open) && |k.l.txs| <= 32
    ensures var k' := DoAllWork(k, CallsWork(page, pid, calls));
            && Leaves(k.l, k'.l, CallsEntries(k.p, k.config, page, pid, calls, |k.l.log|, |k.l.txs|, k.l.current,
                                              k.l.tx))
            && k'.l.current == CurrentAfter(k.p, k.config, page, pid, calls, |k.l.log|, |k.l.txs|, k.l.current, k.l.tx)
            && k'.l.tx == if calls == [] then k.l.tx else 0
    decreases |calls|
  {
    hide OpenExactly, DoWork, Leaves, C.TrapEntries;
    if calls == [] {
      LeavesNothing(k.l, k.l);
    } else {
      var call := calls[0];
      OneCall(k, call, page, pid, open);
      var step := Called(call.number, call.ring3, pid, page, call.address);
      var k1 := DoWork(k, step);
      CallsLeave(k1, calls[1..], page, pid, open);
      var work := CallsWork(page, pid, calls);
      assert work[0] == step && work[1..] == CallsWork(page, pid, calls[1..]);
      var trap := C.TrapEntries(k.p, k.config, call.number, call.ring3, pid, page, call.address, |k.l.log|, |k.l.txs|,
                                k.l.current, k.l.tx);
      Together(k.l, k1.l, DoAllWork(k1, CallsWork(page, pid, calls[1..])).l, trap,
               CallsEntries(k1.p, k1.config, page, pid, calls[1..], |k1.l.log|, |k1.l.txs|, k1.l.current, k1.l.tx));
    }
  }

  // ---------------------------------------------------------------- the whole demo

  function ScaffoldEntry(pid: nat, current: nat, tx: nat): Entry {
    Entry("scheduler", Name("thread/", pid), "user_transition_scaffold", Ok, "allow:user-transition", "state", current,
          tx)
  }

  /** Before the program runs: two processes, the program loaded into the first, a private page for the second. */
  function SetUpEntries(p: P.Rules, pid: nat, n: nat, current: nat, tx: nat): seq<Entry> {
    CreateEntries(pid, current, tx) + CreateEntries(pid + 1, current, tx) + [ScaffoldEntry(pid, current, tx)] +
    [Asked(p, "shell", "/bin/hello", "process:load", current, tx)] +
    LoadEntries(pid, n + 20, P.Decide(p, "shell", "/bin/hello", "process:load").reason, current, tx) +
    PeerEntries(pid + 1, current, tx) + EnterEntries(pid, current, tx)
  }

  /** The program's calls, after n events, and the fault that ends it. */
  function ProgramEntries(p: P.Rules, config: Config, d: Demo, n: nat, used: nat, current: nat, tx: nat): seq<Entry> {
    var pid := d.processes + 1;
    CallsEntries(p, config, d.page, pid, d.calls, n, used, current, tx) +
    FaultEntries(pid, d.probed, CurrentAfter(p, config, d.page, pid, d.calls, n, used, current, tx),
                 if d.calls == [] then tx else 0)
  }

  function DemoEntries(p: P.Rules, config: Config, d: Demo, n: nat, used: nat, current: nat, tx: nat): seq<Entry> {
    SetUpEntries(p, d.processes + 1, n, current, tx) + ProgramEntries(p, config, d, n + 35, used, current, tx)
  }

  // ---------------------------------------------------------------- putting the parts together

  function LoadSteps(pid: nat, free: nat, event: nat, current: nat, reason: string): seq<Work>
    requires free >= 4
  {
    LookupWork(HELLO, true, event, current) + PagesWork(true, free, 2) +
    MapWork(free - 2, "allow:user-code-page") + MapWork(free - 3, "allow:user-stack-page") +
    [Plain(RecordOp("ramfs", HELLO, "read", Ok, event, reason, "state")),
     Plain(RecordOp("scheduler", ProcessName(pid), "load_executable", Ok, event, "allow:user-image", "state"))]
  }

  function PeerSteps(pid: nat, free: nat): seq<Work>
    requires free >= 2
  {
    [PageWork(true, free)] + MapWork(free - 1, "allow:user-private-page") +
    [Noted("scheduler", ProcessName(pid), "map_private_page", Ok, "allow:user-private-page", "state")]
  }

  function EnterSteps(pid: nat): seq<Work> {
    [Noted("scheduler", ThreadName(pid), "enter_cpl3", Ok, "allow:user-enter", "state"),
     Noted("scheduler", SpaceName(pid), "switch_cr3", Ok, "allow:process-cr3", "action")]
  }

  function FaultSteps(pid: nat, probed: bool): seq<Work> {
    [Noted(ThreadName(pid), "kernel", "switch_cr3", Ok, "allow:fault-kernel-cr3", "action"),
     if probed then
       Noted(ThreadName(pid), ProcessName(pid + 1), "isolation_fault", Fault, "deny:address-space-isolation", "fault")
     else Noted(ThreadName(pid), "kernel", "page_fault", Fault, "deny:user-page-fault", "fault"),
     Noted("scheduler", "kernel", "switch_cr3", Ok, "allow:kernel-cr3", "action")]
  }

  function CreateSteps(pid: nat, free: nat): seq<Work>
    requires free >= 5
  {
    CreateWork(true, free, pid) + CreateWork(true, free - 5, pid + 1) + ScaffoldWork(pid)
  }

  lemma RegroupLoad(a: seq<Work>, b: seq<Work>, c: seq<Work>, d: seq<Work>, e: seq<Work>, f: seq<Work>)
    ensures a + b + (c + (d + (e + f))) == a + b + c + d + e + f
  {
  }

  lemma RegroupProbe(a: seq<Work>, b: seq<Work>, c: seq<Work>, d: seq<Work>)
    ensures a + (b + (c + d)) == a + b + c + d
  {
  }

  lemma LoadIs(d: Demo, free: nat, event: nat, current: nat, reason: string)
    requires free >= 6
    ensures var pid := d.processes + 1;
            LoadWork(d, free, event, current, reason) ==
            LoadSteps(pid, free, event, current, reason) +
            (PeerSteps(pid + 1, free - 4) +
             (EnterSteps(pid) + CallsWork(d.page, pid, d.calls) + FaultSteps(pid, d.probed)))
  {
    hide LookupWork, PagesWork, MapWork, CallsWork, PageWork, ProcessName, ThreadName, SpaceName;
    var pid := d.processes + 1;
    var ring := RingWork(d);
    assert ring == EnterSteps(pid) + CallsWork(d.page, pid, d.calls) + FaultSteps(pid, d.probed);
    var noted := [Noted("scheduler", ProcessName(pid + 1), "map_private_page", Ok, "allow:user-private-page", "state")];
    RegroupProbe([PageWork(true, free - 4)], MapWork(free - 5, "allow:user-private-page"), noted, ring);
    assert ProbeWork(d, free - 4) == PeerSteps(pid + 1, free - 4) + ring;
    var ends :=
      [Plain(RecordOp("ramfs", HELLO, "read", Ok, event, reason, "state")),
       Plain(RecordOp("scheduler", ProcessName(pid), "load_executable", Ok, event, "allow:user-image", "state"))];
    RegroupLoad(LookupWork(HELLO, true, event, current), PagesWork(true, free, 2),
                MapWork(free - 2, "allow:user-code-page"), MapWork(free - 3, "allow:user-stack-page"), ends,
                ProbeWork(d, free - 4));
  }

  /** The set-up of a demo that runs, as one script. */
  function SetUpSteps(k: Kernel, d: Demo): seq<Work>
    requires d.free >= 16
  {
    var pid := d.processes + 1;
    var created := CreateSteps(pid, d.free);
    var k1 := DoAllWork(k, created);
    created + [CheckWork(k1, "shell", HELLO, "process:load")] +
    LoadSteps(pid, d.free - 10, NextSequence(k1.l), k1.l.current, LoadVerdict(k1.p).reason) +
    PeerSteps(pid + 1, d.free - 14) + EnterSteps(pid)
  }

  lemma RegroupDemo(a: seq<Work>, b: seq<Work>, c: seq<Work>, d: seq<Work>, e: seq<Work>, f: seq<Work>, g: seq<Work>)
    ensures a + b + (c + (d + (e + f + g))) == a + b + c + d + e + (f + g)
  {
  }

  lemma CreateStepsSay(pid: nat, free: nat, current: nat, tx: nat)
    requires free >= 10
    ensures Says(CreateSteps(pid, free), current, tx,
                 CreateEntries(pid, current, tx) + CreateEntries(pid + 1, current, tx) +
                 [ScaffoldEntry(pid, current, tx)])
  {
    CreateSays(free, pid, current, tx);
    CreateSays(free - 5, pid + 1, current, tx);
    assert ThreadName(pid) == Name("thread/", pid);
    OneSays(ScaffoldWork(pid)[0], current, tx);
    assert Said(ScaffoldWork(pid)[0], current, tx) == [ScaffoldEntry(pid, current, tx)];
    assert ScaffoldWork(pid) == [ScaffoldWork(pid)[0]];
    hide Says, CreateWork, CreateEntries, ScaffoldWork, Said, ScaffoldEntry;
    var a, b := CreateEntries(pid, current, tx), CreateEntries(pid + 1, current, tx);
    SaysBoth(CreateWork(true, free, pid), CreateWork(true, free - 5, pid + 1), current, tx, a, b);
    SaysBoth(CreateWork(true, free, pid) + CreateWork(true, free - 5, pid + 1), ScaffoldWork(pid), current, tx, a + b,
             [ScaffoldEntry(pid, current, tx)]);
  }

  /** After the two processes are made. */
  lemma AfterCreating(k: Kernel, pid: nat, free: nat)
    requires free >= 10
    ensures var k1 := DoAllWork(k, CreateSteps(pid, free));
            k1.p == k.p && k1.l.current == k.l.current && |k1.l.log| == |k.l.log| + 19
  {
    CreateStepsSay(pid, free, k.l.current, k.l.tx);
    var entries := CreateEntries(pid, k.l.current, k.l.tx) + CreateEntries(pid + 1, k.l.current, k.l.tx) +
                   [ScaffoldEntry(pid, k.l.current, k.l.tx)];
    assert |entries| == 19;
    hide CreateSteps, Leaves, SaidAll, NowAll, DoAllWork, CreateEntries;
    StepsLeave(k, CreateSteps(pid, free));
    C.LeavesLength(k.l, DoAllWork(k, CreateSteps(pid, free)).l, entries);
  }

  lemma DemoIs(k: Kernel, d: Demo)
    requires DemoRuns(k.p, d)
    ensures var pid := d.processes + 1;
            DemoWork(k, d) == SetUpSteps(k, d) + (CallsWork(d.page, pid, d.calls) + FaultSteps(pid, d.probed))
  {
    hide CreateWork, ScaffoldWork, DoAllWork, P.Decide, LoadWork, LoadSteps, PeerSteps, EnterSteps, FaultSteps,
         CallsWork;
    var pid := d.processes + 1;
    var created := CreateSteps(pid, d.free);
    assert CreatedWork(d) == (created, true);
    AfterCreating(k, pid, d.free);
    var k1 := DoAllWork(k, created);
    var reason := LoadVerdict(k1.p).reason;
    LoadIs(d, d.free - 10, NextSequence(k1.l), k1.l.current, reason);
    RegroupDemo(created, [CheckWork(k1, "shell", HELLO, "process:load")],
                LoadSteps(pid, d.free - 10, NextSequence(k1.l), k1.l.current, reason), PeerSteps(pid + 1, d.free - 14),
                EnterSteps(pid), CallsWork(d.page, pid, d.calls), FaultSteps(pid, d.probed));
  }

  lemma EnterSays(pid: nat, current: nat, tx: nat)
    ensures Says(EnterSteps(pid), current, tx, EnterEntries(pid, current, tx))
  {
    assert ThreadName(pid) == Name("thread/", pid) && SpaceName(pid) == Name("address_space/", pid);
    var work := EnterSteps(pid);
    PairSays(work[0], work[1], current, tx);
    assert work == [work[0], work[1]];
    hide Says, ThreadName, SpaceName, Name;
    var x, y := Said(work[0], current, tx), Said(work[1], current, tx);
    assert x + y == EnterEntries(pid, current, tx);
  }

  lemma FaultSays(pid: nat, probed: bool, current: nat, tx: nat)
    ensures Says(FaultSteps(pid, probed), current, tx, FaultEntries(pid, probed, current, tx))
  {
    assert ThreadName(pid) == Name("thread/", pid) && ProcessName(pid + 1) == Name("process/", pid + 1);
    var work := FaultSteps(pid, probed);
    SaidThree(work[0], work[1], work[2], current, tx);
    assert work == [work[0], work[1], work[2]];
    hide SaidAll, NowAll, ThreadName, ProcessName, Name;
    var x, y, z := Said(work[0], current, tx), Said(work[1], current, tx), Said(work[2], current, tx);
    assert x + y + z == FaultEntries(pid, probed, current, tx);
  }

  lemma CheckSays(k: Kernel, k1: Kernel, current: nat, tx: nat)
    requires k1.p == k.p && k1.l.current == current
    ensures Says([CheckWork(k1, "shell", HELLO, "process:load")], current, tx,
                 [Asked(k.p, "shell", "/bin/hello", "process:load", current, tx)])
  {
    hide P.Decide, Says;
    OneSays(CheckWork(k1, "shell", HELLO, "process:load"), current, tx);
  }

  lemma LoadStepsSay(pid: nat, free: nat, event: nat, current: nat, tx: nat, reason: string)
    requires free >= 6
    ensures Says(LoadSteps(pid, free, event, current, reason), current, tx,
                 LoadEntries(pid, event, reason, current, tx))
    ensures Says(PeerSteps(pid + 1, free - 4), current, tx, PeerEntries(pid + 1, current, tx))
    ensures Says(EnterSteps(pid), current, tx, EnterEntries(pid, current, tx))
  {
    LoadSays(pid, free, event, current, tx, reason);
    PeerSays(pid + 1, free - 4, current, tx);
    EnterSays(pid, current, tx);
    hide Says, LookupWork, PagesWork, MapWork, PageWork, EnterSteps, LoadEntries, PeerEntries, EnterEntries;
  }

  lemma SetUpSays(k: Kernel, d: Demo)
    requires DemoRuns(k.p, d)
    ensures Says(SetUpSteps(k, d), k.l.current, k.l.tx,
                 SetUpEntries(k.p, d.processes + 1, |k.l.log|, k.l.current, k.l.tx))
  {
    hide Says, CreateSteps, LoadSteps, PeerSteps, EnterSteps, CheckWork, DoAllWork, CreateEntries, LoadEntries,
         PeerEntries, EnterEntries, Asked, P.Decide, ScaffoldEntry;
    var pid, current, tx := d.processes + 1, k.l.current, k.l.tx;
    var created := CreateSteps(pid, d.free);
    AfterCreating(k, pid, d.free);
    var k1 := DoAllWork(k, created);
    var reason := P.Decide(k.p, "shell", "/bin/hello", "process:load").reason;
    var event := |k.l.log| + 20;
    CreateStepsSay(pid, d.free, current, tx);
    CheckSays(k, k1, current, tx);
    LoadStepsSay(pid, d.free - 10, event, current, tx, reason);
    FiveSay(created, [CheckWork(k1, "shell", HELLO, "process:load")],
            LoadSteps(pid, d.free - 10, event, current, reason), PeerSteps(pid + 1, d.free - 14), EnterSteps(pid),
            current, tx,
            CreateEntries(pid, current, tx) + CreateEntries(pid + 1, current, tx) + [ScaffoldEntry(pid, current, tx)],
            [Asked(k.p, "shell", "/bin/hello", "process:load", current, tx)],
            LoadEntries(pid, event, reason, current, tx), PeerEntries(pid + 1, current, tx),
            EnterEntries(pid, current, tx));
  }

  lemma SetUpOpen(k: Kernel, d: Demo, open: set<nat>)
    requires OpenExactly(k.l, open) && DemoRuns(k.p, d)
    ensures OpenExactly(DoAllWork(k, SetUpSteps(k, d)).l, open)
  {
    assert d.free >= 16;
    hide OpenExactly, DemoWork, SetUpSteps, CallsWork, FaultSteps, S.AllWorkOk, DoAllWork, DemoRuns;
    CurrentIsPast(k.l, open);
    S.DemoOk(k, d);
    DemoIs(k, d);
    var pid := d.processes + 1;
    FirstPartOk(k, SetUpSteps(k, d), CallsWork(d.page, pid, d.calls) + FaultSteps(pid, d.probed));
    WorkKeepsOpen(k, SetUpSteps(k, d), open);
  }

  lemma SetUpLength(p: P.Rules, pid: nat, n: nat, current: nat, tx: nat)
    ensures |SetUpEntries(p, pid, n, current, tx)| == 35
  {
    hide P.Decide, Asked;
  }

  /** From the end of the set-up on. */
  lemma ProgramLeaves(k: Kernel, d: Demo, open: set<nat>)
    requires OpenExactly(k.l, open) && |k.l.txs| <= 32
    ensures var pid := d.processes + 1;
            Leaves(k.l, DoAllWork(k, CallsWork(d.page, pid, d.calls) + FaultSteps(pid, d.probed)).l,
                   ProgramEntries(k.p, k.config, d, |k.l.log|, |k.l.txs|, k.l.current, k.l.tx))
  {
    hide OpenExactly, FaultSteps, CallsWork, DoAllWork, Leaves, Says, FaultEntries, CallsEntries, CurrentAfter;
    var pid := d.processes + 1;
    var calls, fault := CallsWork(d.page, pid, d.calls), FaultSteps(pid, d.probed);
    CallsLeave(k, d.calls, d.page, pid, open);
    var k1 := DoAllWork(k, calls);
    FaultSays(pid, d.probed, k1.l.current, k1.l.tx);
    SaidIsLeft(k1, fault, FaultEntries(pid, d.probed, k1.l.current, k1.l.tx));
    TwoParts(k, calls, fault,
             CallsEntries(k.p, k.config, d.page, pid, d.calls, |k.l.log|, |k.l.txs|, k.l.current, k.l.tx),
             FaultEntries(pid, d.probed, k1.l.current, k1.l.tx));
  }

  lemma SetUpLeaves(k: Kernel, d: Demo, open: set<nat>)
    requires OpenExactly(k.l, open) && DemoRuns(k.p, d)
    ensures var k1 := DoAllWork(k, SetUpSteps(k, d));
            && Leaves(k.l, k1.l, SetUpEntries(k.p, d.processes + 1, |k.l.log|, k.l.current, k.l.tx))
            && OpenExactly(k1.l, open) && |k1.l.log| == |k.l.log| + 35
            && k1.l.current == k.l.current && k1.l.tx == k.l.tx && k1.p == k.p && k1.config == k.config
            && |k1.l.txs| == |k.l.txs|
  {
    assert d.free >= 16;
    hide OpenExactly, SetUpSteps, DoAllWork, Leaves, Says, SetUpEntries, DemoRuns;
    SetUpSays(k, d);
    SetUpLength(k.p, d.processes + 1, |k.l.log|, k.l.current, k.l.tx);
    SetUpOpen(k, d, open);
    SaidIsLeft(k, SetUpSteps(k, d), SetUpEntries(k.p, d.processes + 1, |k.l.log|, k.l.current, k.l.tx));
  }

  lemma SetUpThenProgram(k: Kernel, d: Demo, rest: seq<Work>, open: set<nat>)
    requires OpenExactly(k.l, open) && DemoRuns(k.p, d) && |k.l.txs| <= 32
    requires rest == CallsWork(d.page, d.processes + 1, d.calls) + FaultSteps(d.processes + 1, d.probed)
    ensures Leaves(k.l, DoAllWork(k, SetUpSteps(k, d) + rest).l,
                   DemoEntries(k.p, k.config, d, |k.l.log|, |k.l.txs|, k.l.current, k.l.tx))
  {
    assert d.free >= 16;
    hide OpenExactly, SetUpSteps, FaultSteps, CallsWork, DoAllWork, Leaves, SetUpEntries, ProgramEntries, DemoRuns;
    SetUpLeaves(k, d, open);
    var k1 := DoAllWork(k, SetUpSteps(k, d));
    ProgramLeaves(k1, d, open);
    TwoParts(k, SetUpSteps(k, d), rest, SetUpEntries(k.p, d.processes + 1, |k.l.log|, k.l.current, k.l.tx),
             ProgramEntries(k1.p, k1.config, d, |k1.l.log|, |k1.l.txs|, k1.l.current, k1.l.tx));
  }

  /** A demo that runs its program leaves exactly these events: 35 before it, those of its calls, and three. */
  lemma DemoLeaves(k: Kernel, d: Demo, open: set<nat>)
    requires OpenExactly(k.l, open) && DemoRuns(k.p, d) && |k.l.txs| <= 32
    ensures Leaves(k.l, DoAllWork(k, DemoWork(k, d)).l,
                   DemoEntries(k.p, k.config, d, |k.l.log|, |k.l.txs|, k.l.current, k.l.tx))
  {
    hide OpenExactly, DemoWork, FaultSteps, CallsWork, DoAllWork, Leaves, DemoEntries, DemoRuns, SetUpSteps;
    DemoIs(k, d);
    var pid := d.processes + 1;
    SetUpThenProgram(k, d, CallsWork(d.page, pid, d.calls) + FaultSteps(pid, d.probed), open);
  }
}
