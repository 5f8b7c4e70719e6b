/** The commands of the shell (kernel/main.c), the demo of kernel/user.c among them, and the bracket that the
    command loop puts around each. */
module Commands {
  import opened Text
  import opened EventRing
  import opened Ledger
  import opened Kernel
  import P = Policy
  import R = RamFs
  import T = PolicyText

  // ---------------------------------------------------------------- meminfo, ls, cat and run

  /** show_meminfo */
  function MeminfoWork(k: Kernel): seq<Work> {
    var v := P.Decide(k.p, "shell", "memory", "memory:inspect");
    [CheckWork(k, "shell", "memory", "memory:inspect")] +
    if !v.allowed then []
    else [Plain(RecordOp("memory", "memory", "inspect", Ok, NextSequence(k.l), v.reason, "state"))]
  }

  /** list_files */
  function ListWork(k: Kernel): seq<Work> {
    var v := P.Decide(k.p, "shell", "ramfs", "filesystem:list");
    [CheckWork(k, "shell", "ramfs", "filesystem:list")] +
    if !v.allowed then []
    else [Plain(RecordOp("ramfs", "ramfs", "list", Ok, NextSequence(k.l), v.reason, "state"))]
  }

  /** ramfs_lookup with the check's event current, and the current event put back. */
  function LookupWork(path: string, found: bool, event: nat, current: nat): seq<Work> {
    [Plain(SetCurrentOp(event)),
     Noted("ramfs", path, "lookup", if found then Ok else Denied,
           if found then "allow:filesystem:lookup" else "deny:not-found", "state"),
     Plain(SetCurrentOp(current))]
  }

  /** print_file */
  function ReadWork(k: Kernel, path: string): seq<Work> {
    var v := P.Decide(k.p, "shell", path, "filesystem:read");
    var event := NextSequence(k.l);
    var found := R.Lookup(path).Some?;
    [CheckWork(k, "shell", path, "filesystem:read")] +
    if !v.allowed then []
    else
      LookupWork(path, found, event, k.l.current) +
      if !found then [] else [Plain(RecordOp("ramfs", path, "read", Ok, event, v.reason, "state"))]
  }

  /** run_module before its first line: the events, and the text that is then run. */
  function OpenModuleWork(k: Kernel, path: string): (seq<Work>, string) {
    var v := P.Decide(k.p, "shell", path, "module:load");
    var event := NextSequence(k.l);
    var check := [CheckWork(k, "shell", path, "module:load")];
    if !v.allowed then (check, "")
    else
      match R.Lookup(path)
      case None => (check + LookupWork(path, false, event, k.l.current), "")
      case Some(file) =>
        var looked := check + LookupWork(path, true, event, k.l.current);
        if file.kind != R.ModuleFile then
          (looked + [Plain(RecordOp("ramfs", path, "type_check", Denied, event, "deny:not-module", "policy"))], "")
        else if file.size >= R.MODULE_BUFFER then
          (looked + [Plain(RecordOp("ramfs", path, "size_check", Denied, event, "deny:too-large", "policy"))], "")
        else (looked + [Plain(RecordOp("ramfs", path, "read", Ok, event, v.reason, "state"))], file.text)
  }

  /** The lines of a module: only meminfo touches the journal. */
  function LinesWork(k: Kernel, text: string): seq<Work>
    decreases |text|
  {
    if text == "" then []
    else
      var work := if text[..T.LineLength(text)] == "meminfo" then MeminfoWork(k) else [];
      work + LinesWork(DoAllWork(k, work), T.AfterLine(text))
  }

  /** run_module */
  function ModuleWork(k: Kernel, path: string): seq<Work> {
    var (work, text) := OpenModuleWork(k, path);
    work + LinesWork(DoAllWork(k, work), text)
  }

  // ---------------------------------------------------------------- userdemo

  const PROCESSES := 4
  const HELLO := "/bin/hello"

  datatype UserCall = UserCall(number: nat, ring3: bool, address: nat)

  /** What userdemo finds and what its program does: the processes there are, whether the page allocator is
      ready and how many pages it has, the program's code page, its system calls in order, and whether the
      page fault that ends it is at the peer's probe address. */
  datatype Demo = Demo(processes: nat, ready: bool, free: nat, page: Page, calls: seq<UserCall>, probed: bool)

  function ProcessName(pid: nat): string { Cut("process/" + Decimal(pid), NAME) }

  /** page_alloc with `free` pages left. */
  function PageWork(ready: bool, free: nat): Work {
    if !ready then Noted("memory", "page_allocator", "allocate", Denied, "deny:invalid-request", "action")
    else if free == 0 then Noted("memory", "page_allocator", "allocate", Denied, "deny:out-of-pages", "action")
    else Noted("memory", "page_allocator", "allocate", Ok, "allow:page-owner", "action")
  }

  function PagesWork(ready: bool, free: nat, n: nat): seq<Work> {
    if n == 0 then [] else [PageWork(ready, free)] + PagesWork(ready, if free == 0 then 0 else free - 1, n - 1)
  }

  /** create_process, once there is room in the table: five pages make its address space. */
  function CreateWork(ready: bool, free: nat, pid: nat): seq<Work> {
    var space := SpaceName(pid);
    [Registered("process", ProcessName(pid), "scheduler", "created"),
     Registered("thread", ThreadName(pid), ProcessName(pid), "runnable"),
     Registered("address_space", space, ProcessName(pid), "created"),
     Noted("scheduler", ProcessName(pid), "process_create", Ok, "allow:user-process", "state"),
     Noted("scheduler", ThreadName(pid), "thread_create", Ok, "allow:user-thread", "state")] +
    PagesWork(ready, free, 5) +
    if ready && free >= 5 then
      [Noted("memory", space, "address_space_create", Ok, "allow:address-space", "action"),
       Noted("scheduler", space, "address_space_create", Ok, "allow:user-address-space", "state")]
    else
      [Noted("memory", space, "address_space_create", Denied, "deny:address-space-pages", "action"),
       Noted("scheduler", space, "address_space_create", Denied, "deny:address-space", "state")]
  }

  function TableFullWork(): seq<Work> {
    [Noted("scheduler", "scheduler", "process_create", Denied, "deny:process-table-full", "state")]
  }

  /** memory_map_process_page for a page whose table has to be allocated first. */
  function MapWork(free: nat, policy: string): seq<Work> {
    [PageWork(true, free),
     if free > 0 then Noted("memory", "page_tables", "map_virtual", Ok, policy, "action")
     else Noted("memory", "page_tables", "map_virtual", Denied, "deny:no-page-table", "action")]
  }

  /** From entering user mode to the return after the fault that ends the program. */
  function RingWork(d: Demo): seq<Work> {
    var pid := d.processes + 1;
    [Noted("scheduler", ThreadName(pid), "enter_cpl3", Ok, "allow:user-enter", "state"),
     Noted("scheduler", SpaceName(pid), "switch_cr3", Ok, "allow:process-cr3", "action")] +
    CallsWork(d.page, pid, d.calls) +
    [Noted(ThreadName(pid), "kernel", "switch_cr3", Ok, "allow:fault-kernel-cr3", "action"),
     if d.probed then
       Noted(ThreadName(pid), ProcessName(pid + 1), "isolation_fault", Fault, "deny:address-space-isolation", "fault")
     else Noted(ThreadName(pid), "kernel", "page_fault", Fault, "deny:user-page-fault", "fault"),
     Noted("scheduler", "kernel", "switch_cr3", Ok, "allow:kernel-cr3", "action")]
  }

  function CallsWork(page: Page, pid: nat, calls: seq<UserCall>): seq<Work> {
    if calls == [] then []
    else [Called(calls[0].number, calls[0].ring3, pid, page, calls[0].address)] + CallsWork(page, pid, calls[1..])
  }

  /** map_private_probe_page with `free` pages left, and the program's run. */
  function ProbeWork(d: Demo, free: nat): seq<Work> {
    [PageWork(true, free)] +
    if free == 0 then []
    else
      MapWork(free - 1, "allow:user-private-page") +
      if free == 1 then []
      else
        [Noted("scheduler", ProcessName(d.processes + 2), "map_private_page", Ok, "allow:user-private-page", "state")] +
        RingWork(d)
  }

  /** load_executable with `free` pages left, its check's event being `event`, and what follows. */
  function LoadWork(d: Demo, free: nat, event: nat, current: nat, reason: string): seq<Work> {
    var process := ProcessName(d.processes + 1);
    LookupWork(HELLO, true, event, current) +
    PagesWork(true, free, 2) +
    if free < 2 then
      [Plain(RecordOp("scheduler", process, "load_executable", Denied, event, "deny:user-pages", "state"))]
    else
      MapWork(free - 2, "allow:user-code-page") +
      if free == 2 then []
      else
        MapWork(free - 3, "allow:user-stack-page") +
        if free == 3 then []
        else
          [Plain(RecordOp("ramfs", HELLO, "read", Ok, event, reason, "state")),
           Plain(RecordOp("scheduler", process, "load_executable", Ok, event, "allow:user-image", "state"))] +
          ProbeWork(d, free - 4)
  }

  function ScaffoldWork(pid: nat): seq<Work> {
    [Noted("scheduler", ThreadName(pid), "user_transition_scaffold", Ok, "allow:user-transition", "state")]
  }

  /** The two processes of the demo, and whether both were made. */
  function CreatedWork(d: Demo): (seq<Work>, bool) {
    var pid := d.processes + 1;
    if d.processes >= PROCESSES then (TableFullWork(), false)
    else
      var first := CreateWork(d.ready, d.free, pid);
      if !d.ready || d.free < 5 then (first, false)
      else if pid >= PROCESSES then (first + TableFullWork(), false)
      else
        var both := first + CreateWork(true, d.free - 5, pid + 1);
        if d.free < 10 then (both, false)
        else (both + ScaffoldWork(pid), true)
  }

  /** Whether the program may be loaded. */
  function LoadVerdict(p: P.Rules): P.Verdict { P.Decide(p, "shell", HELLO, "process:load") }

  /** user_run_demo */
  function DemoWork(k: Kernel, d: Demo): seq<Work> {
    var (created, ok) := CreatedWork(d);
    if !ok then created
    else
      var k1 := DoAllWork(k, created);
      var v := LoadVerdict(k1.p);
      created + [CheckWork(k1, "shell", HELLO, "process:load")] +
      if !v.allowed then [] else LoadWork(d, d.free - 10, NextSequence(k1.l), k1.l.current, v.reason)
  }

  /** When the demo runs its program: room for two processes, sixteen pages, and leave to load it. */
  predicate DemoRuns(p: P.Rules, d: Demo) {
    d.processes + 2 <= PROCESSES && d.ready && d.free >= 16 && LoadVerdict(p).allowed
  }

  // ---------------------------------------------------------------- the command loop

  /** The commands that only record events: help, time and events record none. */
  datatype Script = Silent | Meminfo | List | Read(path: string) | Module(path: string) | UserDemo(demo: Demo)

  function ScriptWork(k: Kernel, s: Script): seq<Work> {
    match s
    case Silent => []
    case Meminfo => MeminfoWork(k)
    case List => ListWork(k)
    case Read(path) => ReadWork(k, path)
    case Module(path) => ModuleWork(k, path)
    case UserDemo(d) => DemoWork(k, d)
  }

  datatype Command =
    | SetCommand(argument: string)
    | GetCommand(key: string)
    | PolicyCommand(request: Option<string>)
    | GatedCommand(target: string, gate: string, verb: string, query: bool)
    | ScriptCommand(script: Script)
    | UnknownCommand(word: string)

  /** The dispatch on the split line.  `about` is the transaction's target. */
  function DispatchWords(word: string, argument: Option<string>, about: string, demo: Demo): Command {
    if word == "help" || word == "time" || word == "events" then ScriptCommand(Silent)
    else if word == "clear" then GatedCommand("window", "ui:clear", "clear", false)
    else if word == "window" then GatedCommand("window", "ui:redraw", "redraw", false)
    else if word == "meminfo" then ScriptCommand(Meminfo)
    else if word == "ls" then ScriptCommand(List)
    else if word == "cat" && argument.Some? then ScriptCommand(Read(argument.value))
    else if word == "run" && argument.Some? then ScriptCommand(Module(argument.value))
    else if word == "get" && argument.Some? then GetCommand(argument.value)
    else if word == "set" && argument.Some? then SetCommand(argument.value)
    else if word == "policy" then PolicyCommand(argument)
    else if word == "userdemo" then ScriptCommand(UserDemo(demo))
    else if word in {"inspect", "expand", "history"} && argument.Some? then
      GatedCommand(argument.value, word, word, true)
    else if word == "why" && argument.Some? then
      GatedCommand(if "tx " <= argument.value then about else argument.value, "why", "why", true)
    else UnknownCommand(word)
  }

  function Dispatch(line: string, demo: Demo): Command {
    var (word, argument) := Split(line);
    DispatchWords(word, argument, TransactionTarget(line), demo)
  }

  /** What the command's transaction is about. */
  function TargetOf(word: string, argument: Option<string>): string {
    if word == "set" && argument.Some? then Cut(Split(argument.value).0, LABEL)
    else if word == "policy" then POLICY_OBJECT
    else if word == "userdemo" then "scheduler"
    else if word == "why" && argument.Some? && "tx " <= argument.value then
      TransactionName(ParseWhole(argument.value[3..], U64))
    else Cut(if argument.Some? then argument.value else word, LABEL)
  }

  function TransactionTarget(line: string): string {
    var (word, argument) := Split(line);
    TargetOf(word, argument)
  }

  /** A command behind a policy gate: when allowed, one event and something printed. */
  function PassGate(k: Kernel, target: string, gate: string, verb: string, query: bool): (Kernel, bool) {
    var c := Check(k, "shell", target, gate);
    if !c.allowed then (c.k, false)
    else (Note(c.k, "shell", target, verb, Ok, c.event, c.reason, if query then "query" else "state"), true)
  }

  function Body(k: Kernel, c: Command, commandEvent: nat): (Kernel, bool) {
    match c
    case SetCommand(argument) => SetConfig(k, argument)
    case GetCommand(key) => ShowConfig(k, key)
    case PolicyCommand(request) => RunPolicy(k, request)
    case GatedCommand(target, gate, verb, query) => PassGate(k, target, gate, verb, query)
    case ScriptCommand(s) => (DoAllWork(k, ScriptWork(k, s)), s.UserDemo? ==> DemoRuns(k.p, s.demo))
    case UnknownCommand(word) =>
      (Note(k, "shell", word, "command", Denied, commandEvent, "deny:unknown-command", "action"), false)
  }

  /** The kernel inside the bracket: the command's event, its transaction if there is room for one. */
  function EnterWords(k: Kernel, word: string, target: string): (Kernel, nat, nat) {
    var commandEvent := NextSequence(k.l);
    var l1 := Record(k.l, "shell", target, "command", Ok, k.l.current, word, "command");
    var (l2, id) := Begin(l1, "shell", target, commandEvent);
    (k.(l := l2.(tx := id, current := if id == 0 then commandEvent else id)), commandEvent, id)
  }

  function Enter(k: Kernel, line: string): (Kernel, nat, nat) {
    EnterWords(k, Split(line).0, TransactionTarget(line))
  }

  /** The end of the bracket; `boot` is the boot event. */
  function Leave(k: Kernel, id: nat, ok: bool, boot: nat): Kernel {
    var l1 := if id == 0 then k.l else if ok then Commit(k.l, id).0 else Abort(k.l, id, "deny:transaction").0;
    k.(l := l1.(tx := 0, current := boot))
  }

  /** One turn of the command loop, from prompt to prompt; `demo` is what a userdemo finds. */
  function RunCommand(k: Kernel, line: string, demo: Demo, boot: nat): Kernel {
    var (k1, commandEvent, id) := Enter(k, line);
    var (k2, ok) := Body(k1, Dispatch(line, demo), commandEvent);
    Leave(k2, id, ok, boot)
  }
}
