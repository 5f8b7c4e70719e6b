# GlassOS: memory, journal, policy and line editor

GlassOS is a small x86_64 kernel (C over fixed arrays) that records every action as an event. This
project models its three cores and proves what they keep over all runs.

**Memory.** Physical memory below 1 GiB is a sequence of frames of 512 words. A word keeps apart the
three fields that the address mask 0x000FFFFFFFFFF000 separates, so the page-table code is modelled bit
for bit. `Paging.Translate` is the hardware walk of the Intel SDM, volume 3A, sections 4.5 and 4.6, with
rights combined over all levels. The byte-packed bitmaps, the first-fit allocator, the bump heap, the
parser of the Multiboot memory map, the loader's page tables and the process set-up are methods with
loops; each is proved equal to a function on values, and the theorems are about those functions.

- `paging.dfy`, `spaces.dfy`, `isolation.dfy`, `page_tables.dfy`: tables, address spaces, isolation.
  Each table frame has one role in one address space; that map of roles is the invariant behind isolation.
  `supply.dfy`: when there are pages enough, and how many each operation uses.
- `bitmaps.dfy`, `allocation.dfy`, `multiboot.dfy`, `memory.dfy`: bitmaps, allocator, heap, memory map.
- `loader.dfy`, `processes.dfy`, `process_runs.dfy`, `process_contents.dfy`, `user_memory.dfy`: boot tables, the
  pages of user processes, runs of process operations among other uses of memory, the set-up of the demo, and
  what a process reads there, byte by byte.

**Journal.** The 128-slot event ring is proved to keep the newest part of an unbounded log. On that log
stand the transaction table, the object registry, the policy, the configuration, the command bracket of
the shell and the system calls.

- `text.dfy`: bounded copies and appends, numerals. `ring.dfy`: the ring and causal chains.
- `ledger.dfy`, `journal.dfy`: events, transactions and objects, as functions and as procedures.
  `history.dfy`: the registry and the revisions reported, over any run. `transaction_objects.dfy`: the objects
  named after transactions.
- `policy.dfy`, `policy_text.dfy`, `policy_store.dfy`, `base_policy.dfy`: decisions, the policy file, the
  loops, and the file that the kernel is built with.
- `kernel.dfy`, `ramfs.dfy`, `commands.dfy`, `scripts.dfy`: system calls and handlers, the files, every
  command of the shell with the events that it records, and that all of them keep to the journal's discipline.
- `closure.dfy`, `prompts.dfy`, `mirror.dfy`, `boot.dfy`: closure of transactions, the command loop, the
  registry's mirror of the configuration, start-up and every prompt after it. `policy_commands.dfy`: what a
  line typed at the prompt does to the policy.
- `transcript.dfy`, `call_transcripts.dfy`, `command_transcripts.dfy`, `line_transcripts.dfy`,
  `turn_transcripts.dfy`, `work_transcripts.dfy`, `demo_transcripts.dfy`, `boot_transcripts.dfy`: every event,
  with all its texts, its cause and its transaction, that a system call by its number, a line by its words, the
  demo and start-up leave, written down without the handlers.
- `reachability.dfy`, `capacity.dfy`, `tagging.dfy`, `long_names.dfy`: every journal of the kernel is one of a
  disciplined run; how the 32 transactions are used up; which transaction an event is tagged with; how long
  names send revisions back.
- `command_line.dfy`, `config_store.dfy`, `script_runs.dfy`, `shell.dfy`: the line cut in place, names built in
  48-byte buffers, values copied into theirs, and the commands and system calls that run on them.
- `demo.dfy`: the demo of the journal runs exactly when the demo of memory can be set up.

**Line editor.** `line_editor.dfy` is a text with a cursor and a history; `keyboard.dfy` is the in-place
line buffer and the ring of eight commands that refine it, scancode by scancode.

Where the code does less than its surroundings promise, the code is modelled as it is:

- `memory_map_process_page` accepts physical addresses with bits above 51, and maps another frame then:
  `Isolation.MappedAddressIsRequested` says exactly when the walk gives the address and rights asked for, and
  `Isolation.HighAddressIsLost` gives a call that loses bit 52. Its callers in this repository pass addresses
  from `page_alloc` only, which have no such bit.
- Names are stored in 48 bytes, so events about a longer name carry the label of another object:
  `History.RevisionsRiseExactly` says exactly when the revisions reported under a label never go back, and
  `LongNames.LongNamesBreakRevisions` shows, under the shipped policy, one command at the first prompt
  sending back those of the rule that allows policy changes.
- After 32 transactions `transaction_begin` returns 0 and commands and calls still run, without one,
  although docs/contracts/POLICY-GRAMMAR-v1.md says that policy changes only through a transaction.
  `Capacity.TransactionsRunOut` says exactly when: loading the policy uses one, each command and each system
  call one more. `Capacity.ChangeWithoutTransaction` shows, under the shipped policy and after 31 commands,
  any change of three words being accepted without one.
- `syscall_finish` resets the current transaction to none, so what a command records after a system call
  is not tagged with the command's transaction. Only userdemo makes calls, exactly when its program may be
  loaded and there is room and pages for it. `Tagging.CommandTagsItsEvents` says of every event of every
  command, those of the traps included, whether it has the tag, and `Tagging.TagIsLost` gives a run under the
  shipped policy that loses it. The transaction is still closed exactly once.
- meminfo, ls, cat and run do not say that they were denied, and their transactions are then committed:
  `Prompts.DeniedCommandIsAborted` says that every other denied command's is aborted.
- docs/ARCHITECTURE.md names kernel/multiboot_entry.asm as the builder of the page tables; the one that
  is built is boot/multiboot_loader.asm, and that one is modelled.

## Model

| member | source | states |
|---|---|---|
| Bitmaps.UpdateChangesOnePage | kernel/memory.c:41-63 | setting or clearing a bit of a byte-packed bitmap changes the membership of that page and of no other |
| Bitmaps.Set | kernel/memory.c:41-43 | the pages of the bitmap gain exactly this one |
| Bitmaps.Clear | kernel/memory.c:45-47 | the pages of the bitmap lose exactly this one |
| Bitmaps.Test | kernel/memory.c:49-51 | true exactly for the pages of the bitmap |
| Bitmaps.Fill | kernel/memory.c:73-77 | all pages or none |
| PageMemory.UsableBounds | kernel/memory.c:94-103 | the aligned and clamped bounds enclose exactly the pages from 1 MiB to 1 GiB lying wholly inside the range, even when base + length exceeds 64 bits |
| PageMemory.ReservedBounds | kernel/memory.c:111-122 | the bounds enclose exactly the pages from 1 MiB to 1 GiB overlapping the range |
| PageMemory.Memory.MarkUsableRange | kernel/memory.c:94-108 | exactly the pages wholly inside become usable and free |
| PageMemory.Memory.MarkReservedRange | kernel/memory.c:111-129 | exactly the overlapping pages become unusable and taken |
| PageMemory.Memory.ReserveSpans | kernel/memory.c:131-147 | every page overlapping one of the ranges is withdrawn, and no other |
| Multiboot.UsableByAddress | kernel/memory.c:138-147 | the pages left are those, by addresses, that lie in 1 MiB..1 GiB and wholly inside a type-1 record and overlap no non-empty record of another type and none of 0x100000..0x200000, the kernel image, the stack 0x2F0000..0x300000, the 52 bytes of boot information and the memory map |
| PageMemory.Memory.OfferRecords | kernel/memory.c:197-211 | the walk terminates inside the map, fails exactly when an entry does not fit, and offers exactly the pages inside type-1 records |
| PageMemory.Memory.ClaimRecords | kernel/memory.c:215-222 | the unchecked second pass visits the same records and withdraws exactly the pages that records of other types overlap |
| PageMemory.Memory.Init | kernel/memory.c:170-241 | by addresses: succeeds exactly when there is boot information with a map of positive length that ends by 1 GiB, the map parses and sixteen pages in a row are left; a page is then usable exactly when it is left as above, and only the heap is allocated |
| PageMemory.KernelIsNeverGranted | kernel/memory.c:10-13 | over any calls after that no page held by a caller or by the heap has a byte of the loader, the kernel, the boot stack, the boot information or the map, or lies outside the type-1 records |
| PageMemory.HeapTaken | kernel/memory.c:227-238 | the boot heap is taken exactly when there is room for it, and is then all that is allocated |
| Multiboot.EntryReadsBack | kernel/memory.c:38-39 | an entry written with any padding reads back its base, length, type and size |
| Multiboot.ParseEncodes | kernel/memory.c:197-211 | every map a boot loader can write parses back to its records |
| Multiboot.ParsesExactlyEncodings | kernel/memory.c:197-211 | a map parses exactly when it is a list of entries, so that every other one is refused |
| PageMemory.Memory.CountPages | kernel/memory.c:149-156 | the loops count exactly the pages in the set |
| PageMemory.Memory.FreePageCount | kernel/memory.c:426-434 | the number of pages usable and not allocated |
| PageMemory.Memory.RangeIsFree | kernel/memory.c:158-168 | true exactly when the run is in range and no page of it is taken |
| PageMemory.Memory.PageAllocContiguous | kernel/memory.c:387-407 | the bitmap search takes the first fit on the set of pages, with the same refusals |
| Allocation.FirstFitIsLowest | kernel/memory.c:393-406 | a non-zero result is the lowest start of a free run of that length; 0 means that there is none |
| Allocation.AllocateFacts | kernel/memory.c:387-407 | granted pages were free, are now taken, and nothing else changes; a refusal changes nothing |
| PageMemory.Memory.PageFree | kernel/memory.c:413-424 | frees exactly an aligned usable page outside the heap, also when it is free already, and refuses the rest |
| Allocation.FreeKeepsValid | kernel/memory.c:413-424 | a freed page is never a heap page, and the allocator's invariant stays |
| Allocation.AllocateStep | kernel/memory.c:387-407 | the pages of a grant are disjoint from every page then live and from the heap |
| Allocation.RunsStayValid | kernel/memory.c:387-458 | over any interleaving of allocate, free and malloc the invariant holds and the usable set never changes |
| Allocation.Conservation | kernel/memory.c:149-156 | free, live and heap pages partition the usable pages and their counts add up to the usable memory, after any calls from initialisation on |
| Allocation.GrantsStayDisjoint | kernel/memory.c:387-424 | after any calls no page is held by two grants, none that is held is a heap page or free, and the grants hold exactly what was handed out and not freed since |
| PageMemory.Memory.HeapAlloc | kernel/memory.c:436-458 | the bump allocation with its four refusals |
| Allocation.RoundingNeverWraps | kernel/memory.c:443-448 | the 64-bit rounding equals the mathematical one whenever it is reached |
| Allocation.MallocFailsExactlyWhenFull | kernel/memory.c:436-458 | with the heap ready, a non-zero request fails exactly when its rounded size exceeds what remains, and then changes nothing |
| Allocation.HeapBlocksDisjoint | kernel/memory.c:436-466 | over any run, blocks are 16-aligned, pairwise disjoint and inside the heap, and their rounded sizes add up to what the heap has lost |
| AddressSpaces.WalkIsLook | kernel/memory.c:289-302 | in a well-formed space the walk reads only that space's tables, and its outcome is the leaf's own frame and rights |
| AddressSpaces.NewSpace | kernel/memory.c:289-302 | the five tables form a space with the two copied bootstrap tables and nothing else |
| AddressSpaces.CreateKeepsInv | kernel/memory.c:276-307 | creating a space, or failing part way, keeps every table frame allocated and in one role, and no word outside fresh frames changes |
| Supply.TakeCounts | kernel/memory.c:387-411 | page_alloc succeeds exactly when a page is free, and leaves one less |
| Supply.CreateSucceedsExactly | kernel/memory.c:276-287 | an address space is made exactly when the allocator is ready and five pages are free, and uses five |
| Supply.MapCounts | kernel/memory.c:309-355 | a valid map into a live space succeeds exactly when the page it may need for a table is free, uses that page and adds that table only |
| AddressSpaces.GrantUserFacts | kernel/memory.c:340-344 | opening the directory entries to user mode changes no translation |
| AddressSpaces.SetLeafFacts | kernel/memory.c:346-351 | writing a leaf remaps its page and no other |
| AddressSpaces.MapPageFacts | kernel/memory.c:309-355 | a map keeps the invariant, touches one space only, remaps one page when it succeeds and changes nothing when denied |
| PageTables.PagedMemory.ZeroPage | kernel/memory.c:79-84 | the frame becomes zero, others stay |
| PageTables.PagedMemory.CopyPage | kernel/memory.c:86-92 | the frame becomes a copy, others stay |
| PageTables.PagedMemory.CreateAddressSpace | kernel/memory.c:276-307 | the writes in their order build the space of the specification, or leave the pages taken |
| PageTables.PagedMemory.MapProcessPage | kernel/memory.c:309-355 | the writes in their order are the map of the specification, with the same refusals |
| Isolation.StepIsolates | kernel/memory.c:276-355 | each operation keeps the words of the bootstrap tables and of every space it does not map into, writes of other low memory included |
| Isolation.SpacesAreIsolated | kernel/memory.c:276-411 | after any run that maps nothing into a space, it translates every address as before |
| Isolation.BootstrapIsIsolated | kernel/memory.c:14-18 | after any run whatever the bootstrap tables translate every address as before |
| Isolation.TablesAreDisjoint | kernel/memory.c:276-355 | in every reachable state the tables that two spaces walk are allocated and disjoint |
| Isolation.MapIsExact | kernel/memory.c:309-355 | the walk at a mapped page gives the frame and rights requested; every other page keeps its own; a denied map changes no translation |
| Isolation.MapSucceedsExactly | kernel/memory.c:313-338 | a map succeeds exactly when its arguments are valid and the page has a table already or the allocator has a page left for one |
| Isolation.HighAddressIsLost | kernel/memory.c:313-319 | wherever a table or a page for one is left, an address with bit 52 set is accepted and the page is mapped to another address |
| Isolation.MappedAddressIsRequested | kernel/memory.c:309-355 | after a successful map the walk gives the physical address asked for exactly when it has no bit above 51, and the rights asked for exactly unless executing is asked for with bit 63 set |
| Loader.BuildBootTables | boot/multiboot_loader.asm:23-88 | the loops and overlays leave the five bootstrap tables |
| Loader.BootIdentityMap | boot/multiboot_loader.asm:23-88 | by page numbers: the first GiB is identity-mapped for the kernel only, 0x200..0x27F and the loader read-execute, 0x280..0x28F read-only, the rest read-write, and nothing above; the walk stays in the five tables |
| Loader.BootWritesOrExecutes | boot/multiboot_loader.asm:43-88 | no page is both writable and executable, none is open to user mode |
| Processes.NewSpaceIsBootSpace | kernel/memory.c:276-307 | a fresh space translates as the bootstrap tables below 4 MiB and is empty above |
| Processes.CreatedProcess | kernel/user.c:98-140 | a process, one of at most four and numbered next, gets an address space of its own, empty above 4 MiB |
| Processes.LoadFacts | kernel/user.c:154-196 | loading succeeds exactly when allowed, found, in a process with an address space, with pages left for code, stack and the tables missing over them; it then opens the code page read-execute and the stack page read-write to user mode, and changes no other page and no other space |
| Processes.ProbeFacts | kernel/user.c:198-214 | probing succeeds exactly when the process has an address space and there are pages for the probe and the table over it; it opens that one page, and changes no other page and no other space |
| ProcessRuns.RunsStayOk | kernel/user.c:98-214 | the process invariant holds over any run of process operations, failing ones included, among allocations, frees of other pages, heap blocks, new spaces and writes of data |
| ProcessRuns.UserPagesArePrivate | kernel/user.c:154-214 | after any such run from boot no page is writable and executable, and a user frame is mapped for user mode at one page of one space only and is no table |
| ProcessRuns.DemoSucceedsExactly | kernel/user.c:329-347 | the demo's set-up succeeds exactly when loading is allowed and the program found, with room for two processes and sixteen free pages |
| ProcessRuns.DemoIsolatesPeer | kernel/user.c:329-347 | when the demo enters user mode the process sees the kernel's low pages, its code and its stack, the peer its private page, and the process cannot translate the peer's probe address |
| ProcessRuns.DemoByAddress | kernel/user.c:329-347 | by page numbers, for every address: the process sees its code at 0x400 to read and execute, its stack at 0x7FF to read and write, the kernel below 0x400 not for user mode, and nothing else; the peer its page at 0x600 instead |
| DemoAgreement.DemoRunsWhenSetUp | kernel/user.c:329-363 | the program of the demo runs, as the journal has it, exactly when the pages for it can be set up |
| UserMemory.ProcessTable.Create | kernel/user.c:98-140 | the process table and memory change as specified |
| UserMemory.ProcessTable.Load | kernel/user.c:148-196 | the load as specified; after a successful one the process reads byte i of the file at 0x400000 + i, and 0x90 on to the end of the page |
| UserMemory.ProcessTable.Probe | kernel/user.c:198-214 | the probe as specified; after a successful one the owner reads 0xBEEFBEEF00000000 plus its pid in every word of 0x600000..0x600FFF |
| UserMemory.LoadedProgramIsRead | kernel/user.c:180-187 | read through the page tables byte by byte, least significant first, the code page holds the file and then 0x90 |
| UserMemory.StampedPageIsRead | kernel/user.c:203-208 | read so, every word of the probe page is 0xBEEFBEEF00000000 plus the pid |
| Text.TextBuffer.AppendText | kernel/event.c:79-86 | the buffer holds its text followed by the new one, cut to its capacity, and stays terminated |
| Text.TextBuffer.AppendDecimal | kernel/event.c:88-105 | appends the whole decimal numeral, cut to the buffer's capacity |
| Text.SplitDigits | kernel/policy.c:174-177 | ten digits for 32 bits and twenty for 64 are always enough; reversed they are the numeral |
| Text.ParseNumber | kernel/event.c:68-77 | the value of an all-digit text in unsigned arithmetic, 0 for any other text |
| Text.ParseDecimal | kernel/main.c:53-60 | a printed number parses back to itself |
| EventRing.Ring.Push | kernel/event.c:125-147 | the ring keeps exactly the newest min(128, total) records |
| EventRing.Ring.At | kernel/event.c:226 | the i-th of the retained records, nothing beyond them |
| EventRing.Ring.Find | kernel/event.c:228-236 | exactly the log entry of that sequence when it is retained, nothing otherwise |
| EventRing.Ring.PrintChain | kernel/event.c:252-262 | the recursion prints the causal chain and terminates |
| EventRing.ChainIsCausal | kernel/event.c:252-262 | printed sequences strictly increase, each line is the cause of the next, only the first can be lost |
| EventRing.ChainIsComplete | kernel/event.c:252-262 | every cause that is retained is printed |
| EventRing.EvictedCausesStayHidden | kernel/event.c:252-262 | once a cause has been evicted no earlier cause is retained |
| EventRing.RetainedRecordsNeverChange | docs/contracts/EVENT-SCHEMA-v1.md:9 | a record is found unchanged for exactly the next 127 records |
| Ledger.AppendKeepsOk | kernel/event.c:125-147 | recording an event of a known transaction keeps table and log in agreement |
| Ledger.BeginKeepsOk | kernel/event.c:154-181 | a transaction's id is the sequence of its begin event; 0 is returned exactly when 32 have been used |
| Ledger.BeginRecords | kernel/event.c:159-180 | the one event of a begin: "begin" of "transaction/<id>", Ok, "allow:transaction", by its actor and for its cause; and the record that it opens |
| Ledger.CloseKeepsOk | kernel/event.c:183-223 | commit and abort keep table and log in agreement, and do nothing for an unknown id |
| Ledger.CommitRecords | kernel/event.c:183-202 | the one event of a commit: "commit" of "transaction/<id>", Ok, "allow:transaction", by the actor of the transaction, caused by its last event; the record becomes committed, at the revision of its target |
| Ledger.AbortRecords | kernel/event.c:204-223 | the same of an abort: "abort", Denied, for the reason given |
| Ledger.TransactionsAgreeWithLog | kernel/event.c:125-223 | in every reachable state ids are distinct, each is the sequence of its begin event, and the end event belongs to it |
| Ledger.TaggedEventsLieWithin | kernel/event.c:141-144 | in every reachable state a tagged event lies between its transaction's begin and end, and a closing event is caused by the one that was last before it |
| Ledger.CausesPrecedeEffects | kernel/event.c:125-147 | in every reachable state every event's cause is earlier |
| History.RevisionsAdvance | kernel/object.c:100-113 | for any query, numeric or not, the revision reported never decreases as the registry advances |
| History.StepAdvances | kernel/object.c:55-93 | every operation only advances the registry |
| History.RevisionsNeverDecrease | kernel/event.c:134 | revisions reported under one label never decrease along the log: for labels below 47 characters always, for those of 47 when no longer name sharing them is recorded |
| History.RecordRises | kernel/event.c:134-139 | after any run, a record keeps its label's revisions rising exactly when its target is stored whole or nothing under the label has reported a revision above 0; long numbers by the object they name |
| History.RecordIdentifies | kernel/event.c:132-134 | an event gives the numbers of the first objects that answer, by name or by number, to its actor and its target, 0 when none does, and the revision that the target is at |
| History.StartsAtRevision | kernel/event.c:170-171 | a transaction starts at the revision of the first object that answers to its target |
| History.EndsAtRevision | kernel/event.c:191-212 | and ends at the revision that this object has then |
| History.RevisionsRiseExactly | kernel/event.c:134-139 | over any run, a label's revisions never went back exactly when no longer name was recorded under it once it had reported a revision above 0 |
| LongNames.GetOfLongNameFalls | kernel/main.c:412-498 | in any reachable journal, a get of a registered 47-character name and one character more sends its label's revisions back |
| LongNames.LongCapabilityFalls | kernel/policy.c:186-196 | from power-on under any policy text with a rule whose capability name fills 47 characters, that get at the first prompt does |
| LongNames.LongNamesBreakRevisions | policy/base.policy:19 | under the shipped policy, that get of the capability of this line's rule does |
| History.CommittedAtOrAfterStart | kernel/event.c:170-191 | in every reachable state a transaction's committed revision is at least its started one |
| History.RegistryIsOrdered | kernel/object.c:55-74 | ids are 1, 2, 3, ... in order, parents precede children, names are unique |
| Ledger.TransactionNameRoundTrip | kernel/event.c:107-111 | the name of every 64-bit id fits its buffer and gives the id back |
| TransactionObjects.BeginRegisters | kernel/event.c:161-163 | the object of a new transaction, all its fields: "transaction/<id>", state "open", a child of the journal's object |
| TransactionObjects.EndUpdates | kernel/event.c:199-220 | when it ends this object, and no other, gets state "committed" or "aborted", one revision on, at the closing event |
| TransactionObjects.UpdateIs | kernel/object.c:76-84 | object_update_state by name changes that object only: state, one revision on, and the event that reports that revision |
| TransactionObjects.ObjectsShowTransactions | kernel/event.c:154-223 | over any run, each transaction has an object of its name while the registry has room, whose state says "open", "committed" or "aborted" as the transaction is |
| Journal.Journal.Find | kernel/object.c:105-113 | the first object with that number or name |
| Journal.Journal.FindTransaction | kernel/event.c:59-66 | the first record with that id |
| Journal.Journal.RecordEvent | kernel/event.c:125-147 | the ring, the sequence counter and the transaction table change as specified |
| Journal.Journal.RegisterObject | kernel/object.c:55-74 | the registry changes as specified |
| Journal.Journal.UpdateObject | kernel/object.c:76-84 | state, revision and event change as specified |
| Journal.Journal.NameTransaction | kernel/event.c:107-111 | the name built in its buffer |
| Journal.Journal.BeginTransaction | kernel/event.c:154-181 | registers, opens and records as specified |
| Journal.Journal.CloseTransaction | kernel/event.c:183-223 | closes and records as specified |
| Policy.LastMatchWins | kernel/policy.c:338-360 | allowed exactly when an allow rule applies and no later rule does; the number is the newest applicable rule's, 0 and denied when there is none |
| Policy.ChangeDecidesItsOwnRequests | kernel/policy.c:271-304 | an accepted rule decides exactly the requests it applies to, its own way; every other decision stays; a refusal changes nothing |
| Policy.RevisionCountsChanges | kernel/policy.c:275-288 | over any run of changes the rules grow by as many as fit, rule i has number i + 1, old rules stay, and the revision is the loaded one plus the rules added |
| Policy.ReasonFits | kernel/policy.c:207-215 | the decision text of an operation of at most 18 characters fits its buffer whole |
| Policy.ReasonsAreDistinct | kernel/policy.c:207-215 | that text tells effect, operation, revision and rule apart |
| PolicyText.RuleFitsLine | kernel/policy.c:122-133 | no canonical rule reaches the 159-character cut |
| PolicyText.SilentLineAddsNothing | kernel/policy.c:141-149 | blank lines, carriage returns and comments add nothing |
| PolicyText.RuleLineReadsBack | kernel/policy.c:94-119 | a printed rule, whatever trails it, is read back |
| PolicyText.PolicyReadsBack | kernel/policy.c:121-156 | a printed policy parses back to the same rules, the first 64 of them, numbers and revision, whatever blank lines and comments are between |
| PolicyText.FourWords | kernel/policy.c:94-119 | a line of four words, with any spaces and tabs around them, is a rule exactly when the first is "allow" or "deny" and there is room: allowing or denying, numbered next, its fields cut to 47 characters |
| PolicyText.ThreeWords | kernel/policy.c:105-108 | a line of three words adds nothing; PolicyText.TwoWords and PolicyText.OneWord say it of fewer |
| BasePolicy.Loads | policy/base.policy:1-23 | the shipped policy loads as its 22 rules, numbered in order, at revision 1 |
| PolicyText.ParsedIsWellFormed | kernel/policy.c:94-156 | whatever the text, at most 64 rules are loaded, rule i has number i + 1, and the revision is at least 1 and fits 32 bits |
| PolicyStore.Store.ScanToken | kernel/policy.c:64-76 | the next token cut to its buffer, and the position after all of it |
| PolicyStore.Store.ParseRule | kernel/policy.c:94-119 | the rule list grows as specified |
| PolicyStore.Store.TakeLine | kernel/policy.c:126-139 | the first 159 characters of the line, and the start of the next one |
| PolicyStore.Store.ParseSource | kernel/policy.c:121-156 | the loop over lines is the parser of the specification |
| PolicyStore.Store.FormatDecision | kernel/policy.c:207-215 | the six appends leave the decision text cut to 47 characters |
| PolicyStore.Store.Check | kernel/policy.c:346-354 | the forward search with overriding finds the newest applicable rule |
| PolicyStore.Store.Change | kernel/policy.c:275-288 | appends the rule, its fields copied into 48-byte buffers, when there is room; numbers and revision keep counting; exactly the requests the rule applies to are decided by it |
| Closure.SetConfigFacts | kernel/main.c:174-200 | set succeeds exactly when it has a value, is allowed and names a key, changes that value only, and opens and closes no transaction |
| Closure.ShowConfigFacts | kernel/main.c:154-172 | get succeeds exactly when allowed and the key exists, and changes nothing |
| Closure.RunPolicyFacts | kernel/main.c:202-254 | policy show succeeds exactly when allowed, a change exactly when allowed and not full, a malformed request never; only an accepted change adds a rule |
| PolicyCommands.RequestOfWords | kernel/main.c:202-236 | an argument of four words and any spaces asks to add an allowing rule when the first is "allow", a denying one when it is "deny", and nothing when it is neither, "show" apart |
| PolicyCommands.ChangeAddsRule | kernel/main.c:224-252 | the line policy allow s o t, or policy deny s o t, where it is accepted, adds the rule with that effect, the next number and the fields cut to 47; every request that it is about, each field "*" or equal, is then allowed, or denied, by it, and every other decided as before |
| PolicyCommands.RulesChangeExactly | kernel/main.c:202-254 | a line changes the rules exactly when it is one of those, policy:change is allowed and there are fewer than 64 rules |
| PolicyCommands.ChangeRegisters | kernel/policy.c:217-225 | an accepted change registers the object of the capability, all its fields, and moves that of the policy on |
| Kernel.SplitIs | kernel/main.c:39-51 | a line splits into the word before its first space and the rest after the spaces |
| Kernel.SplitMeans | kernel/main.c:39-51 | and every line is of that form |
| Closure.SyscallCloses | kernel/user.c:237-327 | a call closes exactly the transaction it opened, by an event that says commit or abort, committed exactly when the rules allow what it asks: syscall:inspect, syscall:yield, syscall:config_get of a key there is, or syscall:config_set; an unknown call never |
| Closure.TrapCloses | kernel/user.c:365-413 | by number: 1 succeeds exactly when syscall:inspect of the text at its address is allowed, 2 when syscall:yield of the thread is, 3 when syscall:config_get of that text is and it is a key, 4 when syscall:config_set is, any other never; the transaction is closed so, those open before still are, and none is current |
| Closure.UserStringExactly | kernel/user.c:216-235 | the text at a user address: it starts and ends in the code page within 46 characters |
| CallTranscripts.TrapLeaves | kernel/user.c:365-413 | every trap, by its number, leaves exactly the events listed: two on the way in, begin, the check and what it allows, commit or abort, and one on the way out, with all texts, causes and transactions |
| CallTranscripts.ShippedPolicyCalls | policy/base.policy:21-23 | under the shipped policy calls 1 and 2 always succeed, 3 exactly for the two keys, and 4 never: it is denied and its transaction aborted |
| Closure.CloseCloses | kernel/event.c:183-223 | closing turns one open transaction into one closed exactly once, and no other: its last event says "commit" with Ok and its status Committed, or "abort" with Denied and Aborted |
| Prompts.CommandReturnsToPrompt | kernel/main.c:412-559 | a command's transaction is closed exactly once, by an event that says "commit" when it is committed and "abort" when it is aborted, committed exactly when the command succeeds by the rules and values it finds, userdemo when its program runs; a command that is not accepted leaves every value and rule as it was |
| Prompts.DeniedCommandIsAborted | kernel/main.c:412-559 | a command whose policy gate denies it is aborted exactly when it is not meminfo, ls, cat or run, which are committed |
| LineTranscripts.SucceedsByWord | kernel/main.c:412-559 | when a command succeeds, word by word and gate by gate |
| TurnTranscripts.CommandLeaves | kernel/main.c:399-559 | every line but userdemo, by its words, leaves exactly the events listed: its own, begin, those of its body, and commit or abort, with all texts, causes and transactions |
| TurnTranscripts.EveryCommandLeaves | kernel/main.c:354-561 | from power-on, over any commands, so does the next one |
| DemoTranscripts.DemoLeaves | kernel/user.c:329-363 | a userdemo whose program runs leaves exactly the events listed: 35 of its set-up, those of each trap, and three |
| RamFs.Find | kernel/ramfs.c:69-84 | the first file with that path, none for another |
| Scripts.CreatedExactly | kernel/user.c:329-337 | both processes of the demo are made exactly when there is room for two and ten pages for their tables |
| Scripts.EveryScriptOk | kernel/main.c:116-343 | whatever meminfo, ls, cat, run and userdemo find, their events, registrations, lookups and system calls keep to the journal's discipline |
| Prompts.EveryPromptIsClosed | kernel/main.c:389-560 | at every prompt of every run nothing is open, each transaction was closed exactly once and none is current |
| Prompts.RulesGrow | kernel/policy.c:271-304 | at every prompt of every run the rules are the loaded ones and one for each policy change accepted, numbered in order, and the revision has gone up by as many |
| Mirror.SetKeyMirrors | kernel/config.c:59-70 | config_set keeps value and object state equal and counts one revision |
| Mirror.RegistryMirrorsConfig | kernel/config.c:43-70 | at every prompt each key's object shows the key's value, at revision 1 plus the number of accepted sets |
| Boot.StartReachesPrompt | kernel/main.c:354-387 | start-up with any policy text reaches a prompt with every transaction closed, the keys /config/theme and /config/prompt at "light" and ">", every key mirrored and the rules of the text |
| BootTranscripts.BootLeaves | kernel/policy.c:227-245 | from power-on to the loaded policy exactly five events, listed: the boot event and, in transaction 2, begin, load, the new state and commit |
| BootTranscripts.RegistryAtStart | kernel/object.c:43-53 | the seven objects there are from the start, all their fields |
| BootTranscripts.ConfigLeaves | kernel/config.c:43-52 | the directory and the two keys with their first values, and one event |
| Boot.PolicyStarting | kernel/policy.c:227-245 | loading the base policy leaves no transaction open or current |
| Boot.EveryPromptFromPowerOn | kernel/main.c:354-561 | from power-on, over any commands, every prompt has all of the above: closure, the mirror, rules numbered and counted from the loaded ones, and every decision the newest applicable rule's |
| Boot.EveryClosingSaysSo | kernel/event.c:183-223 | from power-on, over any commands, the last event of every closed transaction names it and says "commit" with Ok exactly when it is committed, "abort" with Denied exactly when it is aborted |
| Reachability.EveryJournalIsReachable | kernel/main.c:354-561 | from power-on, over any commands, the journal is one that a disciplined run leaves: causes first, table and log agree, objects in order, revisions under labels below 47 characters and of transactions never going back, and below 2^64 events each transaction's object, one there is while the registry has room, in the state "open", "committed" or "aborted" that the transaction is in |
| Capacity.DemoCount | kernel/user.c:329-363 | userdemo makes its program's system calls when loading is allowed, with room for two processes and sixteen free pages, and none otherwise |
| Capacity.TransactionsRunOut | kernel/event.c:154-157 | from power-on, over any commands, the table holds one transaction for the policy, one for each command and one for each system call, up to 32; a command has one exactly when fewer than 31 commands and calls came before |
| Capacity.ChangeWithoutTransaction | docs/contracts/POLICY-GRAMMAR-v1.md:9 | under the shipped policy, after 31 commands, any change of three words is accepted and has no transaction |
| Tagging.CommandTagsItsEvents | kernel/user.c:245-254 | of the events of a command that has a transaction exactly those after its own and before the end of its tag have the tag, and the closing one; the tag ends two events into the first system call, or at the closing event when there is none; some event has no tag exactly when there was a call |
| Tagging.TagIsLost | kernel/user.c:354-356 | under the shipped policy the demo at the first prompt has a transaction and leaves events without a tag |
| CommandLine.SplitCommand | kernel/main.c:39-51 | cut in place, the buffer holds the first word where the text was and the rest of it further on; everything before is untouched |
| CommandLine.SplitRequest | kernel/main.c:202-236 | three cuts in place read the request that the argument spells: to show when its first word is "show", to allow or to deny only when that is "allow" or "deny" |
| CommandLine.CopyFirstToken | kernel/main.c:74-84 | the first word, cut to 47 characters |
| CommandLine.BuildTarget | kernel/main.c:400-411 | the transaction's target built in its 48-byte buffer from the line already cut |
| CommandLine.CopyUserString | kernel/user.c:216-235 | the text at a user address exactly when it starts and ends in the code page within 47 bytes, reading nothing beyond |
| CommandLine.BuildCapabilityName | kernel/policy.c:186-196 | six appends leave the capability name cut to 47 characters |
| CommandLine.BuildCapabilityState | kernel/policy.c:198-205 | four appends leave the state text cut to 47 characters |
| ConfigStore.ConfigStore.Store | kernel/config.c:59-67 | the value, cut to 47 characters, replaces the key's own in its buffer; the other key keeps its value; an unknown key stores nothing |
| ConfigStore.ConfigStore.Get | kernel/config.c:54-57 | the value in the key's buffer, nothing for an unknown key |
| Shell.Shell.UserTrap | kernel/user.c:365-413 | a trap, its string copied out of the user page, does what Kernel.Trap says; its transaction is closed by its outcome, the others stay as they were, and it succeeds exactly when its number and the rules say so |
| ScriptRuns.ScriptIsRun | kernel/main.c:116-343 | meminfo, ls, cat and run, call by call, leave what their scripts say |
| Shell.CutLine | kernel/main.c:331-338 | a line of the module is cut off in place: the text up to the newline, and the rest after it |
| Shell.Shell.RunBuffer | kernel/main.c:329-342 | the loop over the lines of the module buffer runs each of them in order |
| Shell.Shell.RunModuleFile | kernel/main.c:299-343 | policy, lookup, type and size are checked in order and the module's lines are run |
| Shell.Shell.Turn | kernel/main.c:399-559 | a turn of the loop on a line cut in place, for every command but userdemo, does what Commands.RunCommand says and returns to the prompt: its transaction closed exactly once by its success, only an accepted set or policy change having changed a value or the rules |
| LineEditor.BackspaceUndoesInsert | kernel/keyboard.c:148-181 | backspace, or delete at the old cursor, takes back an insertion |
| LineEditor.InsertUndoesDelete | kernel/keyboard.c:148-172 | typing a deleted character again gives the line back |
| LineEditor.KeyRows | kernel/keyboard.c:22-28 | what the four rows of keys give, scancode by scancode |
| LineEditor.OtherKeyCodes | kernel/keyboard.c:22-28 | what the other scancodes give, and which give nothing |
| LineEditor.ShiftedKeys | kernel/keyboard.c:30-59 | what shift makes of each key |
| LineEditor.CharacterKey | kernel/keyboard.c:224-245 | a character key inserts its character at the cursor while there is room |
| LineEditor.BackspaceKey | kernel/keyboard.c:239-242 | 0E removes the character before the cursor |
| LineEditor.EnterKey | kernel/keyboard.c:228-238 | 1C submits the line and remembers it, the newest of at most eight, unless it is empty |
| LineEditor.EnterSubmits | kernel/keyboard.c:224-238 | no other key submits |
| LineEditor.SilentKey | kernel/keyboard.c:22-28 | the keys that give nothing change nothing |
| LineEditor.FlagKeys | kernel/keyboard.c:194-211 | shift, releases, the prefix E0, and keys while a line waits |
| LineEditor.CursorKeys | kernel/keyboard.c:212-222 | E0 4B, 4D, 47, 4F and 53: one left, one right, to the start, to the end, and delete at the cursor |
| LineEditor.StepOk | kernel/keyboard.c:192-250 | every scancode keeps the cursor inside the text and the text inside its buffer |
| LineEditor.HistoryIsNewestCommands | kernel/keyboard.c:110-120 | over any stream of scancodes the history is the last eight non-empty commands, oldest first, and the line never has more than 127 characters |
| LineEditor.ArrowsBrowseHistory | kernel/keyboard.c:122-146 | by keys: from a line being edited, with n commands remembered, k presses of E0 48 show command max(0, n - k), j of E0 50 after them the command j places on, or the line again beyond the newest; the cursor is at the end |
| LineEditor.UpsThenDownsRestoreLine | kernel/keyboard.c:122-146 | k ups and at least min(k, history length) downs restore the line |
| Keyboard.Keyboard.InsertCharacter | kernel/keyboard.c:148-160 | the in-place shift inserts at the cursor |
| Keyboard.Keyboard.DeleteCharacter | kernel/keyboard.c:162-172 | the in-place shift removes at the cursor |
| Keyboard.Keyboard.BackspaceCharacter | kernel/keyboard.c:174-181 | removes left of the cursor |
| Keyboard.Keyboard.HistorySlot | kernel/keyboard.c:77-79 | the slot is never negative and holds that entry |
| Keyboard.Keyboard.RememberCommand | kernel/keyboard.c:110-120 | the ring drops its oldest command for the newest |
| Keyboard.Keyboard.ReplaceLine | kernel/keyboard.c:103-108 | the buffer holds exactly the line, terminated, cursor at its end |
| Keyboard.Keyboard.HistoryUp | kernel/keyboard.c:122-133 | the newest command when none is shown, else the one before, the oldest at the end of the list; the user's line is saved first |
| Keyboard.Keyboard.HistoryDown | kernel/keyboard.c:135-146 | one entry forward, or back to the user's line |
| LineEditor.NewLineIsEmpty | kernel/keyboard.c:183-190 | a new line is empty, and what is remembered stays |
| Keyboard.Keyboard.BeginNewLine | kernel/keyboard.c:183-190 | the line buffer starts afresh as specified |
| Keyboard.Keyboard.Handle | kernel/keyboard.c:192-250 | the handler refines the editor on every scancode |

## Left out

- The events of kernel/memory.c outside userdemo: the memory model returns each verdict instead of the journal
  entry about it, and the journal model takes those of start-up as start-up operations.
- Timestamps of events (the timer is not modelled), and the serial mirror of the journal.
- VGA output and the agreement of the screen with the edited line; printing is modelled as the lines printed.
- Interrupt and port handling, the ISR stubs, CR3 and CR2 as registers, TLB effects, accessed and dirty bits,
  CR0.WP and reserved-bit faults: a translation is what the table words say.
- memory_map_user_page, which edits the bootstrap tables and has no caller.
- boot/boot.asm, boot/stage2.asm and kernel/multiboot_entry.asm, which the Makefile does not build.
- Execution of user code: what userdemo finds (processes, free pages, the code page) and what its program does
  (its system calls in order, and the page fault that ends it) are a parameter, which every theorem ranges over;
  a program that never faults never returns to the prompt.
- The system-call trap without an active process, and faults that are not the active process's.
- Contents of text files and what is printed: cat and ls record the same events whatever they print.
- Handing the line buffer over: keyboard.dfy fills its own, command_line.dfy cuts its own, and the next line
  starts afresh.
- Wrap-around of the 64-bit sequence and revision counters, which would take 2^64 events.
- Isolation.StepIsolates: operations never free a table frame nor overwrite one as data, as nothing in the repository does.
- History.RevisionsRiseExactly: not for labels of exactly 47 digits, which longer numbers share and object_find
  may match by id; History.RecordRises covers them one record at a time.
- Isolation.MapIsExact: only for address spaces that were created, since its caller passes no other CR3.
- Ledger.TransactionsAgreeWithLog: for callers that keep to the discipline stated by Ledger.Disciplined;
  Reachability.EveryJournalIsReachable shows that the modelled kernel does.
- Shell.Shell.Turn: not for userdemo, whose memory side UserMemory.ProcessTable runs; sequence numbers below 2^64.
- ProcessRuns.UserPagesArePrivate: for callers that free no table and no page open to user mode, write no table as
  data, and map pages through the process operations only, as everything in the repository does.
- Boot.StartReachesPrompt: at most 52 journal operations before config_init, so that the registry has room for the
  keys, and operations of the other initialisers that name no key and no transaction, as all of theirs do.
- DemoTranscripts.DemoLeaves: the events of a userdemo that stops before its program runs are those of
  Commands.DemoWork, and are not listed apart.
- TransactionObjects.ObjectsShowTransactions: for runs of fewer than 2^64 events, as sequence numbers have 64 bits.
- PolicyText.PolicyReadsBack: the printed form ends every line with a newline and separates fields by one space;
  PolicyText.FourWords takes any spacing, one line at a time.
