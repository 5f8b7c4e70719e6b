/** The demo as the journal sees it and as memory sees it. */
module DemoAgreement {
  import opened EventRing
  import opened Allocation
  import opened Kernel
  import Paging
  import C = Commands
  import P = Policy
  import Pr = Processes
  import R = RamFs
  import Runs = ProcessRuns

  /** load_executable finds an executable file of at most one page under this path. */
  predicate IsProgram(path: string) {
    match R.Lookup(path)
    case None => false
    case Some(file) => file.kind == R.ExecutableFile && file.size <= USER_PAGE
  }

  lemma HelloIsProgram()
    ensures IsProgram(C.HELLO)
  {
    hide R.README, R.ABOUT, R.MEMORY;
    assert R.FILES[3].path == C.HELLO;
    assert R.FILES[0].path != C.HELLO && R.FILES[1].path != C.HELLO && R.FILES[2].path != C.HELLO;
    assert R.LookupFrom(C.HELLO, 3) == Some(R.FILES[3]);
    assert R.LookupFrom(C.HELLO, 2) == R.LookupFrom(C.HELLO, 3);
    assert R.LookupFrom(C.HELLO, 1) == R.LookupFrom(C.HELLO, 2);
  }

  /** What a userdemo finds in memory. */
  function DemoIn(s: Pr.System, page: Page, calls: seq<C.UserCall>, probed: bool): C.Demo {
    C.Demo(|s.processes|, s.m.pages.ready, |FreePages(s.m.pages)|, page, calls, probed)
  }

  /** The journal says that the demo's program runs exactly when the pages for it can be set up. */
  lemma DemoRunsWhenSetUp(s: Pr.System, p: P.Rules, page: Page, calls: seq<C.UserCall>, probed: bool,
                          image: Paging.Table, contents: Paging.Table)
    requires Pr.SystemOk(s)
    ensures C.DemoRuns(p, DemoIn(s, page, calls, probed)) <==>
            Runs.DemoSetUp(s, C.LoadVerdict(p).allowed, IsProgram(C.HELLO), image, contents).1
  {
    HelloIsProgram();
    Runs.DemoSucceedsExactly(s, C.LoadVerdict(p).allowed, IsProgram(C.HELLO), image, contents);
    hide Pr.SystemOk, Runs.DemoSetUp, FreePages, P.Decide, IsProgram;
  }
}
