/** Scripts of steps that only record events, and what they leave in the journal. */
module WorkTranscripts {
  import opened Text
  import opened EventRing
  import opened Ledger
  import opened Kernel
  import opened Transcript
  import C = CallTranscripts
  import S = Scripts

  // ---------------------------------------------------------------- steps that only record

  /** A step that records an event, registers an object or makes another event current. */
  predicate Simple(w: Work) { w.Noted? || w.Registered? || (w.Plain? && (w.op.RecordOp? || w.op.SetCurrentOp?)) }

  predicate AllSimple(work: seq<Work>) { forall w :: w in work ==> Simple(w) }

  function Said(w: Work, current: nat, tx: nat): seq<Entry> {
    match w
    case Noted(actor, target, operation, result, decision, kind) =>
      [Entry(actor, target, operation, result, decision, kind, current, tx)]
    case Plain(RecordOp(actor, target, operation, result, parent, decision, kind)) =>
      [Entry(actor, target, operation, result, decision, kind, parent, tx)]
    case _ => []
  }

  function Now(w: Work, current: nat): nat { if w.Plain? && w.op.SetCurrentOp? then w.op.sequence else current }

  function SaidAll(work: seq<Work>, current: nat, tx: nat): seq<Entry>
    decreases |work|
  {
    if work == [] then [] else Said(work[0], current, tx) + SaidAll(work[1..], Now(work[0], current), tx)
  }

  function NowAll(work: seq<Work>, current: nat): nat
    decreases |work|
  {
    if work == [] then current else NowAll(work[1..], Now(work[0], current))
  }

  lemma StepLeaves(k: Kernel, w: Work)
    requires Simple(w)
    ensures var k' := DoWork(k, w);
            && Leaves(k.l, k'.l, Said(w, k.l.current, k.l.tx))
            && k'.l.current == Now(w, k.l.current) && k'.l.tx == k.l.tx && k'.p == k.p && k'.config == k.config
            && |k'.l.txs| == |k.l.txs|
  {
    hide Leaves, Register, Record;
    match w
    case Noted(actor, target, operation, result, decision, kind) =>
      RecordLeaves(k.l, actor, target, operation, result, k.l.current, decision, kind);
      RecordKeepsAll(k.l, actor, target, operation, result, k.l.current, decision, kind);
    case Plain(op) =>
      if op.RecordOp? {
        RecordLeaves(k.l, op.actor, op.target, op.operation, op.result, op.parent, op.decision, op.kind);
        RecordKeepsAll(k.l, op.actor, op.target, op.operation, op.result, op.parent, op.decision, op.kind);
      } else {
        LeavesNothing(k.l, DoWork(k, w).l);
      }
    case Registered(kind, name, parent, state) =>
      S.RegisterKeepsJournal(k.l, kind, name, ObjectId(k.l.objects, parent), state, k.l.current);
      LeavesNothing(k.l, DoWork(k, w).l);
  }

  lemma RecordKeepsAll(l: Ledger, actor: string, target: string, operation: string, result: EventResult,
                       parent: nat, decision: string, kind: string)
    ensures var l' := Record(l, actor, target, operation, result, parent, decision, kind);
            l'.current == l.current && l'.tx == l.tx && |l'.txs| == |l.txs|
  {
    hide Found, Touch, Cut;
  }

  lemma {:induction false} StepsLeave(k: Kernel, work: seq<Work>)
    requires AllSimple(work)
    ensures var k' := DoAllWork(k, work);
            && Leaves(k.l, k'.l, SaidAll(work, k.l.current, k.l.tx))
            && k'.l.current == NowAll(work, k.l.current) && k'.l.tx == k.l.tx && k'.p == k.p && k'.config == k.config
            && |k'.l.txs| == |k.l.txs|
    decreases |work|
  {
    hide Leaves, DoWork, Said, Now, Simple;
    if work == [] {
      LeavesNothing(k.l, k.l);
    } else {
      assert work[0] in work;
      StepLeaves(k, work[0]);
      var k1 := DoWork(k, work[0]);
      StepsLeave(k1, work[1..]);
      Together(k.l, k1.l, DoAllWork(k1, work[1..]).l, Said(work[0], k.l.current, k.l.tx),
               SaidAll(work[1..], k1.l.current, k.l.tx));
    }
  }

  lemma {:induction false} SaidAppend(a: seq<Work>, b: seq<Work>, current: nat, tx: nat)
    ensures SaidAll(a + b, current, tx) == SaidAll(a, current, tx) + SaidAll(b, NowAll(a, current), tx)
    ensures NowAll(a + b, current) == NowAll(b, NowAll(a, current))
    decreases |a|
  {
    hide Said, Now;
    if a == [] {
      assert a + b == b;
    } else {
      assert (a + b)[1..] == a[1..] + b;
      SaidAppend(a[1..], b, Now(a[0], current), tx);
    }
  }

  /** Steps that leave the current event as it is say their own events. */
  lemma SaidOne(w: Work, current: nat, tx: nat)
    ensures SaidAll([w], current, tx) == Said(w, current, tx) && NowAll([w], current) == Now(w, current)
  {
    assert [w][1..] == [];
    hide Said, Now;
  }

  lemma SaidTwo(a: Work, b: Work, current: nat, tx: nat)
    ensures SaidAll([a, b], current, tx) == Said(a, current, tx) + Said(b, Now(a, current), tx)
    ensures NowAll([a, b], current) == Now(b, Now(a, current))
  {
    assert [a, b] == [a] + [b];
    SaidAppend([a], [b], current, tx);
    SaidOne(a, current, tx);
    SaidOne(b, Now(a, current), tx);
    hide Said, Now, SaidAll, NowAll;
  }

  lemma SaidThree(a: Work, b: Work, c: Work, current: nat, tx: nat)
    ensures SaidAll([a, b, c], current, tx) ==
            Said(a, current, tx) + Said(b, Now(a, current), tx) + Said(c, Now(b, Now(a, current)), tx)
    ensures NowAll([a, b, c], current) == Now(c, Now(b, Now(a, current)))
  {
    assert [a, b, c] == [a, b] + [c];
    SaidAppend([a, b], [c], current, tx);
    SaidTwo(a, b, current, tx);
    SaidOne(c, Now(b, Now(a, current)), tx);
    hide Said, Now, SaidAll, NowAll;
  }

  // ---------------------------------------------------------------- one script after another

  /** Steps that say these events and make no other event current. */
  predicate Says(work: seq<Work>, current: nat, tx: nat, entries: seq<Entry>) {
    SaidAll(work, current, tx) == entries && NowAll(work, current) == current && AllSimple(work)
  }

  lemma SaysBoth(a: seq<Work>, b: seq<Work>, current: nat, tx: nat, x: seq<Entry>, y: seq<Entry>)
    requires Says(a, current, tx, x) && Says(b, current, tx, y)
    ensures Says(a + b, current, tx, x + y)
  {
    SaidAppend(a, b, current, tx);
    hide SaidAll, NowAll, Simple;
  }

  lemma PairSays(a: Work, b: Work, current: nat, tx: nat)
    requires Simple(a) && Simple(b) && Now(a, current) == current && Now(b, current) == current
    ensures Says([a, b], current, tx, Said(a, current, tx) + Said(b, current, tx))
  {
    SaidTwo(a, b, current, tx);
    hide Said, Now, Simple;
  }

  lemma OneSays(a: Work, current: nat, tx: nat)
    requires Simple(a) && Now(a, current) == current
    ensures Says([a], current, tx, Said(a, current, tx))
  {
    SaidOne(a, current, tx);
    hide Said, Now, Simple;
  }

  lemma FiveSay(w1: seq<Work>, w2: seq<Work>, w3: seq<Work>, w4: seq<Work>, w5: seq<Work>, current: nat, tx: nat,
                e1: seq<Entry>, e2: seq<Entry>, e3: seq<Entry>, e4: seq<Entry>, e5: seq<Entry>)
    requires Says(w1, current, tx, e1) && Says(w2, current, tx, e2) && Says(w3, current, tx, e3)
    requires Says(w4, current, tx, e4) && Says(w5, current, tx, e5)
    ensures Says(w1 + w2 + w3 + w4 + w5, current, tx, e1 + e2 + e3 + e4 + e5)
  {
    hide Says;
    SaysBoth(w1, w2, current, tx, e1, e2);
    SaysBoth(w1 + w2, w3, current, tx, e1 + e2, e3);
    SaysBoth(w1 + w2 + w3, w4, current, tx, e1 + e2 + e3, e4);
    SaysBoth(w1 + w2 + w3 + w4, w5, current, tx, e1 + e2 + e3 + e4, e5);
  }

  /** A script of simple steps, by what it says. */
  lemma SaidIsLeft(k: Kernel, work: seq<Work>, entries: seq<Entry>)
    requires Says(work, k.l.current, k.l.tx, entries)
    ensures var k' := DoAllWork(k, work);
            && Leaves(k.l, k'.l, entries) && |k'.l.log| == |k.l.log| + |entries|
            && k'.l.current == k.l.current && k'.l.tx == k.l.tx && k'.p == k.p && k'.config == k.config
            && |k'.l.txs| == |k.l.txs|
  {
    hide SaidAll, NowAll, DoAllWork, Leaves;
    StepsLeave(k, work);
    C.LeavesLength(k.l, DoAllWork(k, work).l, entries);
  }

  lemma TwoParts(k: Kernel, a: seq<Work>, b: seq<Work>, x: seq<Entry>, y: seq<Entry>)
    requires var k1 := DoAllWork(k, a); Leaves(k.l, k1.l, x) && Leaves(k1.l, DoAllWork(k1, b).l, y)
    ensures Leaves(k.l, DoAllWork(k, a + b).l, x + y)
  {
    hide Leaves, DoAllWork;
    var k1 := DoAllWork(k, a);
    DoAllAppend(k, a, b);
    Together(k.l, k1.l, DoAllWork(k1, b).l, x, y);
  }

  lemma {:induction false} FirstPartOk(k: Kernel, a: seq<Work>, b: seq<Work>)
    requires S.AllWorkOk(k, a + b)
    ensures S.AllWorkOk(k, a)
    decreases |a|
  {
    hide S.WorkOk, DoWork;
    if a != [] {
      assert (a + b)[1..] == a[1..] + b;
      FirstPartOk(DoWork(k, a[0]), a[1..], b);
    }
  }
}
