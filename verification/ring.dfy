/** The event record and the 128-slot ring that keeps the newest of them. */
module EventRing {

  const EVENT_CAPACITY := 128

  datatype Option<T> = None | Some(value: T)

  datatype EventResult = Ok | Denied | Fault

  datatype Event = Event(sequence: nat, parent: nat, tx: nat, actorId: nat, targetId: nat, targetRevision: nat,
                         kind: string, actor: string, target: string, operation: string, decision: string,
                         result: EventResult)

  /** Record i of the unbounded log has sequence i + 1. */
  predicate Numbered(log: seq<Event>) {
    forall i {:trigger log[i]} :: 0 <= i < |log| ==> log[i].sequence == i + 1
  }

  function Count(log: seq<Event>): nat {
    if |log| <= EVENT_CAPACITY then |log| else EVENT_CAPACITY
  }

  /** The newest records, oldest first. */
  function Window(log: seq<Event>): (w: seq<Event>)
    ensures |w| == Count(log)
  {
    log[|log| - Count(log)..]
  }

  lemma WindowSequence(log: seq<Event>, i: nat)
    requires Numbered(log) && i < Count(log)
    ensures Window(log)[i] == log[|log| - Count(log) + i]
    ensures Window(log)[i].sequence == |log| - Count(log) + i + 1
  {
  }

  /** The record with this sequence, when it is still retained. */
  function FindIn(log: seq<Event>, sequence: nat): Option<Event> {
    if |log| - Count(log) < sequence <= |log| then Some(log[sequence - 1]) else None
  }

  lemma WindowPush(log: seq<Event>, e: Event, i: nat)
    requires i < Count(log + [e])
    ensures Window(log + [e])[i] ==
            if i == Count(log + [e]) - 1 then e
            else Window(log)[if Count(log) == EVENT_CAPACITY then i + 1 else i]
  {
  }

  /** The slot of entry i when the oldest entry is in slot `first`. */
  function SlotOf(first: nat, i: nat): (slot: nat)
    ensures slot < EVENT_CAPACITY
  {
    (first + i) % EVENT_CAPACITY
  }

  /** The slot written goes to the newest entry, and the others keep theirs. */
  lemma SlotsAfterPush(first: nat, count: nat, i: nat)
    requires first < EVENT_CAPACITY && count <= EVENT_CAPACITY && (count < EVENT_CAPACITY ==> first == 0)
    requires i < (if count < EVENT_CAPACITY then count + 1 else count)
    ensures var full := count == EVENT_CAPACITY;
            var slot := if full then first else SlotOf(first, count);
            var first' := if full then SlotOf(first, 1) else first;
            var count' := if full then count else count + 1;
            if i == count' - 1 then SlotOf(first', i) == slot
            else SlotOf(first', i) != slot && SlotOf(first', i) == SlotOf(first, if full then i + 1 else i)
  {
  }

  class Ring {
    const entries: array<Event>
    var first: nat
    var count: nat
    ghost var log: seq<Event>         // every record ever made

    ghost predicate Valid()
      reads this, entries
    {
      && entries.Length == EVENT_CAPACITY
      && first < EVENT_CAPACITY
      && count == Count(log)
      && (count < EVENT_CAPACITY ==> first == 0)
      && forall i :: 0 <= i < count ==> entries[SlotOf(first, i)] == Window(log)[i]
    }

    constructor ()
      ensures Valid() && fresh(entries) && log == []
    {
      entries := new Event[EVENT_CAPACITY](_ => Event(0, 0, 0, 0, 0, 0, "", "", "", "", "", Ok));
      first, count, log := 0, 0, [];
    }

    /** The slot arithmetic of event_record_kind. */
    method Push(e: Event)
      requires Valid()
      modifies this, entries
      ensures Valid() && log == old(log) + [e]
    {
      var slot := SlotOf(first, count);
      if count == EVENT_CAPACITY {
        slot := first;
        first := SlotOf(first, 1);
      } else {
        count := count + 1;
      }
      entries[slot] := e;
      log := log + [e];
      hide SlotOf, Window;
      forall i | 0 <= i < count
        ensures entries[SlotOf(first, i)] == Window(log)[i]
      {
        SlotsAfterPush(old(first), old(count), i);
        WindowPush(old(log), e, i);
      }
    }

    /** event_at */
    method At(index: nat) returns (e: Option<Event>)
      requires Valid()
      ensures e == if index < Count(log) then Some(Window(log)[index]) else None
    {
      if index < count {
        return Some(entries[SlotOf(first, index)]);
      }
      return None;
    }

    /** event_find */
    method Find(sequence: nat) returns (e: Option<Event>)
      requires Valid() && Numbered(log)
      ensures e == FindIn(log, sequence)
    {
      ghost var evicted := |log| - Count(log);
      for i := 0 to count
        invariant !(evicted < sequence <= evicted + i)
      {
        WindowSequence(log, i);
        var event := At(i);
        if event.Some? && event.value.sequence == sequence {
          return event;
        }
      }
      return None;
    }

    /** event_print_chain, as the lines it prints. */
    method PrintChain(sequence: nat) returns (lines: seq<Line>)
      requires Valid() && Numbered(log) && Causal(log)
      ensures lines == Chain(log, sequence)
      decreases sequence
    {
      var event := Find(sequence);
      if event == None {
        return [Missing(sequence)];
      }
      lines := [];
      if event.value.parent != 0 {
        lines := PrintChain(event.value.parent);
      }
      lines := lines + [Printed(event.value)];
    }
  }

  // ---------------------------------------------------------------- causes

  /** Every record's cause was recorded before it. */
  predicate Causal(log: seq<Event>) {
    forall i {:trigger log[i]} :: 0 <= i < |log| ==> log[i].parent <= i
  }

  datatype Line = Missing(sequence: nat) | Printed(event: Event)

  function SequenceOf(l: Line): nat {
    match l
    case Missing(s) => s
    case Printed(e) => e.sequence
  }

  /** The retained causes of a record, oldest first, after a note of the first one lost, if any. */
  function Chain(log: seq<Event>, sequence: nat): (lines: seq<Line>)
    requires Numbered(log) && Causal(log)
    ensures |lines| > 0
    decreases sequence
  {
    match FindIn(log, sequence)
    case None => [Missing(sequence)]
    case Some(e) => (if e.parent != 0 then Chain(log, e.parent) else []) + [Printed(e)]
  }

  /** The chain ends at the record asked for, its sequences strictly increase, each line is the cause
      of the next, and only the first line can be a lost record. */
  lemma {:induction false} ChainIsCausal(log: seq<Event>, sequence: nat)
    requires Numbered(log) && Causal(log)
    ensures var lines := Chain(log, sequence);
            && SequenceOf(lines[|lines| - 1]) == sequence
            && (forall i, j :: 0 <= i < j < |lines| ==> SequenceOf(lines[i]) < SequenceOf(lines[j]))
            && (forall i :: 0 < i < |lines| ==>
                  lines[i].Printed? && lines[i].event.parent == SequenceOf(lines[i - 1]))
            && (lines[0].Printed? ==> lines[0].event.parent == 0)
            && (forall i :: 0 <= i < |lines| && lines[i].Printed? ==>
                  FindIn(log, lines[i].event.sequence) == Some(lines[i].event))
    decreases sequence
  {
    var found := FindIn(log, sequence);
    if found.Some? && found.value.parent != 0 {
      ChainIsCausal(log, found.value.parent);
    }
  }

  /** a is a cause of s, at one or more steps, in the log as it would be without eviction. */
  predicate IsCause(log: seq<Event>, a: nat, s: nat)
    requires Causal(log)
    decreases s
  {
    && 0 < s <= |log|
    && a != 0
    && (log[s - 1].parent == a || IsCause(log, a, log[s - 1].parent))
  }

  lemma {:induction false} CausesAreEarlier(log: seq<Event>, a: nat, s: nat)
    requires Causal(log) && IsCause(log, a, s)
    ensures 0 < a < s
    decreases s
  {
    if log[s - 1].parent != a {
      CausesAreEarlier(log, a, log[s - 1].parent);
    }
  }

  /** Once one cause has been evicted, no earlier cause is still retained. */
  lemma EvictedCausesStayHidden(log: seq<Event>, a: nat, b: nat)
    requires Causal(log) && IsCause(log, a, b)
    requires FindIn(log, b) == None
    ensures FindIn(log, a) == None
  {
    CausesAreEarlier(log, a, b);
  }

  /** Every cause of a record is printed with it unless it has been evicted. */
  lemma {:induction false} ChainIsComplete(log: seq<Event>, sequence: nat, a: nat)
    requires Numbered(log) && Causal(log) && IsCause(log, a, sequence)
    requires FindIn(log, a).Some?
    ensures Printed(log[a - 1]) in Chain(log, sequence)
    decreases sequence
  {
    CausesAreEarlier(log, a, sequence);
    var parent := log[sequence - 1].parent;
    if parent != a {
      ChainIsComplete(log, parent, a);
      assert Printed(log[a - 1]) in Chain(log, parent);
    } else {
      assert Chain(log, a)[|Chain(log, a)| - 1] == Printed(log[a - 1]);
    }
  }

  /** A record, once made, is found unchanged for as long as it is retained: its sequence is its place
      in the log, and the log only grows. */
  lemma RetainedRecordsNeverChange(log: seq<Event>, later: seq<Event>, sequence: nat)
    requires log <= later && 0 < sequence <= |log|
    ensures FindIn(later, sequence) == (if |later| - sequence < EVENT_CAPACITY then Some(log[sequence - 1]) else None)
  {
  }
}
