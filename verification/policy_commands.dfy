/** What a line typed at the prompt does to the policy. */
module PolicyCommands {
  import opened Text
  import opened EventRing
  import opened Ledger
  import opened History
  import opened Kernel
  import opened Commands
  import opened Closure
  import opened Prompts
  import O = TransactionObjects
  import P = Policy
  import S = Scripts

  /** The words of a request to change the policy, and the spaces between them. */
  datatype Words = Words(n0: nat, verb: string, n1: nat, subject: string, n2: nat, operation: string, n3: nat,
                         object_: string)

  predicate IsWord(s: string) { s != "" && ' ' !in s }

  /** Each field is a word, but the last, which may hold spaces further on. */
  predicate WordsOk(w: Words) {
    && w.n0 >= 1 && w.n1 >= 1 && w.n2 >= 1 && w.n3 >= 1
    && IsWord(w.verb) && IsWord(w.subject) && IsWord(w.operation) && w.object_ != "" && w.object_[0] != ' '
  }

  function Third(w: Words): string { w.operation + Spaces(w.n3) + w.object_ }

  function Second(w: Words): string { w.subject + Spaces(w.n2) + Third(w) }

  function First(w: Words): string { w.verb + Spaces(w.n1) + Second(w) }

  /** policy, verb, subject, operation, object. */
  function ChangeLine(w: Words): string { "policy" + Spaces(w.n0) + First(w) }

  lemma StartsWithWord(word: string, rest: string)
    requires IsWord(word)
    ensures word + rest != "" && (word + rest)[0] != ' '
  {
  }

  lemma RequestOfWords(w: Words)
    requires WordsOk(w)
    ensures ParseRequest(Some(First(w))) ==
            if w.verb == "show" then Show
            else if w.verb == "allow" || w.verb == "deny" then
              Change(w.verb == "allow", w.subject, w.operation, w.object_)
            else Malformed
  {
    SplitIs(w.operation, w.n3, w.object_);
    StartsWithWord(w.operation, Spaces(w.n3) + w.object_);
    assert Third(w) == w.operation + (Spaces(w.n3) + w.object_);
    SplitIs(w.subject, w.n2, Third(w));
    StartsWithWord(w.subject, Spaces(w.n2) + Third(w));
    assert Second(w) == w.subject + (Spaces(w.n2) + Third(w));
    SplitIs(w.verb, w.n1, Second(w));
    hide Split, Spaces, Third, Second;
  }

  lemma DispatchOfWords(w: Words, demo: Demo)
    requires WordsOk(w)
    ensures Dispatch(ChangeLine(w), demo) == PolicyCommand(Some(First(w)))
  {
    StartsWithWord(w.verb, Spaces(w.n1) + Second(w));
    assert First(w) == w.verb + (Spaces(w.n1) + Second(w));
    SplitIs("policy", w.n0, First(w));
    hide Split, Spaces, First, Second, TransactionTarget;
  }

  lemma NotEmpty(rest: string, word: string, n: nat, last: string)
    requires rest == word + Spaces(n) + last && n >= 1 && rest[0] != ' ' && ' ' !in word
    ensures IsWord(word)
  {
  }

  /** Every request to change the policy is spelled like that. */
  lemma WordsOfRequest(argument: string) returns (w: Words)
    requires ParseRequest(Some(argument)).Change?
    ensures w.n0 == 1 && WordsOk(w) && First(w) == argument && (w.verb == "allow" || w.verb == "deny")
  {
    var n1 := SplitMeans(argument);
    var (verb, rest) := Split(argument);
    var n2 := SplitMeans(rest.value);
    var (subject, rest2) := Split(rest.value);
    var n3 := SplitMeans(rest2.value);
    var (operation, rest3) := Split(rest2.value);
    w := Words(1, verb, n1, subject, n2, operation, n3, rest3.value);
    hide Split, Spaces;
    NotEmpty(rest.value, subject, n2, rest2.value);
    NotEmpty(rest2.value, operation, n3, rest3.value);
  }

  /** And every line that asks for a change. */
  lemma WordsOfLine(line: string, demo: Demo) returns (w: Words)
    requires var c := Dispatch(line, demo); c.PolicyCommand? && ParseRequest(c.request).Change?
    ensures WordsOk(w) && ChangeLine(w) == line && (w.verb == "allow" || w.verb == "deny")
  {
    hide ParseRequest, TransactionTarget;
    var n0 := SplitMeans(line);
    var (word, argument) := Split(line);
    PolicyWord(line, demo);
    hide Split, Spaces, First, Dispatch;
    assert argument.Some? by { NoRequest(); }
    w := WordsOfRequest(argument.value);
    var first := First(w);
    w := w.(n0 := n0);
    SameFirst(w, n0);
  }

  lemma SameFirst(w: Words, n0: nat)
    ensures First(w.(n0 := n0)) == First(w)
  {
  }

  lemma NoRequest()
    ensures !ParseRequest(None).Change?
  {
  }

  lemma PolicyWord(line: string, demo: Demo)
    requires Dispatch(line, demo).PolicyCommand?
    ensures Split(line).0 == "policy" && Dispatch(line, demo).request == Split(line).1
  {
    hide Split, TransactionTarget;
  }

  // ---------------------------------------------------------------- what it leaves

  /** The shell may change the policy, and there is room for a rule. */
  predicate MayChange(p: P.Rules) {
    P.Decide(p, "shell", "policy/base.policy", "policy:change").allowed && |p.list| < 64
  }

  /** The rule that is added, its fields cut to 47 characters. */
  function NewRule(p: P.Rules, w: Words): P.Rule {
    P.Rule(w.verb == "allow", |p.list| + 1, Cut(w.subject, 47), Cut(w.operation, 47), Cut(w.object_, 47))
  }

  /** A request that the rule is about is decided by it, every other as before. */
  predicate DecidesFrom(p: P.Rules, p': P.Rules, r: P.Rule, actor: string, target: string, operation: string) {
    var before, now := P.Decide(p, actor, target, operation), P.Decide(p', actor, target, operation);
    if (r.subject == "*" || r.subject == actor) && (r.operation == "*" || r.operation == operation) &&
       (r.object_ == "*" || r.object_ == target)
    then now.allowed == r.allow && now.number == r.number
    else now.allowed == before.allowed && now.number == before.number
  }

  lemma NewestRuleDecides(p: P.Rules, r: P.Rule, revision: nat, actor: string, target: string, operation: string)
    ensures DecidesFrom(p, P.Rules(p.list + [r], revision), r, actor, target, operation)
  {
    P.NewestPush(p.list, r, actor, target, operation);
    P.OlderRule(p.list, r, actor, target, operation);
    P.AppliesWhenAbout();
    hide P.Applies, P.Newest, P.Reason;
  }

  lemma RulesAfterChange(k: Kernel, w: Words)
    requires WordsOk(w) && (w.verb == "allow" || w.verb == "deny") && MayChange(k.p)
    ensures RulesAfter(k, PolicyCommand(Some(First(w)))) ==
            P.Rules(k.p.list + [NewRule(k.p, w)], (k.p.revision + 1) % 0x1_0000_0000)
  {
    RequestOfWords(w);
    hide ParseRequest, P.Decide, First, WordsOk, Cut;
  }

  /** `policy allow s o t` and `policy deny s o t`, where they are accepted, add that rule, and from then on
      every request that it is about is allowed, or denied, by it. */
  lemma ChangeAddsRule(k: Kernel, w: Words, demo: Demo, boot: nat)
    requires AtPrompt(k, boot) && boot <= |k.l.log|
    requires WordsOk(w) && (w.verb == "allow" || w.verb == "deny") && MayChange(k.p)
    ensures var p' := RunCommand(k, ChangeLine(w), demo, boot).p;
            && p' == P.Rules(k.p.list + [NewRule(k.p, w)], (k.p.revision + 1) % 0x1_0000_0000)
            && forall actor, target, operation ::
                 DecidesFrom(k.p, p', NewRule(k.p, w), actor, target, operation)
  {
    hide AtPrompt, RunCommand, Enter, Ended, Succeeds, RulesAfter, Dispatch, P.Decide, First, ChangeLine, WordsOk,
         NewRule, DecidesFrom, MayChange, ConfigAfter;
    DispatchOfWords(w, demo);
    RulesAfterChange(k, w);
    CommandReturnsToPrompt(k, ChangeLine(w), demo, boot);
    var p' := RunCommand(k, ChangeLine(w), demo, boot).p;
    forall actor: string, target: string, operation: string
      ensures DecidesFrom(k.p, p', NewRule(k.p, w), actor, target, operation)
    {
      NewestRuleDecides(k.p, NewRule(k.p, w), p'.revision, actor, target, operation);
    }
  }

  /** Whatever the line, the rules change exactly when it is such a request and is accepted. */
  lemma RulesChangeExactly(k: Kernel, line: string, demo: Demo, boot: nat)
    requires AtPrompt(k, boot) && boot <= |k.l.log|
    ensures RunCommand(k, line, demo, boot).p != k.p <==>
              && MayChange(k.p)
              && exists w :: WordsOk(w) && (w.verb == "allow" || w.verb == "deny") && ChangeLine(w) == line
  {
    hide AtPrompt, RunCommand, Enter, Ended, Succeeds, ParseRequest, Dispatch, P.Decide, ChangeLine, WordsOk;
    CommandReturnsToPrompt(k, line, demo, boot);
    if RunCommand(k, line, demo, boot).p != k.p {
      var w := WordsOfLine(line, demo);
    }
    if MayChange(k.p) {
      if w :| WordsOk(w) && (w.verb == "allow" || w.verb == "deny") && ChangeLine(w) == line {
        ChangeAddsRule(k, w, demo, boot);
      }
    }
  }

  // ---------------------------------------------------------------- the capability object

  /** The name of the capability that a rule grants or takes away. */
  function CapabilityOf(r: P.Rule): string {
    Cut("capability/" + r.subject + "/" + r.operation + "/" + r.object_, 47)
  }

  /** The object of a rule that is added at a revision, under the policy's object. */
  function CapabilityObject(r: P.Rule, revision: nat, id: nat, policy: nat, event: nat): KObject {
    KObject(id, policy, 1, event, event, "capability", CapabilityOf(r),
            Cut((if r.allow then "allow rule " else "deny rule ") + Decimal(r.number) + " rev " + Decimal(revision),
                47))
  }

  lemma CapabilityAdded(l: Ledger, r: P.Rule, revision: nat, parentId: nat)
    requires ObjectsOk(l.objects) && |l.objects| < 128 && !O.HasObject(l.objects, CapabilityOf(r))
    ensures RegisterCapability(l, r, revision, parentId) ==
            l.(objects := l.objects + [CapabilityObject(r, revision, |l.objects| + 1, parentId, l.current)])
  {
    var name := CapabilityOf(r);
    assert name[0] == 'c' && !IsDigit('c');
    assert ParseWhole(name, U32) == 0;
    hide CapabilityOf, Decimal;
    assert CapabilityName(r.subject, r.operation, r.object_) == name by { SameCapability(r); }
    var i := FindObject(l.objects, name, 0);
    assert i == |l.objects|;
    assert Cut(name, LABEL) == name;
  }

  lemma SameCapability(r: P.Rule)
    ensures CapabilityName(r.subject, r.operation, r.object_) == CapabilityOf(r) && |CapabilityOf(r)| <= 47
  {
  }

  /** The state of the policy's object after a change. */
  function Added(allow: bool): string { if allow then "allow-added" else "deny-added" }

  lemma RecordOnly(l: Ledger, verb: string, reason: string)
    ensures var l2 := Record(l, "policy", POLICY_OBJECT, verb, Ok, l.current, reason, "state");
            l2.objects == l.objects && |l2.log| == |l.log| + 1
  {
    hide Revision, ObjectId, Touch, Cut;
  }

  lemma AfterRegistering(l: Ledger, l1: Ledger, verb: string, reason: string, state: string, i: nat)
    requires ObjectsOk(l1.objects) && l1.log == l.log
    requires i < |l1.objects| && l1.objects[i].name == POLICY_OBJECT && Cut(state, 47) == state
    requires !AllDigits(POLICY_OBJECT)
    ensures var l2 := Record(l1, "policy", POLICY_OBJECT, verb, Ok, l1.current, reason, "state");
            UpdateState(l2, POLICY_OBJECT, state).objects ==
            l1.objects[i := l1.objects[i].(state := state, revision := l1.objects[i].revision + 1,
                                           lastEvent := |l.log| + 2)]
  {
    RecordOnly(l1, verb, reason);
    hide Record, UpdateState, ObjectsOk, Cut, AllDigits, POLICY_OBJECT;
    O.UpdateIs(Record(l1, "policy", POLICY_OBJECT, verb, Ok, l1.current, reason, "state"), POLICY_OBJECT, state, i);
  }

  /** policy_change_rule by its steps. */
  lemma ChangeSteps(k: Kernel, allow: bool, subject: string, operation: string, object_: string, r: P.Rule)
    returns (l1: Ledger, verb: string, reason: string)
    requires |k.p.list| < 64
    requires r == P.Rule(allow, |k.p.list| + 1, Cut(subject, 47), Cut(operation, 47), Cut(object_, 47))
    ensures l1 == RegisterCapability(k.l, r, (k.p.revision + 1) % 0x1_0000_0000, ObjectId(k.l.objects, POLICY_OBJECT))
    ensures ChangePolicy(k, allow, subject, operation, object_).0.l ==
            UpdateState(Record(l1, "policy", POLICY_OBJECT, verb, Ok, l1.current, reason, "state"), POLICY_OBJECT,
                        Added(allow))
  {
    hide RegisterCapability, Record, UpdateState, ObjectId, Cut, P.Reason;
    var revision := (k.p.revision + 1) % 0x1_0000_0000;
    l1 := RegisterCapability(k.l, r, revision, ObjectId(k.l.objects, POLICY_OBJECT));
    verb := if allow then "allow" else "deny";
    reason := P.Reason(true, if allow then "policy:allow" else "policy:deny", revision, |k.p.list| + 1);
  }

  lemma PolicyAt(objects: seq<KObject>, i: nat)
    requires ObjectsOk(objects) && i < |objects| && objects[i].name == POLICY_OBJECT
    ensures ObjectId(objects, POLICY_OBJECT) == i + 1
  {
    assert POLICY_OBJECT[0] == 'p' && !IsDigit('p');
    O.FoundAt(objects, POLICY_OBJECT, i);
  }

  lemma StillOk(l: Ledger, r: P.Rule, revision: nat, parentId: nat)
    requires ObjectsOk(l.objects) && parentId <= |l.objects|
    ensures ObjectsOk(RegisterCapability(l, r, revision, parentId).objects)
  {
    SameCapability(r);
    hide ObjectsOk, Register, CapabilityName, CapabilityState;
    RegisterObjects(l, "capability", CapabilityName(r.subject, r.operation, r.object_), parentId,
                    CapabilityState(r.allow, r.number, revision), l.current);
  }

  /** An accepted change registers the rule's capability, while there is room and none of that name, and moves
      the policy's object on. */
  lemma ChangeRegisters(k: Kernel, allow: bool, subject: string, operation: string, object_: string, r: P.Rule, i: nat)
    requires ObjectsOk(k.l.objects) && |k.l.objects| < 128 && |k.p.list| < 64
    requires i < |k.l.objects| && k.l.objects[i].name == POLICY_OBJECT
    requires r == P.Rule(allow, |k.p.list| + 1, Cut(subject, 47), Cut(operation, 47), Cut(object_, 47))
    requires !O.HasObject(k.l.objects, CapabilityOf(r))
    ensures var revision := (k.p.revision + 1) % 0x1_0000_0000;
            var capability := CapabilityObject(r, revision, |k.l.objects| + 1, i + 1, k.l.current);
            var policy := k.l.objects[i].(state := Added(allow), revision := k.l.objects[i].revision + 1,
                                          lastEvent := |k.l.log| + 2);
            ChangePolicy(k, allow, subject, operation, object_).0.l.objects == (k.l.objects + [capability])[i := policy]
  {
    hide CapabilityOf, Decimal, RegisterCapability, UpdateState, Record, ObjectId, P.Reason, ChangePolicy, ObjectsOk,
         Cut, O.HasObject, Added, AllDigits, POLICY_OBJECT, CapabilityObject;
    var revision := (k.p.revision + 1) % 0x1_0000_0000;
    PolicyAt(k.l.objects, i);
    CapabilityAdded(k.l, r, revision, i + 1);
    StillOk(k.l, r, revision, i + 1);
    StatesFit(allow);
    var l1, verb, reason := ChangeSteps(k, allow, subject, operation, object_, r);
    AfterRegistering(k.l, l1, verb, reason, Added(allow), i);
  }

  lemma StatesFit(allow: bool)
    ensures Cut(Added(allow), 47) == Added(allow)
    ensures POLICY_OBJECT == "policy/base.policy" && !AllDigits(POLICY_OBJECT)
  {
    assert POLICY_OBJECT[0] == 'p' && !IsDigit('p');
  }
}
