/** The rule list of kernel/policy.c: last match wins, default deny; its text form and its parser. */
module Policy {
  import opened Text

  const MAX_RULES := 64
  const FIELD := 47                   // POLICY_FIELD_SIZE - 1
  const REASON := 47                  // POLICY_DECISION_SIZE - 1
  const EFFECT := 7
  const LINE := 159

  datatype Rule = Rule(allow: bool, number: nat, subject: string, operation: string, object_: string)

  datatype Rules = Rules(list: seq<Rule>, revision: nat)

  // ---------------------------------------------------------------- decisions

  predicate FieldMatches(field: string, value: string) { field == "*" || field == value }

  predicate Applies(r: Rule, actor: string, target: string, operation: string) {
    FieldMatches(r.subject, actor) && FieldMatches(r.operation, operation) && FieldMatches(r.object_, target)
  }

  /** The newest of the first n rules that applies, as its place plus one; 0 when none does. */
  function Newest(list: seq<Rule>, n: nat, actor: string, target: string, operation: string): (k: nat)
    requires n <= |list|
    ensures k <= n
    ensures k > 0 ==> Applies(list[k - 1], actor, target, operation)
    ensures forall j :: k <= j < n ==> !Applies(list[j], actor, target, operation)
  {
    if n == 0 then 0
    else if Applies(list[n - 1], actor, target, operation) then n
    else Newest(list, n - 1, actor, target, operation)
  }

  datatype Verdict = Verdict(allowed: bool, number: nat, reason: string)

  /** Text of a decision, before it is cut to its buffer. */
  function ReasonText(allowed: bool, operation: string, revision: nat, number: nat): string {
    (if allowed then "allow:" else "deny:") + operation + ",rev=" + Decimal(revision) + ",rule=" + Decimal(number)
  }

  function Reason(allowed: bool, operation: string, revision: nat, number: nat): string {
    Cut(ReasonText(allowed, operation, revision, number), REASON)
  }

  /** What policy_check decides: the newest applicable rule, or deny. */
  function Decide(p: Rules, actor: string, target: string, operation: string): Verdict {
    DecideAmong(p, |p.list|, actor, target, operation)
  }

  /** ... by the first n rules only. */
  function DecideAmong(p: Rules, n: nat, actor: string, target: string, operation: string): Verdict
    requires n <= |p.list|
  {
    var k := Newest(p.list, n, actor, target, operation);
    if k == 0 then Verdict(false, 0, Reason(false, "policy-default", p.revision, 0))
    else
      var r := p.list[k - 1];
      Verdict(r.allow, r.number, Reason(r.allow, operation, p.revision, r.number))
  }

  /** The next rule of a list, its fields cut to their buffers. */
  function NextRule(list: seq<Rule>, allow: bool, subject: string, operation: string, object_: string): Rule {
    Rule(allow, |list| + 1, Cut(subject, FIELD), Cut(operation, FIELD), Cut(object_, FIELD))
  }

  function AddRule(p: Rules, allow: bool, subject: string, operation: string, object_: string): Rules {
    Rules(p.list + [NextRule(p.list, allow, subject, operation, object_)], (p.revision + 1) % U32)
  }

  /** policy_change_rule: refused only when the list is full. */
  function ChangeRule(p: Rules, allow: bool, subject: string, operation: string, object_: string): (Rules, bool) {
    if |p.list| >= MAX_RULES then (p, false) else (AddRule(p, allow, subject, operation, object_), true)
  }

  predicate Numbered(list: seq<Rule>) { forall i {:trigger list[i]} :: 0 <= i < |list| ==> list[i].number == i + 1 }

  /** What loading leaves behind and changes keep. */
  predicate WellFormed(p: Rules) { Numbered(p.list) && |p.list| <= MAX_RULES && p.revision < U32 }

  lemma {:induction false} NewestPrefix(list: seq<Rule>, r: Rule, n: nat, actor: string, target: string,
                                        operation: string)
    requires n <= |list|
    ensures Newest(list + [r], n, actor, target, operation) == Newest(list, n, actor, target, operation)
  {
    if n > 0 {
      NewestPrefix(list, r, n - 1, actor, target, operation);
    }
  }

  /** A rule is about a request when each of its fields is "*" or is what the request says there. */
  predicate RuleIsAbout(r: Rule, actor: string, target: string, operation: string) {
    && (r.subject == "*" || r.subject == actor)
    && (r.operation == "*" || r.operation == operation)
    && (r.object_ == "*" || r.object_ == target)
  }

  lemma AppliesWhenAbout()
    ensures forall r: Rule, actor: string, target: string, operation: string
              {:trigger Applies(r, actor, target, operation)} {:trigger RuleIsAbout(r, actor, target, operation)} ::
              Applies(r, actor, target, operation) == RuleIsAbout(r, actor, target, operation)
  {
  }

  /** From p to p' an accepted rule decides exactly the requests it applies to, its own way, and leaves the
      decision on this request as it was otherwise; nothing changes when it is refused. */
  predicate DecidesItsOwn(p: Rules, p': Rules, ok: bool, rule: Rule, actor: string, target: string, requested: string) {
    var before, after := Decide(p, actor, target, requested), Decide(p', actor, target, requested);
    && (!ok ==> after == before)
    && (ok && RuleIsAbout(rule, actor, target, requested) ==>
          after.allowed == rule.allow && after.number == rule.number)
    && (ok && !RuleIsAbout(rule, actor, target, requested) ==>
          after.allowed == before.allowed && after.number == before.number)
  }

  /** An accepted change decides every request that the new rule applies to, its own way, and leaves
      the decision on every other request as it was; a refused one changes nothing. */
  lemma ChangeDecidesItsOwnRequests(p: Rules, allow: bool, subject: string, operation: string, object_: string,
                                    actor: string, target: string, requested: string)
    requires Numbered(p.list)
    ensures var (p', ok) := ChangeRule(p, allow, subject, operation, object_);
            && Numbered(p'.list)
            && (ok <==> |p.list| < MAX_RULES)
            && (!ok ==> p' == p)
            && DecidesItsOwn(p, p', ok, NextRule(p.list, allow, subject, operation, object_), actor, target, requested)
  {
    AppliesWhenAbout();
    hide Reason, Applies, RuleIsAbout, Cut, Newest;
    var rule := NextRule(p.list, allow, subject, operation, object_);
    NewestPush(p.list, rule, actor, target, requested);
    OlderRule(p.list, rule, actor, target, requested);
  }

  /** The newest applicable rule once one more has been added: that one, if it applies. */
  lemma NewestPush(list: seq<Rule>, r: Rule, actor: string, target: string, operation: string)
    ensures Newest(list + [r], |list| + 1, actor, target, operation) ==
            if Applies(r, actor, target, operation) then |list| + 1 else Newest(list, |list|, actor, target, operation)
  {
    NewestPrefix(list, r, |list|, actor, target, operation);
  }

  lemma OlderRule(list: seq<Rule>, r: Rule, actor: string, target: string, operation: string)
    ensures var k := Newest(list, |list|, actor, target, operation);
            (list + [r])[|list|] == r && (k > 0 ==> (list + [r])[k - 1] == list[k - 1])
  {
    hide Newest, Applies;
  }

  /** The decision on a request is the newest applicable rule's: allowed exactly when some allow rule applies
      and no later rule does, under that rule's number; denied under number 0 when no rule applies. */
  predicate NewestDecides(p: Rules, actor: string, target: string, operation: string) {
    var v := Decide(p, actor, target, operation);
    && (v.allowed <==> exists i :: 0 <= i < |p.list| && p.list[i].allow
                         && RuleIsAbout(p.list[i], actor, target, operation)
                         && forall j :: i < j < |p.list| ==> !RuleIsAbout(p.list[j], actor, target, operation))
    && (v.number == 0 <==> forall j :: 0 <= j < |p.list| ==> !RuleIsAbout(p.list[j], actor, target, operation))
    && (v.number != 0 ==> v.number <= |p.list| && p.list[v.number - 1].allow == v.allowed
                          && RuleIsAbout(p.list[v.number - 1], actor, target, operation)
                          && forall j :: v.number <= j < |p.list| ==> !RuleIsAbout(p.list[j], actor, target, operation))
    && v.reason == Cut((if v.allowed then "allow:" else "deny:") +
                       (if v.number == 0 then "policy-default" else operation) +
                       ",rev=" + Decimal(p.revision) + ",rule=" + Decimal(v.number), 47)
  }

  lemma LastMatchWins(p: Rules, actor: string, target: string, operation: string)
    requires Numbered(p.list)
    ensures NewestDecides(p, actor, target, operation)
  {
    AppliesWhenAbout();
    hide Applies, RuleIsAbout, Decimal, Cut;
  }

  datatype Change = Change(allow: bool, subject: string, operation: string, object_: string)

  function ChangeAll(p: Rules, changes: seq<Change>): Rules
    decreases |changes|
  {
    if changes == [] then p
    else ChangeAll(ChangeRule(p, changes[0].allow, changes[0].subject, changes[0].operation, changes[0].object_).0,
                   changes[1..])
  }

  /** p has grown out of `loaded` by n rules: old rules stay, rule i has number i + 1, and the revision is the
      loaded one plus the number of rules added since, in 32-bit arithmetic. */
  predicate Grown(loaded: Rules, p: Rules, n: nat) {
    && WellFormed(p)
    && loaded.list <= p.list && |p.list| == |loaded.list| + n
    && p.revision == (loaded.revision + n) % U32
  }

  lemma AddGrows(loaded: Rules, p: Rules, n: nat, allow: bool, subject: string, operation: string, object_: string)
    requires Grown(loaded, p, n) && |p.list| < MAX_RULES
    ensures Grown(loaded, AddRule(p, allow, subject, operation, object_), n + 1)
  {
    hide Cut;
    OneMore(loaded.revision, n);
  }

  lemma OneMore(revision: nat, n: nat)
    ensures ((revision + n) % U32 + 1) % U32 == (revision + n + 1) % U32
  {
  }

  /** Over any run of changes the rules grow by the changes accepted, which are as many as fit. */
  lemma {:induction false} RevisionCountsChanges(loaded: Rules, p: Rules, n: nat, changes: seq<Change>)
    requires Grown(loaded, p, n)
    ensures Grown(loaded, ChangeAll(p, changes),
                  if |p.list| + |changes| <= MAX_RULES then n + |changes| else MAX_RULES - |loaded.list|)
    decreases |changes|
  {
    hide Grown, AddRule;
    assert Grown(loaded, p, n) ==> |p.list| == |loaded.list| + n <= MAX_RULES by { GrownSize(loaded, p, n); }
    if changes != [] {
      var c := changes[0];
      if |p.list| < MAX_RULES {
        AddGrows(loaded, p, n, c.allow, c.subject, c.operation, c.object_);
        var p1 := AddRule(p, c.allow, c.subject, c.operation, c.object_);
        GrownSize(loaded, p1, n + 1);
        RevisionCountsChanges(loaded, p1, n + 1, changes[1..]);
      } else {
        RevisionCountsChanges(loaded, p, n, changes[1..]);
      }
    }
  }

  lemma GrownSize(loaded: Rules, p: Rules, n: nat)
    requires Grown(loaded, p, n)
    ensures |p.list| == |loaded.list| + n <= MAX_RULES && Numbered(p.list)
  {
  }

  // ---------------------------------------------------------------- decision text

  /** Splitting off the digits at the end of a text is unambiguous. */
  lemma {:induction false} SameDigits(a: string, d: string, b: string, e: string)
    requires a + d == b + e && AllDigits(d) && AllDigits(e)
    requires a != "" && !IsDigit(a[|a| - 1]) && b != "" && !IsDigit(b[|b| - 1])
    ensures a == b && d == e
  {
    var s := a + d;
    assert s[|a| - 1] == a[|a| - 1] && s[|b| - 1] == b[|b| - 1];
    assert forall i :: |a| <= i < |s| ==> s[i] == d[i - |a|];
    assert forall i :: |b| <= i < |s| ==> s[i] == e[i - |b|];
    assert a == s[..|a|] && b == s[..|b|] && d == s[|a|..] && e == s[|b|..];
  }

  lemma DecimalInjective(m: nat, n: nat)
    requires Decimal(m) == Decimal(n)
    ensures m == n
  {
    ValueOfDecimal(m);
    ValueOfDecimal(n);
  }

  lemma StripSuffix(a: string, b: string, t: string)
    requires a + t == b + t
    ensures a == b
  {
    assert a == (a + t)[..|a|] && b == (b + t)[..|b|];
  }

  /** The reason of every decision the kernel makes about an operation of at most 18 characters fits its
      48-byte buffer whole. */
  lemma ReasonFits(allowed: bool, operation: string, revision: nat, number: nat)
    requires |operation| <= 18 && revision < U32 && number <= MAX_RULES
    ensures Reason(allowed, operation, revision, number) == ReasonText(allowed, operation, revision, number)
  {
    Widths();
    DecimalLength(revision, 10);
    DecimalLength(number, 2);
  }

  /** ... and tells effect, operation, revision and rule apart. */
  lemma ReasonsAreDistinct(allowed: bool, operation: string, revision: nat, number: nat,
                           allowed': bool, operation': string, revision': nat, number': nat)
    requires |operation| <= 18 && revision < U32 && number <= MAX_RULES
    requires |operation'| <= 18 && revision' < U32 && number' <= MAX_RULES
    requires Reason(allowed, operation, revision, number) == Reason(allowed', operation', revision', number')
    ensures allowed == allowed' && operation == operation' && revision == revision' && number == number'
  {
    ReasonFits(allowed, operation, revision, number);
    ReasonFits(allowed', operation', revision', number');
    ReasonTextsAreDistinct(allowed, operation, revision, number, allowed', operation', revision', number');
  }

  lemma ReasonTextsAreDistinct(allowed: bool, operation: string, revision: nat, number: nat,
                               allowed': bool, operation': string, revision': nat, number': nat)
    requires ReasonText(allowed, operation, revision, number) == ReasonText(allowed', operation', revision', number')
    ensures allowed == allowed' && operation == operation' && revision == revision' && number == number'
  {
    var head := (if allowed then "allow:" else "deny:") + operation;
    var head' := (if allowed' then "allow:" else "deny:") + operation';
    var upToRev, upToRev' := head + ",rev=", head' + ",rev=";
    SameDigits(upToRev + Decimal(revision) + ",rule=", Decimal(number),
               upToRev' + Decimal(revision') + ",rule=", Decimal(number'));
    DecimalInjective(number, number');
    StripSuffix(upToRev + Decimal(revision), upToRev' + Decimal(revision'), ",rule=");
    SameDigits(upToRev, Decimal(revision), upToRev', Decimal(revision'));
    DecimalInjective(revision, revision');
    StripSuffix(head, head', ",rev=");
    EffectAndOperation(allowed, operation, allowed', operation');
  }

  lemma EffectAndOperation(allowed: bool, operation: string, allowed': bool, operation': string)
    requires (if allowed then "allow:" else "deny:") + operation ==
             (if allowed' then "allow:" else "deny:") + operation'
    ensures allowed == allowed' && operation == operation'
  {
    var effect, effect' := if allowed then "allow:" else "deny:", if allowed' then "allow:" else "deny:";
    assert (effect + operation)[0] == effect[0] && (effect' + operation')[0] == effect'[0];
    assert operation == (effect + operation)[|effect|..] && operation' == (effect' + operation')[|effect'|..];
  }
}
