/** The static state of kernel/policy.c and the loops that parse, search and extend the rule list. */
module PolicyStore {
  import opened Text
  import opened Policy
  import opened PolicyText

  class Store {
    var rules: seq<Rule>
    var revision: nat

    ghost function State(): Rules
      reads this
    {
      Rules(rules, revision)
    }

    constructor ()
      ensures State() == Rules([], 0)
    {
      rules, revision := [], 0;
    }

    static method SkipSpaces(text: string, pos: nat) returns (end: nat)
      requires pos <= |text|
      ensures pos <= end <= |text| && text[end..] == SkipBlanks(text[pos..])
    {
      end := pos;
      while end < |text| && (text[end] == ' ' || text[end] == '\t')
        invariant pos <= end <= |text| && SkipBlanks(text[end..]) == SkipBlanks(text[pos..])
      {
        assert text[end..][1..] == text[end + 1..];
        end := end + 1;
      }
    }

    /** read_token: at most `size` characters are kept, the whole token is passed over. */
    static method ScanToken(text: string, pos: nat, size: nat) returns (token: string, end: nat)
      requires pos <= |text|
      ensures pos <= end <= |text| && (token, text[end..]) == ReadToken(text[pos..], size)
    {
      hide Cut, SkipBlanks, TokenLength;
      var start := SkipSpaces(text, pos);
      assert text[start..start] == "" && Cut("", size) == "";
      end, token := start, "";
      while end < |text| && text[end] != ' ' && text[end] != '\t' && text[end] != '\r' && text[end] != '\n'
        invariant start <= end <= |text|
        invariant forall i :: start <= i < end ==> !EndsToken(text[i])
        invariant token == Cut(text[start..end], size)
      {
        CutPush(text, start, end, size);
        if |token| < size {
          token := token + [text[end]];
        }
        end := end + 1;
      }
      TokenLengthIs(text[start..], end - start);
      SliceOfRest(text, start, end);
    }

    method ParseRule(line: string, pos: nat)
      requires pos <= |line|
      modifies this`rules
      ensures State() == ParseRuleLine(old(State()), line[pos..])
    {
      hide ReadToken;
      var effect, at1 := ScanToken(line, pos, EFFECT);
      var subject, at2 := ScanToken(line, at1, FIELD);
      var operation, at3 := ScanToken(line, at2, FIELD);
      var object_, _ := ScanToken(line, at3, FIELD);
      if (effect != "allow" && effect != "deny") || subject == "" || operation == "" || object_ == "" ||
         |rules| >= MAX_RULES {
        return;
      }
      rules := rules + [Rule(effect == "allow", |rules| + 1, subject, operation, object_)];
    }

    method ParseOneLine(line: string)
      modifies this`rules, this`revision
      ensures State() == ParseLine(old(State()), line)
    {
      hide ParseRuleLine;
      assert line[0..] == line;
      var start := SkipSpaces(line, 0);
      if start == |line| {
        return;
      }
      if line[start] == '#' {
        if REVISION_PREFIX <= line[start..] {
          var n, _ := ScanDigits(line[start..][|REVISION_PREFIX|..], U32);
          revision := n;
        }
        return;
      }
      ParseRule(line, start);
    }

    /** The first line at `pos` as the 160-byte line buffer holds it, and where the next line starts. */
    static method TakeLine(source: string, pos: nat) returns (line: string, next: nat)
      requires pos < |source|
      ensures pos < next <= |source|
      ensures line == Cut(source[pos..][..LineLength(source[pos..])], LINE)
      ensures source[next..] == AfterLine(source[pos..])
    {
      hide Cut, LineLength;
      line, next := "", pos;
      assert source[pos..pos] == "" && Cut("", LINE) == "";
      while next < |source| && source[next] != '\n'
        invariant pos <= next <= |source|
        invariant forall i :: pos <= i < next ==> source[i] != '\n'
        invariant line == Cut(source[pos..next], LINE)
      {
        CutPush(source, pos, next, LINE);
        if |line| < LINE {
          line := line + [source[next]];
        }
        next := next + 1;
      }
      LineLengthIs(source[pos..], next - pos);
      SliceOfRest(source, pos, next);
      if next < |source| {
        SliceOfRest(source, pos, next + 1);
        next := next + 1;
      }
    }

    /** policy_parse */
    method ParseSource(source: string)
      modifies this`rules, this`revision
      ensures State() == Parse(source)
    {
      hide ParseLine, AfterLine, LineLength;
      rules, revision := [], 0;
      var pos := 0;
      assert source[0..] == source;
      while pos < |source|
        invariant pos <= |source|
        invariant ParseLines(State(), source[pos..]) == ParseLines(Rules([], 0), source)
      {
        ParseFirstLine(State(), source[pos..]);
        var line, next := TakeLine(source, pos);
        ParseOneLine(line);
        pos := next;
      }
      if revision == 0 {
        revision := 1;
      }
    }

    /** format_decision into its 48-byte buffer. */
    method FormatDecision(allowed: bool, operation: string, number: nat) returns (reason: string)
      requires revision < U32 && number < U32
      ensures reason == Reason(allowed, operation, revision, number)
    {
      hide Cut, Decimal;
      var b := new TextBuffer(REASON + 1);
      ghost var t0 := if allowed then "allow:" else "deny:";
      assert "" + t0 == t0;
      b.AppendText(if allowed then "allow:" else "deny:");
      ghost var t1 := t0 + operation;
      CutTwice(t0, operation, REASON);
      b.AppendText(operation);
      ghost var t2 := t1 + ",rev=";
      CutTwice(t1, ",rev=", REASON);
      b.AppendText(",rev=");
      ghost var t3 := t2 + Decimal(revision);
      CutTwice(t2, Decimal(revision), REASON);
      b.AppendDecimal(revision, 10);
      ghost var t4 := t3 + ",rule=";
      CutTwice(t3, ",rule=", REASON);
      b.AppendText(",rule=");
      CutTwice(t4, Decimal(number), REASON);
      b.AppendDecimal(number, 10);
      reason := b.data[..b.position];
    }

    /** The search of policy_check: every rule is looked at, and each that applies overrides. */
    method Check(actor: string, target: string, operation: string) returns (v: Verdict)
      requires revision < U32
      requires forall i {:trigger rules[i]} :: 0 <= i < |rules| ==> rules[i].number < U32
      ensures v == Decide(State(), actor, target, operation)
    {
      hide Reason, Applies;
      var reason := FormatDecision(false, "policy-default", 0);
      v := Verdict(false, 0, reason);
      for i := 0 to |rules|
        invariant v == DecideAmong(State(), i, actor, target, operation)
      {
        if Applies(rules[i], actor, target, operation) {
          reason := FormatDecision(rules[i].allow, operation, rules[i].number);
          v := Verdict(rules[i].allow, rules[i].number, reason);
        }
      }
    }

    /** policy_change_rule, without the objects and events it leaves.  `loaded` is the policy as it was loaded,
        n the number of rules added since. */
    method Change(allow: bool, subject: string, operation: string, object_: string, ghost loaded: Rules, ghost n: nat)
      returns (ok: bool)
      requires Grown(loaded, State(), n)
      modifies this
      ensures (State(), ok) == ChangeRule(old(State()), allow, subject, operation, object_)
      ensures ok <==> old(|rules|) < MAX_RULES
      ensures Grown(loaded, State(), if ok then n + 1 else n)
      ensures forall actor, target, requested ::
                DecidesItsOwn(old(State()), State(), ok, NextRule(old(rules), allow, subject, operation, object_),
                              actor, target, requested)
    {
      hide DecidesItsOwn, Cut, Grown;
      GrownSize(loaded, State(), n);
      if |rules| < MAX_RULES {
        AddGrows(loaded, State(), n, allow, subject, operation, object_);
      }
      AllDecided(State(), allow, subject, operation, object_);
      if |rules| >= MAX_RULES {
        return false;
      }
      revision := (revision + 1) % U32;
      var s := CopyText(subject, FIELD);
      var o := CopyText(operation, FIELD);
      var t := CopyText(object_, FIELD);
      rules := rules + [Rule(allow, |rules| + 1, s, o, t)];
      return true;
    }
  }

  lemma AllDecided(p: Rules, allow: bool, subject: string, operation: string, object_: string)
    requires Numbered(p.list)
    ensures var (p', ok) := ChangeRule(p, allow, subject, operation, object_);
            forall actor, target, requested ::
              DecidesItsOwn(p, p', ok, NextRule(p.list, allow, subject, operation, object_), actor, target, requested)
  {
    forall actor: string, target: string, requested: string {:trigger Decide(p, actor, target, requested)}
      ensures var (p', ok) := ChangeRule(p, allow, subject, operation, object_);
              DecidesItsOwn(p, p', ok, NextRule(p.list, allow, subject, operation, object_), actor, target, requested)
    {
      ChangeDecidesItsOwnRequests(p, allow, subject, operation, object_, actor, target, requested);
    }
  }
}
