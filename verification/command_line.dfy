/** The line buffer of the shell, cut into words in place, and the names built from it in 48-byte buffers. */
module CommandLine {
  import opened Text
  import opened EventRing
  import opened Ledger
  import opened Kernel
  import opened Commands
  import J = Journal
  import P = Policy

  /** There is a text at this place of the buffer. */
  predicate Ends(line: seq<char>, at: nat) { at < |line| && NulAt(line, at) < |line| }

  predicate EndsAt(line: seq<char>, at: Option<nat>) { at.Some? ==> Ends(line, at.value) }

  function TextAt(line: seq<char>, at: Option<nat>): Option<string>
    requires EndsAt(line, at)
  {
    match at case None => None case Some(i) => Some(TextFrom(line, i))
  }

  /** What split_command leaves: the first word at its place, and the rest of the text, if any, after it. */
  ghost predicate Cuts(before: seq<char>, after: seq<char>, start: nat, rest: Option<nat>)
    requires Ends(before, start)
  {
    && |after| == |before| && after[..start] == before[..start]
    && Ends(after, start) && EndsAt(after, rest)
    && (TextFrom(after, start), TextAt(after, rest)) == Split(TextFrom(before, start))
    && (rest.Some? ==> NulAt(after, start) < rest.value)
  }

  /** A text that ends before the place where a buffer changes stays as it was. */
  lemma KeptText(before: seq<char>, after: seq<char>, at: nat, start: nat)
    requires |after| == |before| && start <= |before| && after[..start] == before[..start]
    requires at < start && NulAt(before, at) < start
    ensures NulAt(after, at) == NulAt(before, at) && TextFrom(after, at) == TextFrom(before, at)
  {
    var n := NulAt(before, at);
    forall i | 0 <= i < start
      ensures after[i] == before[i]
    {
      assert after[i] == after[..start][i] && before[i] == before[..start][i];
    }
    NulAtIs(after, at, n);
    assert after[at..n] == before[at..n];
  }

  /** The word ends at the end of the text: nothing is cut. */
  lemma OneWord(line: seq<char>, start: nat)
    requires Ends(line, start)
    requires forall i :: start <= i < NulAt(line, start) ==> line[i] != ' '
    ensures Cuts(line, line, start, None)
  {
    var text := TextFrom(line, start);
    WordLengthIs(text, |text|);
    assert text[..|text|] == text && text[|text|..] == "";
  }

  lemma {:induction false} SkippedSpaces(text: string, from: nat, to: nat)
    requires from <= to <= |text| && forall i :: from <= i < to ==> text[i] == ' '
    requires to < |text| ==> text[to] != ' '
    ensures SkipSpaces(text[from..]) == text[to..]
    decreases |text| - from
  {
    if from < to {
      assert text[from..][1..] == text[from + 1..];
      SkippedSpaces(text, from + 1, to);
    }
  }

  /** A text cut at place i ends there, and a text after it stays. */
  lemma CutWord(line: seq<char>, start: nat, i: nat)
    requires Ends(line, start) && start <= i < NulAt(line, start)
    ensures var after := line[i := '\0'];
            && after[..start] == line[..start]
            && NulAt(after, start) == i && TextFrom(after, start) == TextFrom(line, start)[..i - start]
  {
    var after := line[i := '\0'];
    NulAtIs(after, start, i);
    SameSlice(line, after, start, i);
    SliceOfSlice(line, start, i, NulAt(line, start));
    assert after[..start] == line[..start];
  }

  lemma KeptRest(line: seq<char>, start: nat, i: nat, m: nat)
    requires Ends(line, start) && start <= i < m < NulAt(line, start)
    ensures var after := line[i := '\0']; Ends(after, m) && TextFrom(after, m) == TextFrom(line, start)[m - start..]
  {
    var after := line[i := '\0'];
    NulAtIs(after, m, NulAt(line, start));
    SameSlice(line, after, m, NulAt(line, start));
    SliceOfSlice(line, start, m, NulAt(line, start));
  }

  lemma SplitAt(text: string, word: nat, rest: nat)
    requires word < rest <= |text|
    requires (forall j :: 0 <= j < word ==> text[j] != ' ') && (forall j :: word <= j < rest ==> text[j] == ' ')
    requires rest < |text| ==> text[rest] != ' '
    ensures Split(text) == (text[..word], if rest < |text| then Some(text[rest..]) else None)
  {
    WordLengthIs(text, word);
    SkippedSpaces(text, word, rest);
  }

  /** The word ends at space i, which is cut; the spaces after it reach up to m. */
  lemma TwoWords(line: seq<char>, start: nat, i: nat, m: nat)
    requires Ends(line, start) && start <= i < m <= NulAt(line, start)
    requires (forall j :: start <= j < i ==> line[j] != ' ') && (forall j :: i <= j < m ==> line[j] == ' ')
    requires m < NulAt(line, start) ==> line[m] != ' '
    ensures Cuts(line, line[i := '\0'], start, if m < NulAt(line, start) then Some(m) else None)
  {
    var text := TextFrom(line, start);
    assert forall j :: 0 <= j < |text| ==> text[j] == line[start + j];
    CutWord(line, start, i);
    SplitAt(text, i - start, m - start);
    hide NulAt, TextFrom, Split;
    if m < NulAt(line, start) {
      KeptRest(line, start, i, m);
    }
  }

  /** split_command: the space after the first word becomes its NUL, and the spaces that follow are skipped. */
  method SplitCommand(line: array<char>, start: nat) returns (rest: Option<nat>)
    requires Ends(line[..], start)
    modifies line
    ensures Cuts(old(line[..]), line[..], start, rest)
  {
    ghost var before := line[..];
    ghost var n := NulAt(before, start);
    var i := start;
    while line[i] != '\0' && line[i] != ' '
      invariant start <= i <= n && line[..] == before
      invariant forall j :: start <= j < i ==> before[j] != ' '
      decreases n - i
    {
      i := i + 1;
    }
    if line[i] == '\0' {
      OneWord(before, start);
      return None;
    }
    line[i] := '\0';
    var m := i + 1;
    while line[m] == ' '
      invariant i < m <= n && line[..] == before[i := '\0']
      invariant forall j :: i <= j < m ==> before[j] == ' '
      decreases n - m
    {
      m := m + 1;
    }
    TwoWords(before, start, i, m);
    return if line[m] == '\0' then None else Some(m);
  }

  /** The argument of the policy command, cut word by word in place. */
  method SplitRequest(line: array<char>, argument: Option<nat>) returns (r: Request)
    requires EndsAt(line[..], argument)
    modifies line
    ensures r == ParseRequest(old(TextAt(line[..], argument)))
    ensures r.Show? <==>
            argument.Some? && var text := old(TextFrom(line[..], argument.value)); text == "show" || "show " <= text
    ensures r.Change? ==>
              && argument.Some?
              && (if r.allow then "allow " else "deny ") <= old(TextFrom(line[..], argument.value))
  {
    hide Split, NulAt;
    if argument == None {
      return Malformed;
    }
    RequestVerb(TextFrom(line[..], argument.value));
    var rest := SplitCommand(line, argument.value);
    var verb := TextFrom(line[..], argument.value);
    if verb == "show" {
      return Request.Show;
    }
    if (verb != "allow" && verb != "deny") || rest == None {
      return Malformed;
    }
    var operation := SplitCommand(line, rest.value);
    if operation == None {
      return Malformed;
    }
    ghost var before := line[..];
    var object_ := SplitCommand(line, operation.value);
    if object_ == None {
      return Malformed;
    }
    KeptText(before, line[..], rest.value, operation.value);
    return Change(verb == "allow", TextFrom(line[..], rest.value), TextFrom(line[..], operation.value),
                  TextFrom(line[..], object_.value));
  }

  lemma {:induction false} WordIsLonger(s: string, n: nat)
    requires n <= |s| && forall i :: 0 <= i < n ==> s[i] != ' '
    ensures WordLength(s) >= n
  {
    if n > 0 {
      WordIsLonger(s[1..], n - 1);
    }
  }

  /** Where copy_first_token stops: at the end of the word, or when its buffer is full. */
  lemma FirstTokenIs(line: seq<char>, at: nat, i: nat)
    requires Ends(line, at) && i <= LABEL && at + i <= NulAt(line, at)
    requires forall j :: at <= j < at + i ==> line[j] != ' '
    requires i == LABEL || line[at + i] == '\0' || line[at + i] == ' '
    ensures line[at..at + i] == Cut(Split(TextFrom(line, at)).0, LABEL)
  {
    var text := TextFrom(line, at);
    WordIsLonger(text, i);
    if i < LABEL {
      WordLengthIs(text, i);
    }
    assert line[at..at + i] == text[..i];
  }

  /** copy_first_token */
  method CopyFirstToken(line: array<char>, at: nat) returns (token: string)
    requires Ends(line[..], at)
    ensures token == Cut(Split(TextFrom(line[..], at)).0, LABEL)
  {
    hide NulAt, TextFrom, Split, Cut;
    var buffer := new char[LABEL + 1](_ => '\0');
    ghost var n := NulAt(line[..], at);
    var i := 0;
    while i < LABEL && line[at + i] != '\0' && line[at + i] != ' '
      invariant i <= LABEL && at + i <= n
      invariant forall j :: 0 <= j < i ==> buffer[j] == line[at + j]
      invariant forall j :: at <= j < at + i ==> line[j] != ' '
    {
      buffer[i] := line[at + i];
      i := i + 1;
    }
    buffer[i] := '\0';
    FirstTokenIs(line[..], at, i);
    token := buffer[..i];
    assert token == line[..][at..at + i];
  }

  /** The transaction's target, built in its 48-byte buffer from the line already cut. */
  method BuildTarget(line: array<char>, argument: Option<nat>) returns (target: string)
    requires Ends(line[..], 0) && EndsAt(line[..], argument)
    ensures target == TargetOf(TextFrom(line[..], 0), TextAt(line[..], argument))
  {
    hide NulAt, Split, TransactionName;
    var word := TextFrom(line[..], 0);
    var text := if argument.Some? then TextFrom(line[..], argument.value) else word;
    if word == "set" && argument.Some? {
      target := CopyFirstToken(line, argument.value);
    } else if word == "policy" {
      assert |POLICY_OBJECT| <= LABEL;
      target := CopyText(POLICY_OBJECT, LABEL);
    } else if word == "userdemo" {
      assert |"scheduler"| <= LABEL;
      target := CopyText("scheduler", LABEL);
    } else if word == "why" && argument.Some? && "tx " <= text {
      var id := ParseNumber(text[3..], U64);
      target := J.Journal.NameTransaction(id);
    } else {
      target := CopyText(text, LABEL);
    }
  }

  /** copy_user_string: a byte at a time into a 48-byte buffer, never beyond the code page. */
  method CopyUserString(page: array<char>, address: nat) returns (text: Option<string>)
    requires page.Length == USER_PAGE
    ensures text == UserString(page[..], address)
  {
    if address < USER_CODE || address >= USER_CODE + USER_PAGE {
      return None;
    }
    var start := address - USER_CODE;
    ghost var s := page[..];
    var buffer := new char[NAME + 1](_ => '\0');
    var i := 0;
    while i < NAME && start + i < USER_PAGE
      invariant i <= NAME && start + i <= USER_PAGE
      invariant forall j :: start <= j < start + i ==> buffer[j - start] == s[j] != '\0'
    {
      buffer[i] := page[start + i];
      if buffer[i] == '\0' {
        NulAtIs(s, start, start + i);
        assert buffer[..i] == s[start..start + i];
        return Some(buffer[..i]);
      }
      i := i + 1;
    }
    NoNulBefore(s, start, start + i);
    return None;
  }

  lemma {:induction false} NoNulBefore(s: seq<char>, from: nat, to: nat)
    requires from <= to <= |s| && forall i :: from <= i < to ==> s[i] != '\0'
    ensures NulAt(s, from) >= to
    decreases |s| - from
  {
    if from < to {
      NoNulBefore(s, from + 1, to);
    }
  }

  // ---------------------------------------------------------------- names

  /** build_name: "thread/" or "address_space/" and the process id. */
  method BuildName(prefix: string, id: nat) returns (name: string)
    requires id < U32
    ensures name == Cut(prefix + Decimal(id), NAME)
  {
    var buffer := new TextBuffer(NAME + 1);
    assert "" + prefix == prefix;
    buffer.AppendText(prefix);
    CutTwice(prefix, Decimal(id), NAME);
    buffer.AppendDecimal(id, 10);
    name := buffer.data[..buffer.position];
  }

  /** build_capability_name: six appends to a 48-byte buffer. */
  method BuildCapabilityName(subject: string, operation: string, object_: string) returns (name: string)
    ensures name == CapabilityName(subject, operation, object_)
  {
    hide Cut;
    var buffer := new TextBuffer(P.FIELD + 1);
    assert "" + "capability/" == "capability/";
    buffer.AppendText("capability/");
    CutTwice("capability/", subject, P.FIELD);
    buffer.AppendText(subject);
    CutTwice("capability/" + subject, "/", P.FIELD);
    buffer.AppendText("/");
    CutTwice("capability/" + subject + "/", operation, P.FIELD);
    buffer.AppendText(operation);
    CutTwice("capability/" + subject + "/" + operation, "/", P.FIELD);
    buffer.AppendText("/");
    CutTwice("capability/" + subject + "/" + operation + "/", object_, P.FIELD);
    buffer.AppendText(object_);
    name := buffer.data[..buffer.position];
  }

  /** build_capability_state */
  method BuildCapabilityState(allow: bool, number: nat, revision: nat) returns (state: string)
    requires number < U32 && revision < U32
    ensures state == CapabilityState(allow, number, revision)
  {
    hide Cut, Decimal;
    var verb := if allow then "allow rule " else "deny rule ";
    var buffer := new TextBuffer(P.FIELD + 1);
    assert "" + verb == verb;
    buffer.AppendText(verb);
    CutTwice(verb, Decimal(number), P.FIELD);
    buffer.AppendDecimal(number, 10);
    CutTwice(verb + Decimal(number), " rev ", P.FIELD);
    buffer.AppendText(" rev ");
    CutTwice(verb + Decimal(number) + " rev ", Decimal(revision), P.FIELD);
    buffer.AppendDecimal(revision, 10);
    state := buffer.data[..buffer.position];
  }
}
