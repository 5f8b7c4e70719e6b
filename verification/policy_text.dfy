/** The policy file format: policy_parse, and the canonical form it reads back. */
module PolicyText {
  import opened Text
  import opened Policy

  const REVISION_PREFIX := "# GlassOS policy revision "

  predicate IsBlank(c: char) { c == ' ' || c == '\t' }

  predicate EndsToken(c: char) { c == ' ' || c == '\t' || c == '\r' || c == '\n' }

  function SkipBlanks(s: string): string {
    if s != "" && IsBlank(s[0]) then SkipBlanks(s[1..]) else s
  }

  /** How many characters the next token has. */
  function TokenLength(s: string): (n: nat)
    ensures n <= |s|
    ensures forall i :: 0 <= i < n ==> !EndsToken(s[i])
    ensures n < |s| ==> EndsToken(s[n])
  {
    if s == "" || EndsToken(s[0]) then 0 else 1 + TokenLength(s[1..])
  }

  /** The next token, cut to its buffer, and the text after the whole token. */
  function ReadToken(s: string, size: nat): (string, string) {
    var t := SkipBlanks(s);
    (Cut(t[..TokenLength(t)], size), t[TokenLength(t)..])
  }

  function ParseRuleLine(p: Rules, line: string): Rules {
    var (effect, rest1) := ReadToken(line, EFFECT);
    var (subject, rest2) := ReadToken(rest1, FIELD);
    var (operation, rest3) := ReadToken(rest2, FIELD);
    var (object_, _) := ReadToken(rest3, FIELD);
    if (effect != "allow" && effect != "deny") || subject == "" || operation == "" || object_ == "" ||
       |p.list| >= MAX_RULES
    then p
    else p.(list := p.list + [Rule(effect == "allow", |p.list| + 1, subject, operation, object_)])
  }

  function ParseLine(p: Rules, line: string): Rules {
    var trimmed := SkipBlanks(line);
    if trimmed == "" then p
    else if trimmed[0] == '#' then
      if REVISION_PREFIX <= trimmed then p.(revision := ParsePrefix(trimmed[|REVISION_PREFIX|..], U32)) else p
    else ParseRuleLine(p, trimmed)
  }

  /** The length of the first line, without its newline. */
  function LineLength(s: string): (n: nat)
    ensures n <= |s|
    ensures forall i :: 0 <= i < n ==> s[i] != '\n'
    ensures n < |s| ==> s[n] == '\n'
  {
    if s == "" || s[0] == '\n' then 0 else 1 + LineLength(s[1..])
  }

  function AfterLine(s: string): string {
    if LineLength(s) < |s| then s[LineLength(s) + 1..] else ""
  }

  function ParseLines(p: Rules, source: string): Rules
    decreases |source|
  {
    if source == "" then p else ParseLines(ParseLine(p, Cut(source[..LineLength(source)], LINE)), AfterLine(source))
  }

  function Parse(source: string): Rules {
    var p := ParseLines(Rules([], 0), source);
    if p.revision == 0 then p.(revision := 1) else p
  }

  lemma LineKeepsForm(p: Rules, line: string)
    requires WellFormed(p)
    ensures WellFormed(ParseLine(p, line))
  {
    hide ReadToken, SkipBlanks;
  }

  lemma {:induction false} LinesKeepForm(p: Rules, source: string)
    requires WellFormed(p)
    ensures WellFormed(ParseLines(p, source))
    decreases |source|
  {
    hide ParseLine, WellFormed, LineLength, Cut;
    if source != "" {
      var p1 := ParseLine(p, Cut(source[..LineLength(source)], LINE));
      LineKeepsForm(p, Cut(source[..LineLength(source)], LINE));
      LinesKeepForm(p1, AfterLine(source));
    }
  }

  /** Whatever the policy text, the rules loaded from it are at most 64, rule i has number i + 1, and the
      revision is at least 1 and fits 32 bits. */
  lemma ParsedIsWellFormed(source: string)
    ensures WellFormed(Parse(source)) && Parse(source).revision >= 1
    ensures Grown(Parse(source), Parse(source), 0)
  {
    hide ParseLines, ParseLine;
    LinesKeepForm(Rules([], 0), source);
  }

  // ---------------------------------------------------------------- the canonical form

  /** A field that the parser reads back whole. */
  predicate IsField(s: string) { 1 <= |s| <= FIELD && forall i :: 0 <= i < |s| ==> !EndsToken(s[i]) }

  predicate Printable(r: Rule) { IsField(r.subject) && IsField(r.operation) && IsField(r.object_) }

  function Effect(r: Rule): string { if r.allow then "allow" else "deny" }

  function PrintRule(r: Rule): string {
    Effect(r) + " " + r.subject + " " + r.operation + " " + r.object_
  }

  /** Text after a rule that the parser passes over: nothing, or something that ends the last token. */
  predicate IsTail(s: string) { '\n' !in s && (s == "" || EndsToken(s[0])) }

  /** A line that adds nothing: blank, blank up to a carriage return, or a comment that is no revision. */
  predicate IsSilent(s: string) {
    && '\n' !in s
    && (SkipBlanks(s) == "" || SkipBlanks(s)[0] == '\r'
        || (SkipBlanks(s)[0] == '#' && !("# GlassOS policy revision " <= SkipBlanks(s))))
  }

  datatype Item = RuleItem(rule: Rule, tail: string) | Silent(text: string)

  predicate ItemOk(i: Item) {
    match i
    case RuleItem(r, tail) => Printable(r) && IsTail(tail)
    case Silent(text) => IsSilent(text)
  }

  function PrintItem(i: Item): string {
    match i
    case RuleItem(r, tail) => PrintRule(r) + tail
    case Silent(text) => text
  }

  function PrintItems(items: seq<Item>): string {
    if items == [] then "" else PrintItem(items[0]) + "\n" + PrintItems(items[1..])
  }

  /** The rules of a file in order, numbered on from n. */
  function RulesOf(items: seq<Item>, n: nat): seq<Rule> {
    if items == [] then []
    else if items[0].RuleItem? then [items[0].rule.(number := n + 1)] + RulesOf(items[1..], n + 1)
    else RulesOf(items[1..], n)
  }

  // ---------------------------------------------------------------- reading back

  lemma {:induction false} TokenLengthIs(s: string, n: nat)
    requires n <= |s| && (forall i :: 0 <= i < n ==> !EndsToken(s[i])) && (n < |s| ==> EndsToken(s[n]))
    ensures TokenLength(s) == n
  {
    if n > 0 {
      TokenLengthIs(s[1..], n - 1);
    }
  }

  /** A word followed by a token end is read back whole. */
  lemma ReadWord(word: string, rest: string, size: nat)
    requires 0 < |word| <= size && (forall i :: 0 <= i < |word| ==> !EndsToken(word[i]))
    requires rest == "" || EndsToken(rest[0])
    ensures ReadToken(word + rest, size) == (word, rest)
    ensures ReadToken(" " + word + rest, size) == (word, rest)
  {
    var s := word + rest;
    assert s[0] == word[0];
    TokenLengthIs(s, |word|);
    assert s[..|word|] == word && s[|word|..] == rest;
    assert (" " + word + rest)[1..] == s;
    assert SkipBlanks(" " + word + rest) == s;
  }

  /** A printed rule, word by word. */
  lemma RuleWords(r: Rule, tail: string)
    ensures PrintRule(r) + tail ==
            Effect(r) + (" " + r.subject + (" " + r.operation + (" " + r.object_ + tail)))
  {
  }

  lemma EffectIsWord(r: Rule)
    ensures 0 < |Effect(r)| <= EFFECT && forall i :: 0 <= i < |Effect(r)| ==> !EndsToken(Effect(r)[i])
  {
  }

  lemma RuleLineReadsBack(p: Rules, r: Rule, tail: string)
    requires Printable(r) && IsTail(tail) && |p.list| < MAX_RULES
    ensures ParseRuleLine(p, PrintRule(r) + tail) == p.(list := p.list + [r.(number := |p.list| + 1)])
  {
    var rest3 := " " + r.object_ + tail;
    var rest2 := " " + r.operation + rest3;
    var rest1 := " " + r.subject + rest2;
    RuleWords(r, tail);
    EffectIsWord(r);
    hide ReadToken, PrintRule, EndsToken;
    assert EndsToken(' ') by { SpaceEndsToken(); }
    assert ReadToken(PrintRule(r) + tail, EFFECT) == (Effect(r), rest1) by { ReadWord(Effect(r), rest1, EFFECT); }
    assert ReadToken(rest1, FIELD) == (r.subject, rest2) by { ReadWord(r.subject, rest2, FIELD); }
    assert ReadToken(rest2, FIELD) == (r.operation, rest3) by { ReadWord(r.operation, rest3, FIELD); }
    assert ReadToken(rest3, FIELD) == (r.object_, tail) by { ReadWord(r.object_, tail, FIELD); }
  }

  lemma SpaceEndsToken()
    ensures EndsToken(' ')
  {
  }

  lemma {:induction false} LineLengthIs(s: string, n: nat)
    requires n <= |s| && (forall i :: 0 <= i < n ==> s[i] != '\n') && (n < |s| ==> s[n] == '\n')
    ensures LineLength(s) == n
  {
    if n > 0 {
      LineLengthIs(s[1..], n - 1);
    }
  }

  /** No canonical rule reaches the 159-character cut; only what follows it is ever cut off. */
  lemma RuleFitsLine(r: Rule, tail: string)
    requires Printable(r) && IsTail(tail)
    ensures |PrintRule(r)| <= 149 < LINE
    ensures exists kept: string :: IsTail(kept) && Cut(PrintRule(r) + tail, LINE) == PrintRule(r) + kept
  {
    var n := LINE - |PrintRule(r)|;
    var kept := Cut(tail, n);
    assert Cut(PrintRule(r) + tail, LINE) == PrintRule(r) + kept;
    assert IsTail(kept);
  }

  lemma RuleItemParses(p: Rules, r: Rule, tail: string)
    requires Printable(r) && IsTail(tail) && |p.list| < MAX_RULES
    ensures ParseLine(p, Cut(PrintRule(r) + tail, LINE)) == p.(list := p.list + [r.(number := |p.list| + 1)])
  {
    RuleFitsLine(r, tail);
    var kept :| IsTail(kept) && Cut(PrintRule(r) + tail, LINE) == PrintRule(r) + kept;
    var line := PrintRule(r) + kept;
    assert line[0] == Effect(r)[0];
    assert SkipBlanks(line) == line;
    RuleLineReadsBack(p, r, kept);
  }

  lemma {:induction false} SkipBlanksCut(s: string, n: nat)
    ensures var t := SkipBlanks(Cut(s, n)); t <= SkipBlanks(s) && (t == "" || t[0] == SkipBlanks(s)[0])
    decreases |s|
  {
    if s != "" && IsBlank(s[0]) && n > 0 {
      SkipBlanksCut(s[1..], n - 1);
      assert Cut(s, n)[1..] == Cut(s[1..], n - 1);
      assert Cut(s, n)[0] == s[0];
    } else if n > 0 && s != "" {
      assert Cut(s, n)[0] == s[0];
    }
  }

  lemma SilentLineAddsNothing(p: Rules, text: string)
    requires IsSilent(text)
    ensures ParseLine(p, Cut(text, LINE)) == p
  {
    SkipBlanksCut(text, LINE);
    var trimmed := SkipBlanks(Cut(text, LINE));
    if trimmed != "" && trimmed[0] == '\r' {
      assert ReadToken(trimmed, EFFECT).0 == "";
    }
    assert REVISION_PREFIX <= trimmed ==> REVISION_PREFIX <= SkipBlanks(text);
  }

  lemma FirstLine(line: string, rest: string)
    requires '\n' !in line
    ensures var s := line + "\n" + rest; s[..LineLength(s)] == line && AfterLine(s) == rest
  {
    LineLengthIs(line + "\n" + rest, |line|);
  }

  lemma ItemHasNoNewline(i: Item)
    requires ItemOk(i)
    ensures '\n' !in PrintItem(i)
  {
    if i.RuleItem? {
      var r := i.rule;
      assert forall s: string :: IsField(s) ==> '\n' !in s;
    }
  }

  lemma FirstItem(p: Rules, item: Item, rest: string)
    requires ItemOk(item)
    requires |p.list| + |RulesOf([item], |p.list|)| <= MAX_RULES
    ensures var s := PrintItem(item) + "\n" + rest;
            && ParseLine(p, Cut(s[..LineLength(s)], LINE)) ==
               p.(list := p.list + RulesOf([item], |p.list|))
            && AfterLine(s) == rest
  {
    hide ParseLine, PrintRule;
    ItemHasNoNewline(item);
    FirstLine(PrintItem(item), rest);
    match item
    case RuleItem(r, tail) => RuleItemParses(p, r, tail);
    case Silent(text) => SilentLineAddsNothing(p, text);
  }

  lemma RulesOfFirst(items: seq<Item>, n: nat)
    requires items != []
    ensures var first := RulesOf([items[0]], n);
            |first| <= 1 && RulesOf(items, n) == first + RulesOf(items[1..], n + |first|)
  {
    assert [items[0]][1..] == [];
  }

  lemma ParseFirstLine(p: Rules, s: string)
    requires s != ""
    ensures ParseLines(p, s) == ParseLines(ParseLine(p, Cut(s[..LineLength(s)], LINE)), AfterLine(s))
  {
  }

  lemma FirstItemOfAll(items: seq<Item>)
    requires items != [] && forall i :: 0 <= i < |items| ==> ItemOk(items[i])
    ensures ItemOk(items[0]) && forall i :: 0 <= i < |items[1..]| ==> ItemOk(items[1..][i])
    ensures PrintItems(items) == PrintItem(items[0]) + "\n" + PrintItems(items[1..])
  {
    hide ItemOk, PrintItem;
  }

  /** At most 64 rules are kept, the first ones. */
  function Kept(rules: seq<Rule>): seq<Rule> { if |rules| > 64 then rules[..64] else rules }

  lemma FullLineAddsNothing(p: Rules, item: Item)
    requires ItemOk(item) && |p.list| >= MAX_RULES
    ensures ParseLine(p, Cut(PrintItem(item), LINE)) == p
  {
    match item
    case RuleItem(r, tail) =>
      RuleFitsLine(r, tail);
      var kept :| IsTail(kept) && Cut(PrintRule(r) + tail, LINE) == PrintRule(r) + kept;
      var line := PrintRule(r) + kept;
      assert line[0] == Effect(r)[0];
      assert SkipBlanks(line) == line;
      hide ReadToken, PrintRule;
    case Silent(text) => SilentLineAddsNothing(p, text);
  }

  lemma {:induction false} FullAddsNothing(p: Rules, items: seq<Item>)
    requires forall i :: 0 <= i < |items| ==> ItemOk(items[i])
    requires |p.list| >= MAX_RULES
    ensures ParseLines(p, PrintItems(items)) == p
    decreases |items|
  {
    hide ParseLine, PrintItem, ItemOk, LineLength, Cut;
    if items != [] {
      var rest := PrintItems(items[1..]);
      FirstItemOfAll(items);
      ItemHasNoNewline(items[0]);
      FirstLine(PrintItem(items[0]), rest);
      FullLineAddsNothing(p, items[0]);
      hide ParseLines, PrintItems, AfterLine;
      ParseFirstLine(p, PrintItem(items[0]) + "\n" + rest);
      FullAddsNothing(p, items[1..]);
    }
  }

  lemma {:induction false} ItemsReadBack(p: Rules, items: seq<Item>)
    requires forall i :: 0 <= i < |items| ==> ItemOk(items[i])
    requires |p.list| <= MAX_RULES
    ensures ParseLines(p, PrintItems(items)) == p.(list := Kept(p.list + RulesOf(items, |p.list|)))
    decreases |items|
  {
    hide ParseLine, PrintItem, AfterLine, ItemOk, LineLength, Cut;
    if items == [] {
      assert p.list + [] == p.list;
    } else if |p.list| == MAX_RULES {
      FullAddsNothing(p, items);
      assert Kept(p.list + RulesOf(items, |p.list|)) == p.list;
    } else {
      var rest := PrintItems(items[1..]);
      var first := RulesOf([items[0]], |p.list|);
      RulesOfFirst(items, |p.list|);
      FirstItemOfAll(items);
      hide RulesOf, ParseLines, PrintItems;
      FirstItem(p, items[0], rest);
      ParseFirstLine(p, PrintItem(items[0]) + "\n" + rest);
      var p1 := p.(list := p.list + first);
      assert |p1.list| == |p.list| + |first|;
      ItemsReadBack(p1, items[1..]);
      Associative(p.list, first, RulesOf(items[1..], |p1.list|));
    }
  }

  lemma Associative(a: seq<Rule>, b: seq<Rule>, c: seq<Rule>)
    ensures a + b + c == a + (b + c)
  {
  }

  lemma NumeralReadsBack(n: nat)
    requires n < U32
    ensures |Decimal(n)| <= 10 && AllDigits(Decimal(n)) && ParsePrefix(Decimal(n), U32) == n
  {
    Widths();
    DecimalLength(n, 10);
    AllDigitsPrefix(Decimal(n));
    assert Decimal(n)[..|Decimal(n)|] == Decimal(n);
    ValueOfDecimal(n);
  }

  lemma PrefixedDigits(prefix: string, digits: string)
    requires 0 < |prefix| <= 100 && '\n' !in prefix && !IsBlank(prefix[0])
    requires |digits| <= 10 && AllDigits(digits)
    ensures var line := prefix + digits;
            && Cut(line, LINE) == line && SkipBlanks(line) == line && prefix <= line && line[0] == prefix[0]
            && '\n' !in line
            && line[|prefix|..] == digits
  {
    assert (prefix + digits)[0] == prefix[0];
  }

  lemma RevisionLineParses(revision: nat)
    requires revision < U32
    ensures ParseLine(Rules([], 0), Cut(REVISION_PREFIX + Decimal(revision), LINE)) == Rules([], revision)
    ensures '\n' !in REVISION_PREFIX + Decimal(revision)
  {
    hide Decimal, SkipBlanks, ParsePrefix, ParseRuleLine;
    NumeralReadsBack(revision);
    PrefixedDigits(REVISION_PREFIX, Decimal(revision));
  }

  function PrintPolicy(revision: nat, items: seq<Item>): string {
    "# GlassOS policy revision " + Decimal(revision) + "\n" + PrintItems(items)
  }

  /** A policy printed one rule per line under its revision parses back to the same rules, the first 64 of
      them, numbers and revision; comments, blank lines, carriage returns and trailing text add nothing. */
  lemma PolicyReadsBack(revision: nat, items: seq<Item>)
    requires 1 <= revision < U32
    requires forall i :: 0 <= i < |items| ==> ItemOk(items[i])
    ensures Parse(PrintPolicy(revision, items)) == Rules(Kept(RulesOf(items, 0)), revision)
  {
    RevisionLineParses(revision);
    FirstLine(REVISION_PREFIX + Decimal(revision), PrintItems(items));
    ItemsReadBack(Rules([], revision), items);
    assert [] + RulesOf(items, 0) == RulesOf(items, 0);
  }

  // ---------------------------------------------------------------- any line of words

  /** Spaces and tabs. */
  predicate IsGap(s: string) { forall i :: 0 <= i < |s| ==> s[i] == ' ' || s[i] == '\t' }

  /** A text without spaces, tabs and line ends. */
  predicate IsWord(s: string) {
    s != "" && forall i :: 0 <= i < |s| ==> s[i] != ' ' && s[i] != '\t' && s[i] != '\r' && s[i] != '\n'
  }

  /** What may follow a word: nothing, or something that one of those begins. */
  predicate EndsWord(s: string) { s == "" || s[0] == ' ' || s[0] == '\t' || s[0] == '\r' || s[0] == '\n' }

  lemma {:induction false} SkipsGap(gap: string, rest: string)
    requires IsGap(gap) && (rest == "" || (rest[0] != ' ' && rest[0] != '\t'))
    ensures SkipBlanks(gap + rest) == rest
    decreases |gap|
  {
    if gap == "" {
      assert gap + rest == rest;
    } else {
      assert (gap + rest)[1..] == gap[1..] + rest && (gap + rest)[0] == gap[0];
      SkipsGap(gap[1..], rest);
    }
  }

  /** A word of any length after a gap is read, cut to its buffer. */
  lemma ReadAnyWord(gap: string, word: string, rest: string, size: nat)
    requires IsGap(gap) && IsWord(word) && EndsWord(rest)
    ensures ReadToken(gap + (word + rest), size) == (Cut(word, size), rest)
  {
    var s := word + rest;
    assert s[0] == word[0];
    SkipsGap(gap, s);
    TokenLengthIs(s, |word|);
    assert s[..|word|] == word && s[|word|..] == rest;
  }

  /** Where no word is left: a gap, and then the end or a carriage return. */
  predicate IsEnd(s: string) {
    exists n {:trigger s[n..]} :: 0 <= n <= |s| && IsGap(s[..n]) && (s[n..] == "" || s[n] == '\r')
  }

  lemma ReadNothing(s: string, size: nat)
    requires IsEnd(s)
    ensures ReadToken(s, size).0 == ""
    ensures IsEnd(ReadToken(s, size).1)
  {
    var n :| 0 <= n <= |s| && IsGap(s[..n]) && (s[n..] == "" || s[n] == '\r');
    assert s == s[..n] + s[n..];
    SkipsGap(s[..n], s[n..]);
    var t := SkipBlanks(s);
    assert t[TokenLength(t)..] == t;
    assert t[..0] == "" && IsGap("") && t[0..] == t;
  }

  /** The four words of a line with what is around them. */
  function FourWordLine(g0: string, effect: string, g1: string, subject: string, g2: string, operation: string,
                        g3: string, object_: string, tail: string): string {
    g0 + (effect + (g1 + (subject + (g2 + (operation + (g3 + (object_ + tail)))))))
  }

  lemma GapEnds(gap: string, rest: string)
    requires IsGap(gap) && gap != ""
    ensures EndsWord(gap + rest)
  {
    assert (gap + rest)[0] == gap[0];
  }

  lemma LineStarts(gap: string, word: string, rest: string)
    requires IsGap(gap) && IsWord(word)
    ensures SkipBlanks(gap + (word + rest)) == word + rest && (word + rest)[0] == word[0]
  {
    SkipsGap(gap, word + rest);
  }

  lemma WordLine(p: Rules, gap: string, word: string, rest: string)
    requires IsGap(gap) && IsWord(word) && word[0] != '#'
    ensures ParseLine(p, gap + (word + rest)) == ParseRuleLine(p, word + rest)
  {
    LineStarts(gap, word, rest);
    hide ParseRuleLine, SkipBlanks;
  }

  lemma EffectOfWord(effect: string)
    ensures Cut(effect, EFFECT) == "allow" <==> effect == "allow"
    ensures Cut(effect, EFFECT) == "deny" <==> effect == "deny"
  {
  }

  /** A line of four words is a rule exactly when the first one is "allow" or "deny" and there is room; its
      fields are the other three, cut to 47 characters. */
  lemma FourWords(p: Rules, g0: string, effect: string, g1: string, subject: string, g2: string, operation: string,
                  g3: string, object_: string, tail: string)
    requires IsWord(effect) && IsWord(subject) && IsWord(operation) && IsWord(object_) && EndsWord(tail)
    requires IsGap(g0) && IsGap(g1) && IsGap(g2) && IsGap(g3) && g1 != "" && g2 != "" && g3 != ""
    requires effect[0] != '#'
    ensures ParseLine(p, FourWordLine(g0, effect, g1, subject, g2, operation, g3, object_, tail)) ==
            if (effect == "allow" || effect == "deny") && |p.list| < 64 then
              p.(list := p.list + [Rule(effect == "allow", |p.list| + 1, Cut(subject, 47), Cut(operation, 47),
                                        Cut(object_, 47))])
            else p
  {
    var rest3 := g3 + (object_ + tail);
    var rest2 := g2 + (operation + rest3);
    var rest1 := g1 + (subject + rest2);
    WordLine(p, g0, effect, rest1);
    GapEnds(g1, subject + rest2);
    GapEnds(g2, operation + rest3);
    GapEnds(g3, object_ + tail);
    assert "" + (effect + rest1) == effect + rest1;
    ReadAnyWord("", effect, rest1, EFFECT);
    ReadAnyWord(g1, subject, rest2, FIELD);
    ReadAnyWord(g2, operation, rest3, FIELD);
    ReadAnyWord(g3, object_, tail, FIELD);
    EffectOfWord(effect);
    hide ReadToken, ParseLine, EndsWord, IsGap, SkipBlanks;
  }

  /** A line that runs out of words is none. */
  lemma NoObject(p: Rules, line: string, rest1: string, rest2: string, rest3: string)
    requires ReadToken(line, EFFECT).1 == rest1 && ReadToken(rest1, FIELD).1 == rest2
    requires ReadToken(rest2, FIELD).1 == rest3 && ReadToken(rest3, FIELD).0 == ""
    ensures ParseRuleLine(p, line) == p
  {
    hide ReadToken;
  }

  lemma EndsBoth(s: string)
    requires IsEnd(s)
    ensures EndsWord(s)
  {
    var n :| 0 <= n <= |s| && IsGap(s[..n]) && (s[n..] == "" || s[n] == '\r');
    assert n > 0 ==> s[..n][0] == s[0];
  }

  lemma NothingMore(s: string)
    requires IsEnd(s)
    ensures ReadToken(s, FIELD).0 == "" && ReadToken(ReadToken(s, FIELD).1, FIELD).0 == ""
    ensures ReadToken(ReadToken(ReadToken(s, FIELD).1, FIELD).1, FIELD).0 == ""
  {
    hide ReadToken, IsEnd;
    ReadNothing(s, FIELD);
    ReadNothing(ReadToken(s, FIELD).1, FIELD);
    ReadNothing(ReadToken(ReadToken(s, FIELD).1, FIELD).1, FIELD);
  }

  /** A line of one, two or three words adds nothing. */
  lemma OneWord(p: Rules, g0: string, effect: string, end: string)
    requires IsGap(g0) && IsWord(effect) && effect[0] != '#' && IsEnd(end)
    ensures ParseLine(p, g0 + (effect + end)) == p
  {
    WordLine(p, g0, effect, end);
    EndsBoth(end);
    assert "" + (effect + end) == effect + end;
    ReadAnyWord("", effect, end, EFFECT);
    NothingMore(end);
    hide ReadToken, ParseLine, IsEnd;
    NoObject(p, effect + end, end, ReadToken(end, FIELD).1, ReadToken(ReadToken(end, FIELD).1, FIELD).1);
  }

  lemma TwoWords(p: Rules, g0: string, effect: string, g1: string, subject: string, end: string)
    requires IsGap(g0) && IsGap(g1) && g1 != "" && IsWord(effect) && IsWord(subject) && IsEnd(end)
    requires effect[0] != '#'
    ensures ParseLine(p, g0 + (effect + (g1 + (subject + end)))) == p
  {
    var rest1 := g1 + (subject + end);
    WordLine(p, g0, effect, rest1);
    EndsBoth(end);
    GapEnds(g1, subject + end);
    assert "" + (effect + rest1) == effect + rest1;
    ReadAnyWord("", effect, rest1, EFFECT);
    ReadAnyWord(g1, subject, end, FIELD);
    NothingMore(end);
    hide ReadToken, ParseLine, IsEnd;
    NoObject(p, effect + rest1, rest1, end, ReadToken(end, FIELD).1);
  }

  lemma ThreeWords(p: Rules, g0: string, effect: string, g1: string, subject: string, g2: string, operation: string,
                   end: string)
    requires IsGap(g0) && IsGap(g1) && IsGap(g2) && g1 != "" && g2 != ""
    requires IsWord(effect) && IsWord(subject) && IsWord(operation) && IsEnd(end) && effect[0] != '#'
    ensures ParseLine(p, g0 + (effect + (g1 + (subject + (g2 + (operation + end)))))) == p
  {
    var rest2 := g2 + (operation + end);
    var rest1 := g1 + (subject + rest2);
    WordLine(p, g0, effect, rest1);
    EndsBoth(end);
    GapEnds(g1, subject + rest2);
    GapEnds(g2, operation + end);
    assert "" + (effect + rest1) == effect + rest1;
    ReadAnyWord("", effect, rest1, EFFECT);
    ReadAnyWord(g1, subject, rest2, FIELD);
    ReadAnyWord(g2, operation, end, FIELD);
    NothingMore(end);
    hide ReadToken, ParseLine, IsEnd;
    NoObject(p, effect + rest1, rest1, rest2, end);
  }
}
