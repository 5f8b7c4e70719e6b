/** The line editor as a value: a text with a cursor, and the remembered commands. */
module LineEditor {

  const MAX_TEXT := 127               // LINE_CAPACITY - 1
  const HISTORY_CAPACITY := 8

  /** `browsing` is the history entry on display, -1 when the line is the user's own, kept in `saved`
      while browsing. */
  datatype Editor = Editor(text: string, cursor: nat, history: seq<string>, browsing: int, saved: string,
                           ready: bool, shift: bool, extended: bool)

  const START := Editor("", 0, [], -1, "", false, false, false)

  predicate IsLine(s: string) { |s| <= MAX_TEXT && '\0' !in s }

  predicate EditorOk(e: Editor) {
    && IsLine(e.text) && e.cursor <= |e.text|
    && IsLine(e.saved)
    && |e.history| <= HISTORY_CAPACITY
    && (forall i :: 0 <= i < |e.history| ==> IsLine(e.history[i]) && e.history[i] != "")
    && -1 <= e.browsing < |e.history|
  }

  // ---------------------------------------------------------------- editing

  function Insert(e: Editor, key: char): Editor
    requires e.cursor <= |e.text|
  {
    if |e.text| >= MAX_TEXT then e
    else e.(text := e.text[..e.cursor] + [key] + e.text[e.cursor..], cursor := e.cursor + 1, browsing := -1)
  }

  function Delete(e: Editor): Editor {
    if e.cursor >= |e.text| then e
    else e.(text := e.text[..e.cursor] + e.text[e.cursor + 1..], browsing := -1)
  }

  function Backspace(e: Editor): Editor {
    if e.cursor == 0 then e else Delete(e.(cursor := e.cursor - 1))
  }

  /** Backspace takes back an insertion, and delete one made behind the cursor. */
  lemma BackspaceUndoesInsert(e: Editor, key: char)
    requires EditorOk(e) && |e.text| < MAX_TEXT
    ensures Backspace(Insert(e, key)) == e.(browsing := -1)
    ensures Delete(Insert(e, key).(cursor := e.cursor)) == e.(browsing := -1)
  {
    var t := e.text[..e.cursor] + [key] + e.text[e.cursor..];
    assert t[..e.cursor] == e.text[..e.cursor] && t[e.cursor + 1..] == e.text[e.cursor..];
  }

  /** Deleting a character and typing it again gives the line back. */
  lemma InsertUndoesDelete(e: Editor)
    requires EditorOk(e) && e.cursor < |e.text|
    ensures Insert(Delete(e), e.text[e.cursor]) == e.(cursor := e.cursor + 1, browsing := -1)
  {
    var t := e.text[..e.cursor] + e.text[e.cursor + 1..];
    assert t[..e.cursor] == e.text[..e.cursor] && t[e.cursor..] == e.text[e.cursor + 1..];
  }

  // ---------------------------------------------------------------- history

  /** The last n elements. */
  function Newest(s: seq<string>, n: nat): (r: seq<string>)
    ensures |r| == if |s| <= n then |s| else n
  {
    if |s| <= n then s else s[|s| - n..]
  }

  function Remember(history: seq<string>, line: string): seq<string> {
    if line == "" then history else Newest(history + [line], HISTORY_CAPACITY)
  }

  function Replace(e: Editor, line: string): Editor { e.(text := line, cursor := |line|) }

  function Up(e: Editor): Editor
    requires -1 <= e.browsing < |e.history|
  {
    if e.history == [] then e
    else if e.browsing < 0 then
      Replace(e.(saved := e.text, browsing := |e.history| - 1), e.history[|e.history| - 1])
    else
      var i := if e.browsing > 0 then e.browsing - 1 else 0;
      Replace(e.(browsing := i), e.history[i])
  }

  function Down(e: Editor): Editor
    requires -1 <= e.browsing < |e.history|
  {
    if e.browsing < 0 then e
    else if e.browsing < |e.history| - 1 then Replace(e.(browsing := e.browsing + 1), e.history[e.browsing + 1])
    else Replace(e.(browsing := -1), e.saved)
  }

  function Enter(e: Editor): Editor {
    e.(cursor := |e.text|, history := Remember(e.history, e.text), ready := true)
  }

  /** keyboard_begin_line */
  function BeginLine(e: Editor): Editor { e.(text := "", cursor := 0, ready := false, browsing := -1) }

  // ---------------------------------------------------------------- keys

  const ESCAPE: char := '\U{001b}'
  const BACKSPACE: char := '\U{0008}'

  /** The scancode table, row by row. */
  const KEYS: seq<char> :=
    ['\0', ESCAPE] + "1234567890-=" + [BACKSPACE, '\t'] + "qwertyuiop[]" + ['\n', '\0'] + "asdfghjkl;'`" +
    ['\0'] + "\\zxcvbnm,./" + ['\0', '*', '\0', ' ']

  function KeyOf(scancode: nat): char {
    if scancode < |KEYS| then KEYS[scancode] else '\0'
  }

  function Shifted(key: char): char {
    if 'a' <= key <= 'z' then (key as int - 'a' as int + 'A' as int) as char
    else
      match key
      case '1' => '!' case '2' => '@' case '3' => '#' case '4' => '$' case '5' => '%'
      case '6' => '^' case '7' => '&' case '8' => '*' case '9' => '(' case '0' => ')'
      case '-' => '_' case '=' => '+' case '[' => '{' case ']' => '}' case '\\' => '|'
      case ';' => ':' case '\'' => '"' case '`' => '~' case ',' => '<' case '.' => '>'
      case '/' => '?' case _ => key
  }

  /** An extended scancode: arrows, home, end and delete. */
  function Move(e: Editor, scancode: nat): Editor
    requires -1 <= e.browsing < |e.history|
  {
    if scancode == 0x4B then (if e.cursor > 0 then e.(cursor := e.cursor - 1) else e)
    else if scancode == 0x4D then (if e.cursor < |e.text| then e.(cursor := e.cursor + 1) else e)
    else if scancode == 0x47 then e.(cursor := 0)
    else if scancode == 0x4F then (if e.cursor < |e.text| then e.(cursor := |e.text|) else e)
    else if scancode == 0x48 then Up(e)
    else if scancode == 0x50 then Down(e)
    else if scancode == 0x53 then Delete(e)
    else e
  }

  function Type(e: Editor, key: char): Editor
    requires e.cursor <= |e.text|
  {
    if key == '\n' then Enter(e)
    else if key == BACKSPACE then Backspace(e)
    else if key != '\0' then Insert(e, key)
    else e
  }

  /** keyboard_handler on one scancode. */
  function Step(e: Editor, scancode: nat): Editor
    requires e.cursor <= |e.text| && -1 <= e.browsing < |e.history|
  {
    if scancode == 0xE0 then e.(extended := true)
    else if scancode == 0x2A || scancode == 0x36 then e.(shift := true)
    else if scancode == 0xAA || scancode == 0xB6 then e.(shift := false)
    else
      var e1 :=
        if scancode >= 0x80 || e.ready then e
        else if e.extended then Move(e, scancode)
        else Type(e, if e.shift then Shifted(KeyOf(scancode)) else KeyOf(scancode));
      e1.(extended := false)
  }

  // ---------------------------------------------------------------- runs

  lemma InsertOk(e: Editor, key: char)
    requires EditorOk(e) && key != '\0'
    ensures EditorOk(Insert(e, key))
  {
  }

  lemma DeleteOk(e: Editor)
    requires EditorOk(e)
    ensures EditorOk(Delete(e)) && EditorOk(Backspace(e))
  {
  }

  lemma EnterOk(e: Editor)
    requires EditorOk(e)
    ensures EditorOk(Enter(e))
  {
    var longer := e.history + [e.text];
    assert forall i :: 0 <= i < |longer| ==> IsLine(longer[i]);
  }

  lemma StepOk(e: Editor, scancode: nat)
    requires EditorOk(e)
    ensures EditorOk(Step(e, scancode))
  {
    hide EditorOk, Move, Enter, Delete, Insert, Backspace, KeyOf, Shifted;
    var key := if e.shift then Shifted(KeyOf(scancode)) else KeyOf(scancode);
    if key != '\0' {
      InsertOk(e, key);
    }
    DeleteOk(e);
    EnterOk(e);
    MoveOk(e, scancode);
    FlagsOk(e, e.ready, e.shift, true);
    FlagsOk(e, e.ready, true, e.extended);
    FlagsOk(e, e.ready, false, e.extended);
    var e1 := if scancode >= 0x80 || e.ready then e else if e.extended then Move(e, scancode) else Type(e, key);
    FlagsOk(e1, e1.ready, e1.shift, false);
  }

  lemma ReplaceOk(e: Editor, line: string)
    requires EditorOk(e) && IsLine(line)
    ensures EditorOk(Replace(e, line))
  {
  }

  lemma UpOk(e: Editor)
    requires EditorOk(e)
    ensures EditorOk(Up(e))
  {
    if e.history != [] {
      var e1 := if e.browsing < 0 then e.(saved := e.text, browsing := |e.history| - 1)
                else e.(browsing := if e.browsing > 0 then e.browsing - 1 else 0);
      assert EditorOk(e1);
      ReplaceOk(e1, e.history[e1.browsing]);
    }
  }

  lemma DownOk(e: Editor)
    requires EditorOk(e)
    ensures EditorOk(Down(e))
  {
    if e.browsing >= 0 {
      var last := e.browsing == |e.history| - 1;
      var e1 := e.(browsing := if last then -1 else e.browsing + 1);
      assert EditorOk(e1);
      ReplaceOk(e1, if last then e.saved else e.history[e.browsing + 1]);
    }
  }

  lemma CursorOk(e: Editor, cursor: nat)
    requires EditorOk(e) && cursor <= |e.text|
    ensures EditorOk(e.(cursor := cursor))
  {
  }

  lemma MoveOk(e: Editor, scancode: nat)
    requires EditorOk(e)
    ensures EditorOk(Move(e, scancode))
  {
    assert e.cursor <= |e.text|;
    hide EditorOk, Up, Down, Delete;
    if e.cursor > 0 {
      CursorOk(e, e.cursor - 1);
    }
    if e.cursor < |e.text| {
      CursorOk(e, e.cursor + 1);
    }
    CursorOk(e, 0);
    CursorOk(e, |e.text|);
    UpOk(e);
    DownOk(e);
    DeleteOk(e);
  }

  lemma FlagsOk(e: Editor, ready: bool, shift: bool, extended: bool)
    requires EditorOk(e)
    ensures EditorOk(e.(ready := ready, shift := shift, extended := extended))
  {
  }

  /** What reaches the editor: scancodes, and the shell starting a new line. */
  datatype Input = Key(scancode: nat) | NewLine

  function Take(e: Editor, input: Input): (r: Editor)
    requires EditorOk(e)
    ensures EditorOk(r)
  {
    match input
    case Key(s) => StepOk(e, s); Step(e, s)
    case NewLine => BeginLine(e)
  }

  function TakeAll(e: Editor, inputs: seq<Input>): (r: Editor)
    requires EditorOk(e)
    ensures EditorOk(r)
    decreases |inputs|
  {
    if inputs == [] then e else TakeAll(Take(e, inputs[0]), inputs[1..])
  }

  /** This scancode submits the line. */
  predicate Submits(e: Editor, scancode: nat) {
    && scancode < 0x80 && scancode != 0x2A && scancode != 0x36 && !e.ready && !e.extended
    && (if e.shift then Shifted(KeyOf(scancode)) else KeyOf(scancode)) == '\n'
  }

  /** The non-empty lines submitted over a run, oldest first. */
  function Submitted(e: Editor, inputs: seq<Input>): seq<string>
    requires EditorOk(e)
    decreases |inputs|
  {
    if inputs == [] then []
    else
      var first := if inputs[0].Key? && Submits(e, inputs[0].scancode) && e.text != "" then [e.text] else [];
      first + Submitted(Take(e, inputs[0]), inputs[1..])
  }

  lemma StepHistory(e: Editor, scancode: nat)
    requires EditorOk(e)
    ensures Step(e, scancode).history == if Submits(e, scancode) then Remember(e.history, e.text) else e.history
  {
    hide KeyOf, Shifted, Remember;
  }

  lemma NewestAppend(a: seq<string>, b: seq<string>, n: nat)
    ensures Newest(Newest(a, n) + b, n) == Newest(a + b, n)
  {
  }

  lemma {:induction false} RunHistory(e: Editor, inputs: seq<Input>)
    requires EditorOk(e)
    ensures TakeAll(e, inputs).history == Newest(e.history + Submitted(e, inputs), HISTORY_CAPACITY)
    decreases |inputs|
  {
    hide Step, Submits, EditorOk, Newest;
    if inputs == [] {
      assert e.history + [] == e.history;
      NewestShort(e);
    } else {
      var e1 := Take(e, inputs[0]);
      var first := if inputs[0].Key? && Submits(e, inputs[0].scancode) && e.text != "" then [e.text] else [];
      NewestShort(e);
      assert e.history + [] == e.history;
      if inputs[0].Key? {
        StepHistory(e, inputs[0].scancode);
      }
      assert e1.history == Newest(e.history + first, HISTORY_CAPACITY);
      RunHistory(e1, inputs[1..]);
      NewestAppend(e.history + first, Submitted(e1, inputs[1..]), HISTORY_CAPACITY);
      assert e.history + first + Submitted(e1, inputs[1..]) == e.history + (first + Submitted(e1, inputs[1..]));
    }
  }

  lemma NewestShort(e: Editor)
    requires EditorOk(e)
    ensures Newest(e.history, HISTORY_CAPACITY) == e.history
  {
  }

  /** Over any stream of scancodes and lines the cursor stays inside the text, the text inside its buffer,
      and the history is the last eight non-empty commands, oldest first. */
  lemma HistoryIsNewestCommands(inputs: seq<Input>)
    ensures var e := TakeAll(START, inputs);
            && e.cursor <= |e.text| <= 127
            && -1 <= e.browsing < |e.history| <= 8
            && e.history == Newest(Submitted(START, inputs), 8)
  {
    RunHistory(START, inputs);
    assert [] + Submitted(START, inputs) == Submitted(START, inputs);
  }

  // ---------------------------------------------------------------- browsing up and down

  /** k presses of the up arrow, or of the down arrow, on a line being edited. */
  function Presses(e: Editor, up: bool, k: nat): (r: Editor)
    requires EditorOk(e)
    ensures EditorOk(r)
    decreases k
  {
    if k == 0 then e
    else
      UpOk(e);
      DownOk(e);
      Presses(if up then Up(e) else Down(e), up, k - 1)
  }

  function Min(a: nat, b: nat): nat { if a < b then a else b }

  lemma {:induction false} UpsWhileBrowsing(e: Editor, k: nat)
    requires EditorOk(e) && e.browsing >= 0 && e.text == e.history[e.browsing] && e.cursor == |e.text|
    ensures var i := if k < e.browsing then e.browsing - k else 0;
            Presses(e, true, k) == Replace(e.(browsing := i), e.history[i])
    decreases k
  {
    if k > 0 {
      UpOk(e);
      UpsWhileBrowsing(Up(e), k - 1);
    }
  }

  lemma {:induction false} DownsRestore(e: Editor, m: nat)
    requires EditorOk(e) && e.browsing >= 0 && m >= |e.history| - e.browsing
    ensures Presses(e, false, m) == Replace(e.(browsing := -1), e.saved)
    decreases m
  {
    DownOk(e);
    if e.browsing < |e.history| - 1 {
      DownsRestore(Down(e), m - 1);
    } else {
      DownsStay(Down(e), m - 1);
    }
  }

  lemma {:induction false} DownsStay(e: Editor, m: nat)
    requires EditorOk(e) && e.browsing < 0
    ensures Presses(e, false, m) == e
    decreases m
  {
    if m > 0 {
      DownsStay(e, m - 1);
    }
  }

  /** From a line being edited, k ups followed by at least min(k, number of remembered commands) downs
      give the line back. */
  lemma UpsThenDownsRestoreLine(e: Editor, k: nat, m: nat)
    requires EditorOk(e) && e.browsing == -1
    requires m >= Min(k, |e.history|)
    ensures var e' := Presses(Presses(e, true, k), false, m);
            && e'.text == e.text && e'.browsing == -1 && e'.history == e.history
            && e'.cursor == (if k == 0 || e.history == [] then e.cursor else |e.text|)
  {
    if k == 0 {
      DownsStay(e, m);
    } else if e.history == [] {
      UpsOnNothing(e, k);
      DownsStay(e, m);
    } else {
      UpOk(e);
      UpsWhileBrowsing(Up(e), k - 1);
      DownsRestore(Presses(e, true, k), m);
    }
  }

  lemma {:induction false} UpsOnNothing(e: Editor, k: nat)
    requires EditorOk(e) && e.history == []
    ensures Presses(e, true, k) == e
    decreases k
  {
    if k > 0 {
      UpsOnNothing(e, k - 1);
    }
  }

  /** On the keyboard an arrow is the prefix E0 followed by 48 or 50. */
  lemma ArrowKeys(e: Editor)
    requires EditorOk(e) && !e.ready && !e.extended
    ensures Step(Step(e, 0xE0), 0x48) == Up(e)
    ensures Step(Step(e, 0xE0), 0x50) == Down(e)
  {
  }

  // ---------------------------------------------------------------- the keys, one by one

  /** What the four rows of keys give. */
  lemma KeyRows(i: nat)
    ensures i < 12 ==> KeyOf(0x02 + i) == "1234567890-="[i]
    ensures i < 12 ==> KeyOf(0x10 + i) == "qwertyuiop[]"[i]
    ensures i < 12 ==> KeyOf(0x1E + i) == "asdfghjkl;'`"[i]
    ensures i < 11 ==> KeyOf(0x2B + i) == "\\zxcvbnm,./"[i]
  {
    assert |KEYS| == 58;
    assert KEYS[0x02..0x0E] == "1234567890-=";
    assert KEYS[0x10..0x1C] == "qwertyuiop[]";
    assert KEYS[0x1E..0x2A] == "asdfghjkl;'`";
    assert KEYS[0x2B..0x36] == "\\zxcvbnm,./";
    hide KEYS;
  }

  /** What the other keys give, and those that give nothing. */
  lemma OtherKeyCodes()
    ensures KeyOf(0x01) == ESCAPE && KeyOf(0x0E) == BACKSPACE && KeyOf(0x0F) == '\t' && KeyOf(0x1C) == '\n'
    ensures KeyOf(0x37) == '*' && KeyOf(0x39) == ' '
    ensures KeyOf(0x00) == KeyOf(0x1D) == KeyOf(0x2A) == KeyOf(0x36) == KeyOf(0x38) == '\0'
    ensures forall s: nat :: s >= 0x3A ==> KeyOf(s) == '\0'
  {
  }

  /** Letters become capitals, digits and signs the signs above them, and other keys stay. */
  lemma ShiftedKeys(key: char)
    ensures 'a' <= key <= 'z' ==> Shifted(key) as int == key as int - 32
    ensures Shifted('1') == '!' && Shifted('2') == '@' && Shifted('3') == '#' && Shifted('4') == '$'
    ensures Shifted('5') == '%' && Shifted('6') == '^' && Shifted('7') == '&' && Shifted('8') == '*'
    ensures Shifted('9') == '(' && Shifted('0') == ')' && Shifted('-') == '_' && Shifted('=') == '+'
    ensures Shifted('[') == '{' && Shifted(']') == '}' && Shifted('\\') == '|' && Shifted(';') == ':'
    ensures Shifted('\'') == '"' && Shifted('`') == '~' && Shifted(',') == '<' && Shifted('.') == '>'
    ensures Shifted('/') == '?'
    ensures key < '\'' || key in "*+" ==> Shifted(key) == key
  {
  }

  lemma OneEnterKey()
    ensures |KEYS| == 58 && '\n' !in KEYS[..0x1C] && '\n' !in KEYS[0x1D..]
  {
    assert KEYS[..0x1C] == ['\0', ESCAPE] + "1234567890-=" + [BACKSPACE, '\t'] + "qwertyuiop[]";
    assert KEYS[0x1D..] == ['\0'] + "asdfghjkl;'`" + ['\0'] + "\\zxcvbnm,./" + ['\0', '*', '\0', ' '];
  }

  lemma ShiftedNewline(key: char)
    ensures Shifted(key) == '\n' <==> key == '\n'
    ensures Shifted(BACKSPACE) == BACKSPACE && Shifted('\0') == '\0'
  {
  }

  /** The enter key, and no other, submits a line: with or without shift, while no line is waiting. */
  lemma EnterSubmits(e: Editor, scancode: nat)
    ensures Submits(e, scancode) <==> scancode == 0x1C && !e.ready && !e.extended
  {
    OtherKeyCodes();
    ShiftedNewline(KeyOf(scancode));
    OneEnterKey();
    hide KEYS, Shifted;
    if scancode < 0x1C {
      assert KEYS[..0x1C][scancode] == KEYS[scancode];
    } else if 0x1C < scancode < |KEYS| {
      assert KEYS[0x1D..][scancode - 0x1D] == KEYS[scancode];
    }
  }

  /** What a key stroke changes of the line: its text and its cursor, and nothing that is remembered. */
  predicate Line(e: Editor, e': Editor, text: string, cursor: nat) {
    e'.text == text && e'.cursor == cursor && e'.history == e.history && e'.ready == e.ready && e'.shift == e.shift
  }

  /** A character key, on a line being edited, inserts its character at the cursor while there is room. */
  lemma CharacterKey(e: Editor, scancode: nat)
    requires EditorOk(e) && !e.ready && !e.extended && scancode < 0x80
    requires var key := if e.shift then Shifted(KeyOf(scancode)) else KeyOf(scancode);
             key != '\n' && key != BACKSPACE && key != '\0'
    ensures var key := if e.shift then Shifted(KeyOf(scancode)) else KeyOf(scancode);
            if |e.text| < 127 then
              Line(e, Step(e, scancode), e.text[..e.cursor] + [key] + e.text[e.cursor..], e.cursor + 1)
            else Line(e, Step(e, scancode), e.text, e.cursor)
  {
    OtherKeyCodes();
    ShiftedNewline('\0');
    hide KeyOf, Shifted;
  }

  lemma BackspaceKey(e: Editor)
    requires EditorOk(e) && !e.ready && !e.extended
    ensures var t, c := e.text, e.cursor;
            Line(e, Step(e, 0x0E), if c > 0 then t[..c - 1] + t[c..] else t, if c > 0 then c - 1 else 0)
  {
    OtherKeyCodes();
    ShiftedNewline(BACKSPACE);
    hide KeyOf, Shifted;
  }

  lemma EnterKey(e: Editor)
    requires EditorOk(e) && !e.ready && !e.extended
    ensures var e' := Step(e, 0x1C);
            && e'.text == e.text && e'.cursor == |e.text| && e'.ready
            && e'.history == (if e.text == "" then e.history
                              else if |e.history| < 8 then e.history + [e.text] else e.history[1..] + [e.text])
  {
    OtherKeyCodes();
    ShiftedNewline('\n');
    hide KeyOf, Shifted;
  }

  lemma SilentKey(e: Editor, scancode: nat)
    requires EditorOk(e) && !e.ready && !e.extended
    requires scancode in {0x00, 0x1D, 0x38} || 0x3A <= scancode < 0x80
    ensures Step(e, scancode) == e
  {
    OtherKeyCodes();
    ShiftedNewline('\0');
    hide KeyOf, Shifted;
  }

  /** Shift goes down and up; a key release, and any key while a line waits for the shell, changes nothing
      else; E0 announces an extended key. */
  lemma FlagKeys(e: Editor, scancode: nat)
    requires EditorOk(e)
    ensures scancode == 0x2A || scancode == 0x36 ==> Step(e, scancode) == e.(shift := true)
    ensures scancode == 0xAA || scancode == 0xB6 ==> Step(e, scancode) == e.(shift := false)
    ensures Step(e, 0xE0) == e.(extended := true)
    ensures scancode !in {0x2A, 0x36, 0xAA, 0xB6, 0xE0} && (scancode >= 0x80 || e.ready) ==>
              Step(e, scancode) == e.(extended := false)
  {
  }

  /** An extended key: the prefix and the key. */
  function Extended(e: Editor, scancode: nat): (r: Editor)
    requires EditorOk(e)
    ensures EditorOk(r)
  {
    StepOk(e, 0xE0);
    StepOk(Step(e, 0xE0), scancode);
    Step(Step(e, 0xE0), scancode)
  }

  /** Left, right, home, end and delete. */
  lemma CursorKeys(e: Editor)
    requires EditorOk(e) && !e.ready
    ensures var t, c := e.text, e.cursor;
            && Line(e, Extended(e, 0x4B), t, if c > 0 then c - 1 else 0)
            && Line(e, Extended(e, 0x4D), t, if c < |t| then c + 1 else |t|)
            && Line(e, Extended(e, 0x47), t, 0)
            && Line(e, Extended(e, 0x4F), t, |t|)
            && Line(e, Extended(e, 0x53), if c < |t| then t[..c] + t[c + 1..] else t, c)
  {
    hide EditorOk;
    assert e.cursor <= |e.text| by { CursorInText(e); }
    assert !Extended(e, 0x4B).extended;
  }

  lemma CursorInText(e: Editor)
    requires EditorOk(e)
    ensures e.cursor <= |e.text|
  {
  }

  /** The same extended key, k times. */
  function Strokes(e: Editor, scancode: nat, k: nat): (r: Editor)
    requires EditorOk(e)
    ensures EditorOk(r)
    decreases k
  {
    if k == 0 then e else Strokes(Extended(e, scancode), scancode, k - 1)
  }

  lemma {:induction false} UpStrokes(e: Editor, k: nat)
    requires EditorOk(e) && !e.ready && !e.extended
    ensures Strokes(e, 0x48, k) == Presses(e, true, k) && !Strokes(e, 0x48, k).ready && !Strokes(e, 0x48, k).extended
    decreases k
  {
    hide EditorOk, Step, Up;
    if k > 0 {
      ArrowKeys(e);
      FlagsStay(e);
      UpStrokes(Extended(e, 0x48), k - 1);
    }
  }

  lemma {:induction false} DownStrokes(e: Editor, k: nat)
    requires EditorOk(e) && !e.ready && !e.extended
    ensures Strokes(e, 0x50, k) == Presses(e, false, k)
    decreases k
  {
    hide EditorOk, Step, Down;
    if k > 0 {
      ArrowKeys(e);
      FlagsStay(e);
      DownStrokes(Extended(e, 0x50), k - 1);
    }
  }

  lemma FlagsStay(e: Editor)
    requires EditorOk(e)
    ensures Up(e).ready == Down(e).ready == e.ready && Up(e).extended == Down(e).extended == e.extended
  {
  }

  lemma {:induction false} DownsWhileBrowsing(e: Editor, m: nat)
    requires EditorOk(e) && e.browsing >= 0 && e.browsing + m < |e.history|
    requires e.text == e.history[e.browsing] && e.cursor == |e.text|
    ensures Presses(e, false, m) == Replace(e.(browsing := e.browsing + m), e.history[e.browsing + m])
    decreases m
  {
    if m > 0 {
      DownOk(e);
      DownsWhileBrowsing(Down(e), m - 1);
    }
  }

  /** From a line being edited, with n commands remembered, k presses of the up key show command n - k, the
      oldest when there are fewer, and j presses of the down key after them the one j places on; beyond the
      newest the line comes back.  The cursor is at the end. */
  lemma ArrowsBrowseHistory(e: Editor, k: nat, j: nat)
    requires EditorOk(e) && e.browsing == -1 && !e.ready && !e.extended && e.history != [] && k >= 1
    ensures var n := |e.history|;
            var first := if k < n then n - k else 0;
            var e' := Strokes(Strokes(e, 0x48, k), 0x50, j);
            && e'.text == (if first + j < n then e.history[first + j] else e.text)
            && e'.cursor == |e'.text| && e'.history == e.history
  {
    hide EditorOk, Strokes, Up, Presses;
    UpStrokes(e, k);
    UpsShow(e, k);
    DownStrokes(Strokes(e, 0x48, k), j);
    var up := Presses(e, true, k);
    if up.browsing + j < |e.history| {
      DownsWhileBrowsing(up, j);
    } else {
      DownsRestore(up, j);
    }
  }

  lemma UpsShow(e: Editor, k: nat)
    requires EditorOk(e) && e.browsing == -1 && e.history != [] && k >= 1
    ensures var i := if k < |e.history| then |e.history| - k else 0;
            var up := Presses(e, true, k);
            && up.browsing == i && up.text == e.history[i] && up.cursor == |up.text|
            && up.history == e.history && up.saved == e.text
  {
    UpOk(e);
    UpsWhileBrowsing(Up(e), k - 1);
    hide EditorOk;
  }

  /** keyboard_begin_line leaves an empty line and what is remembered. */
  lemma NewLineIsEmpty(e: Editor)
    ensures var e' := BeginLine(e);
            e'.text == "" && e'.cursor == 0 && !e'.ready && e'.browsing == -1 && e'.history == e.history
  {
  }
}
