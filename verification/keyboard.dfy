/** The static state of kernel/keyboard.c: a 128-character line edited in place and a ring of eight
    remembered commands. */
module Keyboard {
  import opened LineEditor

  const LINE_CAPACITY := 128

  class Keyboard {
    const buffer: array<char>
    const slots: array<string>        // the C strings in the eight slots of command_history
    var length: nat                   // buffer_idx
    var cursor: nat
    var count: nat
    var next: nat
    var browsing: int
    var saved: string
    var ready: bool
    var shift: bool
    var extended: bool
    ghost var history: seq<string>    // the slots in use, oldest first

    ghost predicate LineOk()
      reads this, buffer
    {
      && buffer.Length == LINE_CAPACITY
      && cursor <= length <= MAX_TEXT
      && buffer[length] == '\0'
      && '\0' !in buffer[..length]
    }

    ghost predicate RingOk()
      reads this, slots
    {
      && slots.Length == HISTORY_CAPACITY
      && count <= HISTORY_CAPACITY && next < HISTORY_CAPACITY
      && (count < HISTORY_CAPACITY ==> next == count)
      && |history| == count
      && (forall i :: 0 <= i < count ==> slots[Slot(next, count, i)] == history[i])
    }

    ghost predicate Valid()
      reads this, buffer, slots
    {
      LineOk() && RingOk() && EditorOk(State())
    }

    ghost function State(): Editor
      reads this, buffer
      requires length <= buffer.Length
    {
      Editor(buffer[..length], cursor, history, browsing, saved, ready, shift, extended)
    }

    constructor ()
      ensures Valid() && fresh(buffer) && fresh(slots) && State() == START
    {
      buffer := new char[LINE_CAPACITY](_ => '\0');
      slots := new string[HISTORY_CAPACITY](_ => "");
      length, cursor, count, next, browsing, saved := 0, 0, 0, 0, -1, "";
      ready, shift, extended, history := false, false, false, [];
    }

    // -------------------------------------------------------------- editing in place

    method InsertCharacter(key: char)
      requires Valid() && key != '\0'
      modifies this`length, this`cursor, this`browsing, buffer
      ensures Valid() && State() == Insert(old(State()), key)
    {
      InsertOk(State(), key);
      if length >= LINE_CAPACITY - 1 {
        return;
      }
      PutAtCursor(key);
      browsing := -1;
    }

    method PutAtCursor(key: char)
      requires LineOk() && length < MAX_TEXT && key != '\0'
      modifies this`length, this`cursor, buffer
      ensures LineOk() && cursor == old(cursor) + 1
      ensures buffer[..length] == old(buffer[..cursor]) + [key] + old(buffer[cursor..length])
    {
      ShiftRight();
      buffer[cursor] := key;
      cursor := cursor + 1;
      length := length + 1;
      buffer[length] := '\0';
      assert buffer[..length] == buffer[..cursor - 1] + [buffer[cursor - 1]] + buffer[cursor..length];
    }

    /** Make room at the cursor: the characters from there on move one place up. */
    method ShiftRight()
      requires buffer.Length == LINE_CAPACITY && cursor <= length < MAX_TEXT
      modifies buffer
      ensures buffer[..cursor] == old(buffer[..cursor])
      ensures buffer[cursor + 1..length + 1] == old(buffer[cursor..length])
    {
      var i := length;
      while i > cursor
        invariant cursor <= i <= length
        invariant forall j :: 0 <= j <= i ==> buffer[j] == old(buffer[j])
        invariant forall j :: i < j <= length ==> buffer[j] == old(buffer[j - 1])
      {
        buffer[i] := buffer[i - 1];
        i := i - 1;
      }
    }

    method DeleteCharacter()
      requires Valid()
      modifies this`length, this`browsing, buffer
      ensures Valid() && State() == Delete(old(State()))
    {
      DeleteOk(State());
      if cursor >= length {
        return;
      }
      CutAtCursor();
      browsing := -1;
    }

    method CutAtCursor()
      requires LineOk() && cursor < length
      modifies this`length, buffer
      ensures LineOk()
      ensures buffer[..length] == old(buffer[..cursor]) + old(buffer[cursor + 1..length])
    {
      ShiftLeft();
      length := length - 1;
      buffer[length] := '\0';
      assert buffer[..length] == buffer[..cursor] + buffer[cursor..length];
    }

    /** Close the gap at the cursor. */
    method ShiftLeft()
      requires buffer.Length == LINE_CAPACITY && cursor < length <= MAX_TEXT
      modifies buffer
      ensures buffer[..cursor] == old(buffer[..cursor])
      ensures buffer[cursor..length - 1] == old(buffer[cursor + 1..length])
    {
      ghost var before := buffer[..];
      var i := cursor;
      while i < length - 1
        invariant cursor <= i <= length - 1
        invariant forall j :: 0 <= j < cursor || i <= j < length ==> buffer[j] == before[j]
        invariant forall j :: cursor <= j < i ==> buffer[j] == before[j + 1]
      {
        buffer[i] := buffer[i + 1];
        i := i + 1;
      }
      assert buffer[..cursor] == before[..cursor];
      assert buffer[cursor..length - 1] == before[cursor + 1..length];
    }

    method BackspaceCharacter()
      requires Valid()
      modifies this`length, this`cursor, this`browsing, buffer
      ensures Valid() && State() == Backspace(old(State()))
    {
      if cursor == 0 {
        return;
      }
      CursorOk(State(), cursor - 1);
      cursor := cursor - 1;
      DeleteCharacter();
    }

    // -------------------------------------------------------------- history

    /** history_slot never leaves the ring, because a ring that is not full starts at slot 0. */
    method HistorySlot(index: nat) returns (slot: nat)
      requires RingOk() && index < count
      ensures slot < HISTORY_CAPACITY && slots[slot] == history[index]
    {
      assert next - count + index + HISTORY_CAPACITY >= 0;
      slot := (next - count + index + HISTORY_CAPACITY) % HISTORY_CAPACITY;
    }

    method RememberCommand()
      requires Valid()
      modifies this`next, this`count, this`history, slots
      ensures Valid() && State() == old(State()).(history := Remember(old(history), buffer[..length]))
    {
      EnterOk(State());
      if length == 0 {
        return;
      }
      var line := buffer[..length];
      PushSlot(line);
      assert State().text == line;
    }

    method PushSlot(line: string)
      requires RingOk() && line != ""
      modifies this`next, this`count, this`history, slots
      ensures RingOk() && history == Remember(old(history), line) && count >= old(count)
    {
      ghost var before, full := history, count == HISTORY_CAPACITY;
      slots[next] := line;
      var written := next;
      next := (next + 1) % HISTORY_CAPACITY;
      if count < HISTORY_CAPACITY {
        count := count + 1;
      }
      history := Remember(history, line);
      forall i | 0 <= i < count
        ensures slots[Slot(next, count, i)] == history[i]
      {
        SlotAfterPush(written, old(count), i);
        if i < count - 1 {
          assert history[i] == before[if full then i + 1 else i];
        }
      }
    }

    /** replace_line: copy the string into the line buffer and measure it. */
    method ReplaceLine(line: string)
      requires buffer.Length == LINE_CAPACITY && IsLine(line)
      modifies this`length, this`cursor, buffer
      ensures LineOk() && buffer[..length] == line && cursor == length
    {
      for i := 0 to |line|
        invariant buffer[..i] == line[..i]
      {
        buffer[i] := line[i];
      }
      buffer[|line|] := '\0';
      assert buffer[..|line|] == line;
      assert forall i :: 0 <= i < |line| ==> buffer[i] == line[i] != '\0';
      length := 0;
      while length < LINE_CAPACITY - 1 && buffer[length] != '\0'
        invariant length <= |line| && buffer[|line|] == '\0'
        invariant forall i :: 0 <= i < |line| ==> buffer[i] == line[i] != '\0'
      {
        length := length + 1;
      }
      assert buffer[..length] == line;
      cursor := length;
    }

    method HistoryUp()
      requires Valid()
      modifies this`length, this`cursor, this`browsing, this`saved, buffer
      ensures Valid() && State() == Up(old(State()))
      ensures old(count) > 0 ==>
                && cursor == length && saved == (if old(browsing) < 0 then old(buffer[..length]) else old(saved))
                && buffer[..length] == history[if old(browsing) < 0 then count - 1
                                               else if old(browsing) > 0 then old(browsing) - 1 else 0]
    {
      UpOk(State());
      if count == 0 {
        return;
      }
      if browsing < 0 {
        saved := buffer[..length];
        browsing := count - 1;
      } else if browsing > 0 {
        browsing := browsing - 1;
      }
      var slot := HistorySlot(browsing);
      ReplaceLine(slots[slot]);
    }

    method HistoryDown()
      requires Valid()
      modifies this`length, this`cursor, this`browsing, buffer
      ensures Valid() && State() == Down(old(State()))
      ensures old(browsing) >= 0 ==>
                && cursor == length
                && buffer[..length] == (if old(browsing) < count - 1 then history[old(browsing) + 1] else saved)
    {
      DownOk(State());
      if browsing < 0 {
        return;
      }
      if browsing < count - 1 {
        browsing := browsing + 1;
        var slot := HistorySlot(browsing);
        ReplaceLine(slots[slot]);
      } else {
        browsing := -1;
        ReplaceLine(saved);
      }
    }

    // -------------------------------------------------------------- scancodes

    method BeginNewLine()
      requires Valid()
      modifies this, buffer
      ensures Valid() && State() == BeginLine(old(State()))
    {
      length, cursor, ready, browsing := 0, 0, false, -1;
      buffer[0] := '\0';
    }

    method CursorToEnd()
      requires cursor <= length
      modifies this`cursor
      ensures cursor == length
    {
      while cursor < length
        invariant cursor <= length
      {
        cursor := cursor + 1;
      }
    }

    method CursorToStart()
      modifies this`cursor
      ensures cursor == 0
    {
      while cursor > 0 {
        cursor := cursor - 1;
      }
    }

    method TypeKey(key: char)
      requires Valid()
      modifies this, buffer, slots
      ensures Valid() && State() == Type(old(State()), key)
    {
      hide Insert, Backspace, Remember;
      if key == '\n' {
        SubmitLine();
      } else if key == BACKSPACE {
        BackspaceCharacter();
      } else if key != '\0' {
        InsertCharacter(key);
      }
    }

    method SubmitLine()
      requires Valid()
      modifies this, buffer, slots
      ensures Valid() && State() == Enter(old(State()))
    {
      hide Remember;
      CursorOk(State(), length);
      CursorToEnd();
      buffer[length] := '\0';
      RememberCommand();
      FlagsOk(State(), true, shift, extended);
      ready := true;
    }

    method MoveKey(scancode: nat)
      requires Valid()
      modifies this`length, this`cursor, this`browsing, this`saved, buffer
      ensures Valid() && State() == Move(old(State()), scancode)
    {
      MoveOk(State(), scancode);
      hide Up, Down, Delete;
      if scancode == 0x4B {
        if cursor > 0 {
          cursor := cursor - 1;
        }
      } else if scancode == 0x4D {
        if cursor < length {
          cursor := cursor + 1;
        }
      } else if scancode == 0x47 {
        CursorToStart();
      } else if scancode == 0x4F {
        CursorToEnd();
      } else if scancode == 0x48 {
        HistoryUp();
      } else if scancode == 0x50 {
        HistoryDown();
      } else if scancode == 0x53 {
        DeleteCharacter();
      }
    }

    /** keyboard_handler */
    method Handle(scancode: nat)
      requires Valid()
      modifies this, buffer, slots
      ensures Valid() && State() == Step(old(State()), scancode)
    {
      hide Move, Type, KeyOf, Shifted;
      StepOk(State(), scancode);
      if scancode == 0xE0 {
        extended := true;
        return;
      }
      if scancode == 0x2A || scancode == 0x36 {
        shift := true;
        return;
      }
      if scancode == 0xAA || scancode == 0xB6 {
        shift := false;
        return;
      }
      if scancode < 0x80 && !ready {
        if extended {
          MoveKey(scancode);
        } else {
          var key := KeyOf(scancode);
          if shift {
            key := Shifted(key);
          }
          TypeKey(key);
        }
      }
      extended := false;
    }
  }

  /** Where entry i of a ring with `count` entries lies when the next entry goes to slot `next`. */
  function Slot(next: nat, count: nat, i: nat): (slot: nat)
    requires next < HISTORY_CAPACITY && count <= HISTORY_CAPACITY && i < count
    ensures slot < HISTORY_CAPACITY
  {
    (next - count + i + HISTORY_CAPACITY) % HISTORY_CAPACITY
  }

  lemma SlotAfterPush(next: nat, count: nat, i: nat)
    requires next < HISTORY_CAPACITY && count <= HISTORY_CAPACITY
    requires count < HISTORY_CAPACITY ==> next == count
    requires i < (if count < HISTORY_CAPACITY then count + 1 else count)
    ensures var count' := if count < HISTORY_CAPACITY then count + 1 else count;
            var slot := Slot((next + 1) % HISTORY_CAPACITY, count', i);
            if i == count' - 1 then slot == next
            else slot != next && slot == Slot(next, count, if count == HISTORY_CAPACITY then i + 1 else i)
  {
  }
}
