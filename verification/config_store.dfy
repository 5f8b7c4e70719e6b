/** The two entries of kernel/config.c: fixed keys, each with its value in a 48-byte buffer. */
module ConfigStore {
  import opened Text
  import opened EventRing
  import opened Ledger
  import opened Kernel

  const ENTRIES := 2

  function KeyAt(i: nat): string
    requires i < ENTRIES
  {
    if i == 0 then THEME else PROMPT
  }

  class ConfigStore {
    const theme: array<char>
    const prompt: array<char>

    ghost predicate Valid()
      reads this, theme, prompt
    {
      && theme != prompt && theme.Length == prompt.Length == LABEL + 1
      && NulAt(theme[..], 0) <= LABEL && NulAt(prompt[..], 0) <= LABEL
    }

    /** What the buffers say each key's value is. */
    ghost function Entries(): Config
      reads this, theme, prompt
    {
      map[THEME := TextFrom(theme[..], 0), PROMPT := TextFrom(prompt[..], 0)]
    }

    constructor ()
      ensures Valid() && fresh(theme) && fresh(prompt)
      ensures Entries() == map[THEME := "light", PROMPT := ">"]
    {
      theme := new char[LABEL + 1](_ => '\0');
      prompt := new char[LABEL + 1](_ => '\0');
      new;
      assert THEME != PROMPT;
      CopyValue(theme, "light");
      CopyValue(prompt, ">");
    }

    function Buffer(i: nat): array<char>
      requires i < ENTRIES
    {
      if i == 0 then theme else prompt
    }

    /** copy_value: a character at a time, at most 47 of them, and a NUL. */
    static method CopyValue(buffer: array<char>, value: string)
      requires buffer.Length == LABEL + 1 && '\0' !in value
      modifies buffer
      ensures NulAt(buffer[..], 0) <= LABEL && TextFrom(buffer[..], 0) == Cut(value, LABEL)
    {
      var i := 0;
      while i < LABEL && i < |value|
        invariant i <= LABEL && i <= |value|
        invariant buffer[..i] == value[..i]
      {
        buffer[i] := value[i];
        i := i + 1;
      }
      buffer[i] := '\0';
      assert forall j :: 0 <= j < i ==> buffer[j] == buffer[..i][j] == value[j];
      NulAtIs(buffer[..], 0, i);
      assert buffer[..][0..i] == value[..i];
    }

    /** find_entry */
    method FindEntry(key: string) returns (i: nat)
      requires Valid()
      ensures i <= ENTRIES && (i < ENTRIES ==> KeyAt(i) == key)
      ensures i == ENTRIES <==> key !in Entries()
    {
      i := 0;
      while i < ENTRIES && KeyAt(i) != key
        invariant i <= ENTRIES && forall j :: 0 <= j < i ==> KeyAt(j) != key
      {
        i := i + 1;
      }
      assert KeyAt(0) == THEME && KeyAt(1) == PROMPT;
    }

    /** config_get: the entry's buffer, read up to its NUL. */
    method Get(key: string) returns (value: Option<string>)
      requires Valid()
      ensures value == if key in Entries() then Some(Entries()[key]) else None
    {
      var i := FindEntry(key);
      if i == ENTRIES {
        return None;
      }
      var buffer := Buffer(i);
      var n := 0;
      while buffer[n] != '\0'
        invariant n <= NulAt(buffer[..], 0)
        decreases NulAt(buffer[..], 0) - n
      {
        n := n + 1;
      }
      return Some(buffer[..n]);
    }

    /** The part of config_set that stores: the key's buffer takes the value, cut to 47 characters, and the
        other key's keeps its own. */
    method Store(key: string, value: string) returns (stored: Option<string>)
      requires Valid() && '\0' !in value
      modifies theme, prompt
      ensures Valid()
      ensures stored.Some? <==> key in old(Entries())
      ensures stored.Some? ==> stored.value == Cut(value, LABEL)
      ensures Entries() == if stored.Some? then old(Entries())[key := Cut(value, LABEL)] else old(Entries())
    {
      hide NulAt, TextFrom, Cut;
      assert THEME != PROMPT;
      var i := FindEntry(key);
      if i == ENTRIES {
        return None;
      }
      CopyValue(Buffer(i), value);
      stored := Get(key);
    }
  }
}
