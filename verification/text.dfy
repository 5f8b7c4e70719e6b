/** NUL-terminated text as the kernel handles it: bounded copies, bounded appends, numerals.
    A C string is modelled by its characters before the NUL. */
module Text {

  const U32 := 0x1_0000_0000
  const U64 := 0x1_0000_0000_0000_0000

  /** What a bounded copy into an array of `n + 1` characters keeps. */
  function Cut(s: string, n: nat): (t: string)
    ensures |t| <= n && t <= s
    ensures |s| <= n ==> t == s
  {
    if |s| <= n then s else s[..n]
  }

  lemma CutTwice(s: string, t: string, n: nat)
    ensures Cut(Cut(s, n) + t, n) == Cut(s + t, n)
  {
  }

  /** One character more, while there is room for it. */
  lemma CutPush(s: string, from: nat, to: nat, n: nat)
    requires from <= to < |s|
    ensures Cut(s[from..to + 1], n) ==
            if |Cut(s[from..to], n)| < n then Cut(s[from..to], n) + [s[to]] else Cut(s[from..to], n)
  {
    assert s[from..to + 1] == s[from..to] + [s[to]];
  }

  /** A slice of a suffix. */
  lemma SliceOfRest(s: string, from: nat, to: nat)
    requires from <= to <= |s|
    ensures s[from..][..to - from] == s[from..to] && s[from..][to - from..] == s[to..]
  {
  }

  /** Where the text that starts at `from` ends: its NUL, or the end of the memory at hand. */
  function NulAt(s: seq<char>, from: nat): (n: nat)
    requires from <= |s|
    ensures from <= n <= |s|
    ensures forall i :: from <= i < n ==> s[i] != '\0'
    ensures n < |s| ==> s[n] == '\0'
    decreases |s| - from
  {
    if from == |s| || s[from] == '\0' then from else NulAt(s, from + 1)
  }

  function TextFrom(s: seq<char>, from: nat): (t: string)
    requires from <= |s|
    ensures '\0' !in t
  {
    s[from..NulAt(s, from)]
  }

  lemma {:induction false} NulAtIs(s: seq<char>, from: nat, n: nat)
    requires from <= n <= |s|
    requires (forall i :: from <= i < n ==> s[i] != '\0') && (n < |s| ==> s[n] == '\0')
    ensures NulAt(s, from) == n
    decreases n - from
  {
    if from < n {
      NulAtIs(s, from + 1, n);
    }
  }

  lemma SameSlice(a: string, b: string, from: nat, to: nat)
    requires from <= to <= |a| == |b| && forall i :: from <= i < to ==> a[i] == b[i]
    ensures a[from..to] == b[from..to]
  {
  }

  lemma SliceOfSlice(s: string, from: nat, to: nat, end: nat)
    requires from <= to <= end <= |s|
    ensures s[from..end][..to - from] == s[from..to] && s[from..end][to - from..] == s[to..end]
  {
  }

  // ---------------------------------------------------------------- numerals

  predicate IsDigit(c: char) { '0' <= c <= '9' }

  function Digit(d: nat): (c: char)
    requires d < 10
    ensures IsDigit(c)
  {
    ('0' as int + d) as char
  }

  function DigitValue(c: char): (d: nat)
    requires IsDigit(c)
    ensures d < 10
  {
    c as int - '0' as int
  }

  predicate AllDigits(s: string) { forall i :: 0 <= i < |s| ==> IsDigit(s[i]) }

  /** The canonical decimal numeral. */
  function Decimal(n: nat): (s: string)
    ensures |s| > 0 && AllDigits(s)
  {
    if n < 10 then [Digit(n)] else Decimal(n / 10) + [Digit(n % 10)]
  }

  /** The number a string of digits denotes. */
  function Value(s: string): nat
    requires AllDigits(s)
  {
    if s == "" then 0 else 10 * Value(s[..|s| - 1]) + DigitValue(s[|s| - 1])
  }

  lemma {:induction false} ValueOfDecimal(n: nat)
    ensures Value(Decimal(n)) == n
  {
    if n >= 10 {
      ValueOfDecimal(n / 10);
      assert Decimal(n)[..|Decimal(n)| - 1] == Decimal(n / 10);
    }
  }

  function Pow10(k: nat): nat { if k == 0 then 1 else 10 * Pow10(k - 1) }

  lemma {:induction false} DecimalLength(n: nat, k: nat)
    requires k > 0 && n < Pow10(k)
    ensures |Decimal(n)| <= k
  {
    if n >= 10 {
      assert k > 1;
      DecimalLength(n / 10, k - 1);
    }
  }

  /** Ten digits are enough for 32 bits and twenty for 64. */
  lemma Widths()
    ensures U32 <= Pow10(10) && U64 <= Pow10(20)
    ensures Pow10(2) == 100
  {
    assert Pow10(5) == 100000;
    Pow10Sum(5, 5);
    Pow10Sum(10, 10);
  }

  lemma {:induction false} Pow10Sum(a: nat, b: nat)
    ensures Pow10(a + b) == Pow10(a) * Pow10(b)
  {
    if a > 0 {
      Pow10Sum(a - 1, b);
      assert Pow10(a + b) == 10 * Pow10(a - 1 + b);
    }
  }

  // ---------------------------------------------------------------- parsing

  /** How many leading characters are digits. */
  function DigitPrefix(s: string): (n: nat)
    ensures n <= |s| && AllDigits(s[..n])
    ensures n < |s| ==> !IsDigit(s[n])
  {
    if s == "" || !IsDigit(s[0]) then 0
    else
      var n := 1 + DigitPrefix(s[1..]);
      assert s[..n] == [s[0]] + s[1..][..n - 1];
      n
  }

  /** The two unsigned widths the kernel parses into. */
  predicate Width(modulus: nat) { modulus == U32 || modulus == U64 }

  /** parse_decimal: the leading digits, in unsigned arithmetic of the given modulus. */
  function ParsePrefix(s: string, modulus: nat): nat
    requires Width(modulus)
  {
    Value(s[..DigitPrefix(s)]) % modulus
  }

  /** parse_decimal64 and parse_id: 0 unless the text is digits and nothing else. */
  function ParseWhole(s: string, modulus: nat): nat
    requires Width(modulus)
  {
    if s != "" && AllDigits(s) then Value(s) % modulus else 0
  }

  lemma {:induction false} AllDigitsPrefix(s: string)
    requires AllDigits(s)
    ensures DigitPrefix(s) == |s|
  {
    if s != "" {
      AllDigitsPrefix(s[1..]);
    }
  }

  /** The loop all the number parsers share. */
  method ScanDigits(s: string, modulus: nat) returns (value: nat, digits: nat)
    requires Width(modulus)
    ensures digits == DigitPrefix(s) && value == ParsePrefix(s, modulus)
  {
    value, digits := 0, 0;
    while digits < |s| && IsDigit(s[digits])
      invariant digits <= |s| && AllDigits(s[..digits])
      invariant value == Value(s[..digits]) % modulus
    {
      assert s[..digits + 1][..digits] == s[..digits];
      StepModulo(Value(s[..digits]), DigitValue(s[digits]), modulus);
      value := (value * 10 + DigitValue(s[digits])) % modulus;
      digits := digits + 1;
    }
    PrefixIs(s, digits);
  }

  lemma {:induction false} PrefixIs(s: string, n: nat)
    requires n <= |s| && AllDigits(s[..n]) && (n < |s| ==> !IsDigit(s[n]))
    ensures DigitPrefix(s) == n
  {
    if n > 0 {
      assert s[..n][0] == s[0];
      assert s[1..][..n - 1] == s[..n][1..];
      PrefixIs(s[1..], n - 1);
    }
  }

  lemma StepModulo(v: nat, d: nat, modulus: nat)
    requires Width(modulus)
    ensures (v % modulus * 10 + d) % modulus == (v * 10 + d) % modulus
  {
    if modulus == U32 {
      Multiple32(v % U32 * 10 + d, v / U32 * 10);
    } else {
      Multiple64(v % U64 * 10 + d, v / U64 * 10);
    }
  }

  lemma Multiple32(a: nat, k: nat)
    ensures (a + k * U32) % U32 == a % U32
  {
  }

  lemma Multiple64(a: nat, k: nat)
    ensures (a + k * U64) % U64 == a % U64
  {
  }

  method ParseNumber(s: string, modulus: nat) returns (value: nat)
    requires Width(modulus)
    ensures value == ParseWhole(s, modulus)
  {
    var v, digits := ScanDigits(s, modulus);
    if digits == |s| && digits > 0 {
      assert s[..|s|] == s;
      return v;
    }
    if AllDigits(s) {
      AllDigitsPrefix(s);
    }
    return 0;
  }

  /** A printed number parses back to itself. */
  lemma ParseDecimal(n: nat, modulus: nat)
    requires Width(modulus) && n < modulus
    ensures ParseWhole(Decimal(n), modulus) == n
  {
    ValueOfDecimal(n);
  }

  // ---------------------------------------------------------------- bounded buffers

  /** A char array filled from the front: append_text and append_decimal work on it in place. */
  class TextBuffer {
    const data: array<char>
    var position: nat

    ghost predicate Valid()
      reads this, data
    {
      data.Length > 0 && position < data.Length && data[position] == '\0'
    }

    ghost function Contents(): string
      reads this, data
      requires Valid()
    {
      data[..position]
    }

    constructor (capacity: nat)
      requires capacity > 0
      ensures Valid() && fresh(data) && data.Length == capacity && Contents() == ""
    {
      data := new char[capacity](_ => '\0');
      position := 0;
    }

    method AppendText(text: string)
      requires Valid()
      modifies this`position, data
      ensures Valid() && Contents() == Cut(old(Contents()) + text, data.Length - 1)
    {
      ghost var before := data[..position];
      var i := 0;
      while i < |text| && position < data.Length - 1
        invariant i <= |text| && position < data.Length
        invariant data[..position] == before + text[..i]
      {
        data[position] := text[i];
        position, i := position + 1, i + 1;
      }
      data[position] := '\0';
      assert before + text[..i] == (before + text)[..position];
    }

    /** append_decimal with a digit buffer of `limit` characters. */
    method AppendDecimal(value: nat, limit: nat)
      requires Valid()
      requires (limit == 10 && value < U32) || (limit == 20 && value < U64)
      modifies this`position, data
      ensures Valid() && Contents() == Cut(old(Contents()) + Decimal(value), data.Length - 1)
    {
      if value == 0 {
        AppendText("0");
        return;
      }
      Widths();
      var digits := SplitDigits(value, limit);
      AppendReversed(digits);
    }

    method AppendReversed(digits: seq<char>)
      requires Valid()
      modifies this`position, data
      ensures Valid() && Contents() == Cut(old(Contents()) + Reverse(digits), data.Length - 1)
    {
      hide Cut, Reverse;
      var count: nat := |digits|;
      NoDigits(old(Contents()), digits, data.Length - 1);
      while count != 0
        invariant count <= |digits|
        invariant Valid() && Contents() == Cut(old(Contents()) + Reverse(digits[count..]), data.Length - 1)
      {
        count := count - 1;
        NextDigit(old(Contents()), digits, count, data.Length - 1);
        AppendText([digits[count]]);
      }
    }
  }

  /** copy_field and copy_text: a character at a time into an array of n + 1. */
  method CopyText(text: string, n: nat) returns (copy: string)
    ensures copy == Cut(text, n)
  {
    var buffer := new TextBuffer(n + 1);
    assert "" + text == text;
    buffer.AppendText(text);
    copy := buffer.data[..buffer.position];
  }

  /** The digits that a reverse-order digit buffer spells. */
  function Reverse(s: seq<char>): (r: seq<char>)
    ensures |r| == |s|
  {
    if s == [] then [] else Reverse(s[1..]) + [s[0]]
  }

  lemma ReverseStep(s: seq<char>, i: nat)
    requires i < |s|
    ensures Reverse(s[i..]) == Reverse(s[i + 1..]) + [s[i]]
  {
    assert s[i..][1..] == s[i + 1..];
  }

  lemma NoDigits(start: string, digits: seq<char>, n: nat)
    requires |start| <= n
    ensures digits[0..] == digits && digits[|digits|..] == []
    ensures Cut(start + Reverse([]), n) == start
  {
    assert start + [] == start;
  }

  lemma NextDigit(start: string, digits: seq<char>, i: nat, n: nat)
    requires i < |digits|
    ensures Cut(Cut(start + Reverse(digits[i + 1..]), n) + [digits[i]], n) == Cut(start + Reverse(digits[i..]), n)
  {
    ReverseStep(digits, i);
    CutTwice(start + Reverse(digits[i + 1..]), [digits[i]], n);
    assert start + Reverse(digits[i + 1..]) + [digits[i]] == start + (Reverse(digits[i + 1..]) + [digits[i]]);
  }

  lemma {:induction false} ReversePush(s: seq<char>, c: char)
    ensures Reverse(s + [c]) == [c] + Reverse(s)
  {
    if s != [] {
      assert (s + [c])[1..] == s[1..] + [c];
      ReversePush(s[1..], c);
    } else {
      assert s + [c] == [c];
    }
  }

  /** The digit loop of append_decimal: least significant digit first, never out of room. */
  method SplitDigits(value: nat, limit: nat) returns (digits: seq<char>)
    requires 0 < value < Pow10(limit)
    ensures Reverse(digits) == Decimal(value)
    ensures |digits| <= limit
  {
    digits := [];
    var v: nat := value;
    while v != 0 && |digits| < limit
      invariant |digits| <= limit && v < Pow10(limit - |digits|)
      invariant v == 0 ==> digits != []
      invariant Decimal(value) == if v == 0 then Reverse(digits) else Decimal(v) + Reverse(digits)
    {
      ReversePush(digits, Digit(v % 10));
      assert Decimal(v) + Reverse(digits) ==
             (if v < 10 then "" else Decimal(v / 10)) + ([Digit(v % 10)] + Reverse(digits));
      digits := digits + [Digit(v % 10)];
      v := v / 10;
    }
  }
}
