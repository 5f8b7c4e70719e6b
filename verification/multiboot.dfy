/** The Multiboot memory map (section 3.3 of the Multiboot Specification 0.6.96) and what it
    says about each page. */
module Multiboot {
  import opened Paging

  const U32 := 0x1_0000_0000
  const INFO_SIZE := 52               // sizeof(struct multiboot_info)

  type Byte = b: nat | b < 256

  /** The fields of struct multiboot_info that the kernel reads. */
  datatype Info = Info(flags: nat, mmapLength: nat, mmapAddr: nat)

  datatype Record = Record(base: nat, length: nat, kind: nat)

  function U32At(m: seq<Byte>, i: nat): (n: nat)
    requires i + 4 <= |m|
    ensures n < U32
  {
    var b0: int, b1: int, b2: int, b3: int := m[i], m[i + 1], m[i + 2], m[i + 3];
    b0 + 0x100 * b1 + 0x1_0000 * b2 + 0x100_0000 * b3
  }

  function U64At(m: seq<Byte>, i: nat): nat
    requires i + 8 <= |m|
  {
    U32At(m, i) + U32 * U32At(m, i + 4)
  }

  predicate EntryFits(m: seq<Byte>, offset: nat)
    requires offset <= |m|
  {
    && |m| - offset >= 24
    && 20 <= U32At(m, offset) <= |m| - offset - 4
  }

  function RecordAt(m: seq<Byte>, offset: nat): Record
    requires offset + 24 <= |m|
  {
    Record(U64At(m, offset + 4), U64At(m, offset + 12), U32At(m, offset + 20))
  }

  function NextOffset(m: seq<Byte>, offset: nat): nat
    requires offset + 4 <= |m|
  {
    offset + U32At(m, offset) + 4
  }

  datatype Parsed = Bad | Records(records: seq<Record>)

  function Cons(r: Record, rest: Parsed): Parsed {
    if rest.Bad? then Bad else Records([r] + rest.records)
  }

  /** The records from `offset` to the end of the map, or Bad when an entry does not fit. */
  function Parse(m: seq<Byte>, offset: nat): Parsed
    requires offset <= |m|
    decreases |m| - offset
  {
    if offset == |m| then Records([])
    else if !EntryFits(m, offset) then Bad
    else Cons(RecordAt(m, offset), Parse(m, NextOffset(m, offset)))
  }

  // ---------------------------------------------------------------- what a map says of a page

  predicate Inside(p: nat, base: nat, length: nat) {
    base <= p * PAGE_SIZE && (p + 1) * PAGE_SIZE <= base + length
  }

  predicate Overlaps(p: nat, base: nat, length: nat) {
    length != 0 && base < (p + 1) * PAGE_SIZE && p * PAGE_SIZE < base + length
  }

  predicate Allocable(p: nat) { FIRST_FRAME <= p < PAGE_COUNT }

  /** Page p lies wholly inside a type-1 record. */
  predicate Offered(records: seq<Record>, p: nat) {
    exists r :: r in records && r.kind == 1 && Inside(p, r.base, r.length)
  }

  /** Page p overlaps a non-empty record of another type. */
  predicate Claimed(records: seq<Record>, p: nat) {
    exists r :: r in records && r.kind != 1 && Overlaps(p, r.base, r.length)
  }

  datatype Span = Span(start: nat, end: nat)

  /** The loader, the kernel image, the boot stack, the boot information and the map itself.
      The two last ends are 32-bit sums. */
  function KernelSpans(infoAddress: nat, info: Info, textStart: nat, bssEnd: nat): seq<Span> {
    [Span(0x100000, 0x200000), Span(textStart, bssEnd), Span(0x2F0000, 0x300000),
     Span(infoAddress, (infoAddress + INFO_SIZE) % U32),
     Span(info.mmapAddr, (info.mmapAddr + info.mmapLength) % U32)]
  }

  predicate Covered(spans: seq<Span>, p: nat) {
    exists s :: s in spans && s.start < s.end && Overlaps(p, s.start, s.end - s.start)
  }

  function PagesInside(base: nat, length: nat): set<nat> {
    set p: nat | p < PAGE_COUNT && Allocable(p) && Inside(p, base, length)
  }

  function PagesOverlapping(base: nat, length: nat): set<nat> {
    set p: nat | p < PAGE_COUNT && Allocable(p) && Overlaps(p, base, length)
  }

  function OfferedPages(records: seq<Record>): set<nat> {
    set p: nat | p < PAGE_COUNT && Allocable(p) && Offered(records, p)
  }

  function ClaimedPages(records: seq<Record>): set<nat> {
    set p: nat | p < PAGE_COUNT && Allocable(p) && Claimed(records, p)
  }

  function CoveredPages(spans: seq<Span>): set<nat> {
    set p: nat | p < PAGE_COUNT && Allocable(p) && Covered(spans, p)
  }

  lemma OfferedPush(records: seq<Record>, r: Record)
    ensures OfferedPages(records + [r]) ==
            OfferedPages(records) + (if r.kind == 1 then PagesInside(r.base, r.length) else {})
  {
    forall p: nat
      ensures Offered(records + [r], p) <==> Offered(records, p) || (r.kind == 1 && Inside(p, r.base, r.length))
    {
      if r.kind == 1 && Inside(p, r.base, r.length) {
        assert r in records + [r];
      }
      if Offered(records, p) {
        var q :| q in records && q.kind == 1 && Inside(p, q.base, q.length);
        assert q in records + [r];
      }
    }
  }

  lemma ClaimedPush(records: seq<Record>, r: Record)
    ensures ClaimedPages(records + [r]) ==
            ClaimedPages(records) + (if r.kind != 1 then PagesOverlapping(r.base, r.length) else {})
  {
    forall p: nat
      ensures Claimed(records + [r], p) <==> Claimed(records, p) || (r.kind != 1 && Overlaps(p, r.base, r.length))
    {
      if r.kind != 1 && Overlaps(p, r.base, r.length) {
        assert r in records + [r];
      }
      if Claimed(records, p) {
        var q :| q in records && q.kind != 1 && Overlaps(p, q.base, q.length);
        assert q in records + [r];
      }
    }
  }

  lemma CoveredPush(spans: seq<Span>, s: Span)
    ensures CoveredPages(spans + [s]) ==
            CoveredPages(spans) + (if s.start < s.end then PagesOverlapping(s.start, s.end - s.start) else {})
  {
    forall p: nat
      ensures Covered(spans + [s], p) <==>
              Covered(spans, p) || (s.start < s.end && Overlaps(p, s.start, s.end - s.start))
    {
      if s.start < s.end && Overlaps(p, s.start, s.end - s.start) {
        assert s in spans + [s];
      }
      if Covered(spans, p) {
        var q :| q in spans && q.start < q.end && Overlaps(p, q.start, q.end - q.start);
        assert q in spans + [s];
      }
    }
  }

  /** When the map is usable at all. */
  predicate InfoValid(infoAddress: nat, info: Info) {
    && infoAddress != 0
    && info.flags / 64 % 2 == 1
    && info.mmapLength != 0
    && info.mmapAddr != 0
    && info.mmapAddr < PAGE_COUNT * PAGE_SIZE
    && info.mmapLength <= PAGE_COUNT * PAGE_SIZE - info.mmapAddr
  }

  /** The pages the allocator may hand out, by the map and the kernel's own ranges. */
  function UsablePages(records: seq<Record>, spans: seq<Span>): set<nat> {
    OfferedPages(records) - ClaimedPages(records) - CoveredPages(spans)
  }

  // ---------------------------------------------------------------- the same, by addresses

  /** The bytes from `start` up to `end` are some, and one of them is in page p. */
  predicate Meets(p: nat, start: nat, end: nat) { start < end && start < 0x1000 * p + 0x1000 && 0x1000 * p < end }

  /** Page p lies between 1 MiB and 1 GiB and wholly inside a type-1 record; no byte of it belongs to another
      record, the loader, the kernel image, the boot stack, the boot information or the memory map. */
  ghost predicate HandedOut(p: nat, records: seq<Record>, infoAddress: nat, info: Info, textStart: nat, bssEnd: nat) {
    && 0x100 <= p < 0x4_0000
    && (exists r :: r in records && r.kind == 1 && r.base <= 0x1000 * p && 0x1000 * p + 0x1000 <= r.base + r.length)
    && !(exists r :: r in records && r.kind != 1 && Meets(p, r.base, r.base + r.length))
    && !Meets(p, 0x10_0000, 0x20_0000)
    && !Meets(p, textStart, bssEnd)
    && !Meets(p, 0x2F_0000, 0x30_0000)
    && !Meets(p, infoAddress, infoAddress + 52)
    && !Meets(p, info.mmapAddr, info.mmapAddr + info.mmapLength)
  }

  lemma SpansByAddress(infoAddress: nat, info: Info, textStart: nat, bssEnd: nat, p: nat)
    requires InfoValid(infoAddress, info) && p < 0x4_0000
    ensures Covered(KernelSpans(infoAddress, info, textStart, bssEnd), p) <==>
            Meets(p, 0x10_0000, 0x20_0000) || Meets(p, textStart, bssEnd) || Meets(p, 0x2F_0000, 0x30_0000) ||
            Meets(p, infoAddress, infoAddress + 52) || Meets(p, info.mmapAddr, info.mmapAddr + info.mmapLength)
  {
    var spans := KernelSpans(infoAddress, info, textStart, bssEnd);
    assert forall s ::
      s in spans <==> s == spans[0] || s == spans[1] || s == spans[2] || s == spans[3] || s == spans[4];
    var last := (infoAddress + INFO_SIZE) % U32;
    assert infoAddress + INFO_SIZE < U32 ==> last == infoAddress + INFO_SIZE;
    assert infoAddress >= U32 ==> last < infoAddress;
    assert infoAddress < U32 <= infoAddress + INFO_SIZE ==> last == infoAddress + INFO_SIZE - U32;
  }

  lemma UsableByAddress(records: seq<Record>, infoAddress: nat, info: Info, textStart: nat, bssEnd: nat, p: nat)
    requires InfoValid(infoAddress, info)
    ensures p in UsablePages(records, KernelSpans(infoAddress, info, textStart, bssEnd)) <==>
            HandedOut(p, records, infoAddress, info, textStart, bssEnd)
  {
    if p < 0x4_0000 {
      SpansByAddress(infoAddress, info, textStart, bssEnd, p);
    }
    hide KernelSpans, Covered, InfoValid;
  }

  // ---------------------------------------------------------------- encoding

  /** The little-endian bytes of a 32-bit number. */
  function Le32(n: nat): (s: seq<Byte>)
    ensures |s| == 4
  {
    [n % 256, n / 0x100 % 256, n / 0x1_0000 % 256, n / 0x100_0000 % 256]
  }

  function LeWords(ns: seq<nat>): (s: seq<Byte>)
    ensures |s| == 4 * |ns|
  {
    if ns == [] then [] else Le32(ns[0]) + LeWords(ns[1..])
  }

  function Header(r: Record, padding: nat): seq<nat> {
    [20 + padding, r.base % U32, r.base / U32, r.length % U32, r.length / U32, r.kind]
  }

  /** One entry as a boot loader writes it: size, base, length and type, then `padding`. */
  function Encode(r: Record, padding: seq<Byte>): seq<Byte> {
    LeWords(Header(r, |padding|)) + padding
  }

  predicate Encodable(r: Record, padding: seq<Byte>) {
    r.base < U32 * U32 && r.length < U32 * U32 && r.kind < U32 && 20 + |padding| < U32
  }

  function EncodeAll(entries: seq<(Record, seq<Byte>)>): seq<Byte> {
    if entries == [] then [] else Encode(entries[0].0, entries[0].1) + EncodeAll(entries[1..])
  }

  lemma FourBytes(n: nat)
    requires n < U32
    ensures n == n % 256 + 0x100 * (n / 0x100 % 256) + 0x1_0000 * (n / 0x1_0000 % 256) +
                 0x100_0000 * (n / 0x100_0000 % 256)
  {
    assert n == n % 256 + 0x100 * (n / 0x100);
    assert n / 0x100 == n / 0x100 % 256 + 0x100 * (n / 0x1_0000);
    assert n / 0x1_0000 == n / 0x1_0000 % 256 + 0x100 * (n / 0x100_0000);
    assert n / 0x100_0000 < 256;
  }

  lemma Le32Value(n: nat, rest: seq<Byte>)
    requires n < U32
    ensures U32At(Le32(n) + rest, 0) == n
  {
    var m := Le32(n) + rest;
    assert m[0] == Le32(n)[0] && m[1] == Le32(n)[1] && m[2] == Le32(n)[2] && m[3] == Le32(n)[3];
    FourBytes(n);
  }

  lemma U32Shift(head: seq<Byte>, m: seq<Byte>, i: nat)
    requires i + 4 <= |m|
    ensures U32At(head + m, |head| + i) == U32At(m, i)
  {
  }

  lemma {:induction false} WordReadsBack(ns: seq<nat>, rest: seq<Byte>, i: nat)
    requires i < |ns| && ns[i] < U32
    ensures U32At(LeWords(ns) + rest, 4 * i) == ns[i]
  {
    var tail := LeWords(ns[1..]) + rest;
    assert LeWords(ns) + rest == Le32(ns[0]) + tail;
    hide Le32, U32At;
    if i == 0 {
      Le32Value(ns[0], tail);
    } else {
      WordReadsBack(ns[1..], rest, i - 1);
      U32Shift(Le32(ns[0]), tail, 4 * (i - 1));
    }
  }

  lemma EntryReadsBack(r: Record, padding: seq<Byte>, rest: seq<Byte>)
    requires Encodable(r, padding)
    ensures var m := Encode(r, padding) + rest;
            EntryFits(m, 0) && RecordAt(m, 0) == r && NextOffset(m, 0) == |Encode(r, padding)|
  {
    var ns := Header(r, |padding|);
    assert Encode(r, padding) + rest == LeWords(ns) + (padding + rest);
    hide LeWords, U32At;
    WordReadsBack(ns, padding + rest, 0);
    WordReadsBack(ns, padding + rest, 1);
    WordReadsBack(ns, padding + rest, 2);
    WordReadsBack(ns, padding + rest, 3);
    WordReadsBack(ns, padding + rest, 4);
    WordReadsBack(ns, padding + rest, 5);
  }

  /** Parsing from an offset sees only the bytes from that offset on. */
  lemma {:induction false} ParseSuffix(head: seq<Byte>, m: seq<Byte>, offset: nat)
    requires offset <= |m|
    ensures Parse(head + m, |head| + offset) == Parse(m, offset)
    decreases |m| - offset
  {
    hide U32At;
    if |m| - offset >= 24 {
      U32Shift(head, m, offset);
      U32Shift(head, m, offset + 4);
      U32Shift(head, m, offset + 8);
      U32Shift(head, m, offset + 12);
      U32Shift(head, m, offset + 16);
      U32Shift(head, m, offset + 20);
      if EntryFits(m, offset) {
        ParseSuffix(head, m, NextOffset(m, offset));
      }
    }
  }

  function RecordsOf(entries: seq<(Record, seq<Byte>)>): seq<Record> {
    if entries == [] then [] else [entries[0].0] + RecordsOf(entries[1..])
  }

  /** Every map a boot loader can write, whatever the padding of its entries, parses back to
      the records written. */
  lemma {:induction false} ParseEncodes(entries: seq<(Record, seq<Byte>)>)
    requires forall i :: 0 <= i < |entries| ==> Encodable(entries[i].0, entries[i].1)
    ensures Parse(EncodeAll(entries), 0) == Records(RecordsOf(entries))
  {
    if entries != [] {
      var first := Encode(entries[0].0, entries[0].1);
      var rest := EncodeAll(entries[1..]);
      EntryReadsBack(entries[0].0, entries[0].1, rest);
      hide Encode, EntryFits, RecordAt, NextOffset, Encodable;
      ParseEncodes(entries[1..]);
      ParseSuffix(first, rest, 0);
    }
  }

  // ---------------------------------------------------------------- and nothing else parses

  lemma LowByte(b: Byte, rest: nat)
    ensures (b + 0x100 * rest) % 0x100 == b && (b + 0x100 * rest) / 0x100 == rest
  {
  }

  lemma WordBytes(b0: Byte, b1: Byte, b2: Byte, b3: Byte)
    ensures var n: nat := b0 + 0x100 * b1 + 0x1_0000 * b2 + 0x100_0000 * b3;
            n % 0x100 == b0 && n / 0x100 % 0x100 == b1 && n / 0x1_0000 % 0x100 == b2 && n / 0x100_0000 % 0x100 == b3
  {
    LowByte(b0, b1 + 0x100 * b2 + 0x1_0000 * b3);
    LowByte(b1, b2 + 0x100 * b3);
    LowByte(b2, b3);
    var n: nat := b0 + 0x100 * b1 + 0x1_0000 * b2 + 0x100_0000 * b3;
    assert n == b0 + 0x100 * (b1 + 0x100 * b2 + 0x1_0000 * b3);
    Quotients(n);
  }

  lemma Quotients(n: nat)
    ensures n / 0x1_0000 == n / 0x100 / 0x100 && n / 0x100_0000 == n / 0x100 / 0x100 / 0x100
  {
  }

  lemma WordIsWritten(m: seq<Byte>, i: nat)
    requires i + 4 <= |m|
    ensures Le32(U32At(m, i)) == m[i..i + 4]
  {
    WordBytes(m[i], m[i + 1], m[i + 2], m[i + 3]);
  }

  /** The words from `i` on as they were written. */
  function WordsAt(m: seq<Byte>, i: nat, n: nat): seq<nat>
    requires i + 4 * n <= |m|
    decreases n
  {
    if n == 0 then [] else [U32At(m, i)] + WordsAt(m, i + 4, n - 1)
  }

  lemma {:induction false} WordsAreWritten(m: seq<Byte>, i: nat, n: nat)
    requires i + 4 * n <= |m|
    ensures LeWords(WordsAt(m, i, n)) == m[i..i + 4 * n]
    decreases n
  {
    hide Le32, U32At;
    if n > 0 {
      WordIsWritten(m, i);
      WordsAreWritten(m, i + 4, n - 1);
      assert WordsAt(m, i, n)[1..] == WordsAt(m, i + 4, n - 1);
      assert m[i..i + 4] + m[i + 4..i + 4 * n] == m[i..i + 4 * n];
    }
  }

  lemma HeaderIsWords(m: seq<Byte>, o: nat)
    requires o <= |m| && EntryFits(m, o)
    ensures Header(RecordAt(m, o), U32At(m, o) - 20) == WordsAt(m, o, 6)
  {
    hide U32At;
    assert WordsAt(m, o, 6) == [U32At(m, o), U32At(m, o + 4), U32At(m, o + 8), U32At(m, o + 12), U32At(m, o + 16),
                                U32At(m, o + 20)] by {
      SixWords(m, o);
    }
  }

  lemma SixWords(m: seq<Byte>, o: nat)
    requires o + 24 <= |m|
    ensures WordsAt(m, o, 6) == [U32At(m, o), U32At(m, o + 4), U32At(m, o + 8), U32At(m, o + 12), U32At(m, o + 16),
                                 U32At(m, o + 20)]
  {
    hide U32At;
    assert WordsAt(m, o + 12, 3) == [U32At(m, o + 12), U32At(m, o + 16), U32At(m, o + 20)] by {
      assert WordsAt(m, o + 20, 1) == [U32At(m, o + 20)];
    }
  }

  lemma EntryIsWritten(m: seq<Byte>, o: nat)
    requires o <= |m| && EntryFits(m, o)
    ensures var padding := m[o + 24..NextOffset(m, o)];
            && Encodable(RecordAt(m, o), padding)
            && Encode(RecordAt(m, o), padding) == m[o..NextOffset(m, o)]
  {
    hide U32At, LeWords, WordsAt, Header;
    HeaderIsWords(m, o);
    WordsAreWritten(m, o, 6);
    assert m[o..o + 24] + m[o + 24..NextOffset(m, o)] == m[o..NextOffset(m, o)];
  }

  ghost predicate AllEncodable(entries: seq<(Record, seq<Byte>)>) {
    forall i :: 0 <= i < |entries| ==> Encodable(entries[i].0, entries[i].1)
  }

  lemma {:induction false} ParsedIsWritten(m: seq<Byte>, o: nat) returns (entries: seq<(Record, seq<Byte>)>)
    requires o <= |m| && Parse(m, o).Records?
    ensures AllEncodable(entries) && EncodeAll(entries) == m[o..] && RecordsOf(entries) == Parse(m, o).records
    decreases |m| - o
  {
    hide Encode, Encodable;
    if o == |m| {
      entries := [];
    } else {
      EntryIsWritten(m, o);
      var next := NextOffset(m, o);
      var rest := ParsedIsWritten(m, next);
      var first := (RecordAt(m, o), m[o + 24..next]);
      entries := [first] + rest;
      assert entries[1..] == rest;
      assert m[o..next] + m[next..] == m[o..];
    }
  }

  /** A memory map parses exactly when it is a list of entries that can be written. */
  lemma ParsesExactlyEncodings(m: seq<Byte>)
    ensures Parse(m, 0).Records? <==> exists entries :: AllEncodable(entries) && EncodeAll(entries) == m
  {
    hide Parse;
    if Parse(m, 0).Records? {
      var entries := ParsedIsWritten(m, 0);
      assert m[0..] == m;
    }
    if entries :| AllEncodable(entries) && EncodeAll(entries) == m {
      ParseEncodes(entries);
    }
  }
}
