/** Byte-packed page bitmaps: one bit for each 4 KiB page. */
module Bitmaps {

  /** 1 << k */
  function Mask(k: nat): bv8
    requires k < 8
  {
    match k
    case 0 => 0x01 case 1 => 0x02 case 2 => 0x04 case 3 => 0x08
    case 4 => 0x10 case 5 => 0x20 case 6 => 0x40 case _ => 0x80
  }

  predicate Bit(b: bv8, k: nat)
    requires k < 8
  {
    b & Mask(k) != 0
  }

  lemma ByteSet(b: bv8, k: nat, j: nat)
    requires k < 8 && j < 8
    ensures Bit(b | Mask(k), j) == (j == k || Bit(b, j))
  {
  }

  lemma ByteCleared(b: bv8, k: nat, j: nat)
    requires k < 8 && j < 8
    ensures Bit(b & !Mask(k), j) == (j != k && Bit(b, j))
  {
  }

  predicate IsSet(bits: seq<bv8>, page: nat)
    requires page < 8 * |bits|
  {
    Bit(bits[page / 8], page % 8)
  }

  /** The pages whose bit is set. */
  function Pages(bits: seq<bv8>): set<nat> {
    set p: nat | p < 8 * |bits| && IsSet(bits, p)
  }

  function With(bits: seq<bv8>, page: nat): seq<bv8>
    requires page < 8 * |bits|
  {
    bits[page / 8 := bits[page / 8] | Mask(page % 8)]
  }

  function Without(bits: seq<bv8>, page: nat): seq<bv8>
    requires page < 8 * |bits|
  {
    bits[page / 8 := bits[page / 8] & !Mask(page % 8)]
  }

  /** Setting or clearing one bit changes the membership of that page and of no other. */
  lemma UpdateChangesOnePage(bits: seq<bv8>, page: nat)
    requires page < 8 * |bits|
    ensures Pages(With(bits, page)) == Pages(bits) + {page}
    ensures Pages(Without(bits, page)) == Pages(bits) - {page}
  {
    forall p: nat | p < 8 * |bits|
      ensures IsSet(With(bits, page), p) == (p == page || IsSet(bits, p))
      ensures IsSet(Without(bits, page), p) == (p != page && IsSet(bits, p))
    {
      if p / 8 == page / 8 {
        ByteSet(bits[page / 8], page % 8, p % 8);
        ByteCleared(bits[page / 8], page % 8, p % 8);
        hide Bit, Mask;
        assert p == page <==> p % 8 == page % 8;
      }
    }
  }

  method Set(a: array<bv8>, page: nat)
    requires page < 8 * a.Length
    modifies a
    ensures Pages(a[..]) == old(Pages(a[..])) + {page}
  {
    UpdateChangesOnePage(a[..], page);
    ghost var before := a[..];
    a[page / 8] := a[page / 8] | Mask(page % 8);
    assert a[..] == With(before, page);
  }

  method Clear(a: array<bv8>, page: nat)
    requires page < 8 * a.Length
    modifies a
    ensures Pages(a[..]) == old(Pages(a[..])) - {page}
  {
    UpdateChangesOnePage(a[..], page);
    ghost var before := a[..];
    a[page / 8] := a[page / 8] & !Mask(page % 8);
    assert a[..] == Without(before, page);
  }

  method Test(a: array<bv8>, page: nat) returns (set_: bool)
    requires page < 8 * a.Length
    ensures set_ <==> page in Pages(a[..])
  {
    set_ := a[page / 8] & Mask(page % 8) != 0;
    assert set_ == IsSet(a[..], page);
  }

  method Fill(a: array<bv8>, value: bv8)
    requires value == 0 || value == 0xFF
    modifies a
    ensures forall p: nat :: p in Pages(a[..]) <==> value == 0xFF && p < 8 * a.Length
  {
    for i := 0 to a.Length
      invariant forall j :: 0 <= j < i ==> a[j] == value
    {
      a[i] := value;
    }
    forall p: nat | p < 8 * a.Length
      ensures IsSet(a[..], p) == (value == 0xFF)
    {
      FullByte(p % 8);
      assert a[..][p / 8] == value;
    }
  }

  lemma FullByte(k: nat)
    requires k < 8
    ensures Bit(0xFF, k) && !Bit(0, k)
  {
  }
}
