/** Bytes, little-endian words and UTF-8 validity. */
module Bytes {
  newtype byte = x: int | 0 <= x < 256

  type u32 = x: int | 0 <= x < 0x1_0000_0000
  type u16 = x: int | 0 <= x < 0x1_0000

  function Le16(b: seq<byte>, at: nat): u16
    requires at + 2 <= |b|
  {
    b[at] as int + 0x100 * b[at + 1] as int
  }

  function Le32(b: seq<byte>, at: nat): u32
    requires at + 4 <= |b|
  {
    b[at] as int + 0x100 * b[at + 1] as int + 0x1_0000 * b[at + 2] as int + 0x100_0000 * b[at + 3] as int
  }

  lemma WordHasBytes(x: u32)
    ensures exists r: seq<byte> :: |r| == 4 && Le32(r, 0) == x
  {
    var y := x / 0x100;
    var z := y / 0x100;
    var t := z / 0x100;
    assert x == x % 0x100 + 0x100 * y && y == y % 0x100 + 0x100 * z && z == z % 0x100 + 0x100 * t;
    var r := [(x % 0x100) as byte, (y % 0x100) as byte, (z % 0x100) as byte, t as byte];
    assert Le32(r, 0) == x;
  }

  /** The four bytes of a word, low byte first. */
  ghost function Bytes32(x: u32): (r: seq<byte>)
    ensures |r| == 4 && Le32(r, 0) == x
  {
    WordHasBytes(x);
    var r: seq<byte> :| |r| == 4 && Le32(r, 0) == x;
    r
  }

  ghost function Words(ws: seq<u32>): (r: seq<byte>)
    ensures |r| == 4 * |ws|
  {
    if ws == [] then [] else Bytes32(ws[0]) + Words(ws[1..])
  }

  lemma ReadShifts(a: seq<byte>, b: seq<byte>, k: nat)
    requires k + 4 <= |b|
    ensures Le32(a + b, |a| + k) == Le32(b, k)
    ensures Le16(a + b, |a| + k) == Le16(b, k)
  {
  }

  lemma ReadFront(a: seq<byte>, b: seq<byte>, k: nat)
    requires k + 4 <= |a|
    ensures Le32(a + b, k) == Le32(a, k)
    ensures Le16(a + b, k) == Le16(a, k)
  {
  }

  lemma LowHalf(b: seq<byte>, k: nat)
    requires k + 4 <= |b|
    ensures Le16(b, k) == Le32(b, k) % 0x1_0000
  {
  }

  lemma LowPart(low: u16, high: u16)
    ensures (low + 0x1_0000 * high) % 0x1_0000 == low
  {
  }

  lemma {:induction false} WordAt(ws: seq<u32>, i: nat)
    requires i < |ws|
    ensures Le32(Words(ws), 4 * i) == ws[i]
    decreases |ws|
  {
    if i == 0 {
      ReadFront(Bytes32(ws[0]), Words(ws[1..]), 0);
    } else {
      WordAt(ws[1..], i - 1);
      ReadShifts(Bytes32(ws[0]), Words(ws[1..]), 4 * (i - 1));
    }
  }

  function Zeros(n: nat): (r: seq<byte>)
    ensures |r| == n && forall i :: 0 <= i < n ==> r[i] == 0
  {
    seq(n, _ => 0)
  }

  predicate Tail(x: byte) {
    0x80 <= x <= 0xBF
  }

  /** Width of the UTF-8 encoded character at the front, or 0 if there is none. */
  function Utf8Width(b: seq<byte>): (w: nat)
    ensures w <= 4 && w <= |b|
  {
    if b == [] then 0
    else
      var x := b[0];
      if x <= 0x7F then 1
      else if 0xC2 <= x <= 0xDF then if |b| >= 2 && Tail(b[1]) then 2 else 0
      else if 0xE0 <= x <= 0xEF then
        if |b| >= 3 && Tail(b[1]) && Tail(b[2]) && (x == 0xE0 ==> b[1] >= 0xA0) && (x == 0xED ==> b[1] <= 0x9F) then 3 else 0
      else if 0xF0 <= x <= 0xF4 then
        if |b| >= 4 && Tail(b[1]) && Tail(b[2]) && Tail(b[3]) && (x == 0xF0 ==> b[1] >= 0x90) && (x == 0xF4 ==> b[1] <= 0x8F)
        then 4 else 0
      else 0
  }

  predicate ValidUtf8(b: seq<byte>)
    decreases |b|
  {
    b == [] || (Utf8Width(b) > 0 && ValidUtf8(b[Utf8Width(b)..]))
  }

  lemma WidthOfConcat(a: seq<byte>, b: seq<byte>)
    requires Utf8Width(a) > 0
    ensures Utf8Width(a + b) == Utf8Width(a)
  {
    assert forall i :: 0 <= i < |a| ==> (a + b)[i] == a[i];
  }

  lemma {:induction false} ValidConcat(a: seq<byte>, b: seq<byte>)
    requires ValidUtf8(a) && ValidUtf8(b)
    ensures ValidUtf8(a + b)
    decreases |a|
  {
    if a == [] {
      assert a + b == b;
    } else {
      var w := Utf8Width(a);
      WidthOfConcat(a, b);
      assert (a + b)[w..] == a[w..] + b;
      ValidConcat(a[w..], b);
    }
  }

  lemma {:induction false} AsciiIsValid(b: seq<byte>)
    requires forall i :: 0 <= i < |b| ==> b[i] <= 0x7F
    ensures ValidUtf8(b)
    decreases |b|
  {
    if b != [] { AsciiIsValid(b[1..]); }
  }
}
