/**
 * Byte buffers and the little-endian DataView setters the WAV writer uses.
 * An ArrayBuffer is an `array<Byte>`; `new DataView(buffer)` is the same array,
 * and each `view.setX(offset, value, true)` call is a method that overwrites
 * the bytes at `offset` and leaves every other byte unchanged.
 */
module Bytes {

  type Byte = b: int | 0 <= b < 256

  function Pow256(n: nat): (p: nat)
    ensures p >= 1
  {
    if n == 0 then 1 else 256 * Pow256(n - 1)
  }

  /** The `width` low-order bytes of v, least significant first. */
  function LittleEndian(v: nat, width: nat): (r: seq<Byte>)
    ensures |r| == width
  {
    if width == 0 then [] else [v % 256] + LittleEndian(v / 256, width - 1)
  }

  /** The unsigned value a little-endian byte string stands for. */
  function DecodeLE(b: seq<Byte>): (v: nat)
    ensures v < Pow256(|b|)
  {
    if b == [] then 0 else b[0] + 256 * DecodeLE(b[1..])
  }

  /** Writing a value that fits and reading it back gives the value. */
  lemma {:induction false} LittleEndianRoundTrip(v: nat, width: nat)
    requires v < Pow256(width)
    ensures DecodeLE(LittleEndian(v, width)) == v
  {
    if width > 0 {
      var r := LittleEndian(v, width);
      assert r[1..] == LittleEndian(v / 256, width - 1);
      LittleEndianRoundTrip(v / 256, width - 1);
    }
  }

  /** A byte string is determined by the value it decodes to. */
  lemma {:induction false} DecodeLEInjective(a: seq<Byte>, b: seq<Byte>)
    requires |a| == |b| && DecodeLE(a) == DecodeLE(b)
    ensures a == b
  {
    if a != [] {
      assert a[0] == DecodeLE(a) % 256 && b[0] == DecodeLE(b) % 256;
      DecodeLEInjective(a[1..], b[1..]);
      assert a == [a[0]] + a[1..] && b == [b[0]] + b[1..];
    }
  }

  /** s with the bytes from `offset` on replaced by b. */
  function Splice(s: seq<Byte>, offset: nat, b: seq<Byte>): (r: seq<Byte>)
    requires offset + |b| <= |s|
    ensures |r| == |s|
  {
    s[..offset] + b + s[offset + |b|..]
  }

  /**
   * After a write at the end of a known prefix p + q, the prefix is p followed
   * by q and the bytes written.
   */
  lemma SpliceExtends(s: seq<Byte>, offset: nat, b: seq<Byte>, p: seq<Byte>, q: seq<Byte>)
    requires offset + |b| <= |s| && |p| + |q| == offset && s[..offset] == p + q
    ensures Splice(s, offset, b)[..offset + |b|] == p + (q + b)
  {
    assert Splice(s, offset, b)[..offset + |b|] == s[..offset] + b;
  }

  /** Two writes side by side are one write of both byte strings. */
  lemma SpliceTwice(s: seq<Byte>, offset: nat, a: seq<Byte>, b: seq<Byte>)
    requires offset + |a| + |b| <= |s|
    ensures Splice(Splice(s, offset, a), offset + |a|, b) == Splice(s, offset, a + b)
  {
    var t := Splice(s, offset, a);
    assert t[..offset + |a|] == s[..offset] + a;
    assert t[offset + |a| + |b|..] == s[offset + |a| + |b|..];
  }

  /** JavaScript's ToUint32 on an integer: reduction modulo 2^32. */
  function ToUint32(v: int): (r: nat)
    ensures r < 0x1_0000_0000
    ensures 0 <= v < 0x1_0000_0000 ==> r == v
  {
    v % 0x1_0000_0000
  }

  method SetUint8(view: array<Byte>, offset: nat, value: int)
    requires offset < view.Length
    modifies view
    ensures view[..] == Splice(old(view[..]), offset, [value % 256])
  {
    view[offset] := value % 256;
  }

  method SetUint16(view: array<Byte>, offset: nat, value: int)
    requires offset + 2 <= view.Length
    modifies view
    ensures view[..] == Splice(old(view[..]), offset, LittleEndian(value % 0x1_0000, 2))
  {
    var u := value % 0x1_0000;
    view[offset] := u % 256;
    view[offset + 1] := u / 256;
    assert LittleEndian(u, 2) == [u % 256, u / 256 % 256];
  }

  method SetUint32(view: array<Byte>, offset: nat, value: int)
    requires offset + 4 <= view.Length
    modifies view
    ensures view[..] == Splice(old(view[..]), offset, LittleEndian(ToUint32(value), 4))
  {
    var u := ToUint32(value);
    var q1 := u / 256;
    var q2 := q1 / 256;
    var q3 := q2 / 256;
    view[offset] := u % 256;
    view[offset + 1] := q1 % 256;
    view[offset + 2] := q2 % 256;
    view[offset + 3] := q3 % 256;
    assert LittleEndian(q3, 1) == [q3 % 256];
    assert LittleEndian(q2, 2) == [q2 % 256, q3 % 256];
    assert LittleEndian(q1, 3) == [q1 % 256, q2 % 256, q3 % 256];
  }

  /** Rounding toward zero, as ECMAScript's ToIntegerOrInfinity does for finite numbers. */
  function Truncate(v: real): (r: int)
    ensures v >= 0.0 ==> 0 <= r && r as real <= v < r as real + 1.0
    ensures v < 0.0 ==> r <= 0 && r as real - 1.0 < v <= r as real
  {
    if v >= 0.0 then v.Floor else -((-v).Floor)
  }

  /**
   * JavaScript's ToInt16 on a finite number: truncate, then wrap into
   * [-2^15, 2^15) modulo 2^16.
   */
  function ToInt16(v: real): (r: int)
    ensures -0x8000 <= r < 0x8000
    ensures (Truncate(v) - r) % 0x1_0000 == 0
    ensures -0x8000 <= Truncate(v) < 0x8000 ==> r == Truncate(v)
  {
    var u := Truncate(v) % 0x1_0000;
    if u >= 0x8000 then u - 0x1_0000 else u
  }

  /** Reads a little-endian two's-complement 16-bit value (DataView.getInt16). */
  function DecodeInt16(b: seq<Byte>): (v: int)
    requires |b| == 2
    ensures -0x8000 <= v < 0x8000
  {
    var u := DecodeLE(b);
    if u >= 0x8000 then u - 0x1_0000 else u
  }

  /** Every 16-bit value survives being stored in two bytes and read back. */
  lemma Int16RoundTrip(v: int)
    requires -0x8000 <= v < 0x8000
    ensures DecodeInt16(LittleEndian(v % 0x1_0000, 2)) == v
  {
    LittleEndianRoundTrip(v % 0x1_0000, 2);
  }

  method SetInt16(view: array<Byte>, offset: nat, value: real)
    requires offset + 2 <= view.Length
    modifies view
    ensures view[..] == Splice(old(view[..]), offset, LittleEndian(ToInt16(value) % 0x1_0000, 2))
  {
    var u := ToInt16(value) % 0x1_0000;
    view[offset] := u % 256;
    view[offset + 1] := u / 256;
    assert LittleEndian(u, 2) == [u % 256, u / 256 % 256];
  }
}
