/**
 * Bytes and fixed-width integers as the Rust `bytes` crate reads and writes
 * them: big-endian (`get_u32`, `put_u16`, ...) and little-endian
 * (`get_u16_le`, `from_le_bytes`) encodings, two's complement, and the ASCII
 * text the packet builders emit.
 */
module Bytes {
  import opened Wrappers

  type byte = b: int | 0 <= b < 256

  /** 256 to the power n: the number of values an n-byte integer can hold. */
  function Pow256(n: nat): (p: nat)
    ensures p >= 1
  {
    if n == 0 then 1 else 256 * Pow256(n - 1)
  }

  /** The unsigned value of a big-endian byte string. */
  function FromBE(s: seq<byte>): (n: nat)
    ensures n < Pow256(|s|)
  {
    if s == [] then 0 else FromBE(s[..|s| - 1]) * 256 + s[|s| - 1]
  }

  /** The `width`-byte big-endian representation of n (`put_u16`, `put_u32`). */
  function ToBE(n: nat, width: nat): (s: seq<byte>)
    requires n < Pow256(width)
    ensures |s| == width
  {
    if width == 0 then [] else ToBE(n / 256, width - 1) + [n % 256]
  }

  lemma {:induction false} FromToBE(n: nat, width: nat)
    requires n < Pow256(width)
    ensures FromBE(ToBE(n, width)) == n
  {
    if width > 0 {
      var s := ToBE(n, width);
      assert s[..|s| - 1] == ToBE(n / 256, width - 1);
      FromToBE(n / 256, width - 1);
    }
  }

  /** A 16-bit value in two bytes, high byte first. */
  lemma ToBE16(n: nat)
    requires n < 0x1_0000
    ensures ToBE(n, 2) == [n / 256, n % 256]
  {
    var w: nat := 2;
    assert Pow256(w) == 0x1_0000;
    assert ToBE(n, w) == ToBE(n / 256, 1) + [n % 256];
    assert ToBE(n / 256, 1) == ToBE(n / 256 / 256, 0) + [n / 256 % 256];
  }

  /** The unsigned value of a little-endian byte string. */
  function FromLE(s: seq<byte>): (n: nat)
    ensures n < Pow256(|s|)
  {
    if s == [] then 0 else s[0] + 256 * FromLE(s[1..])
  }

  /** The `width`-byte little-endian representation of n. */
  function ToLE(n: nat, width: nat): (s: seq<byte>)
    requires n < Pow256(width)
    ensures |s| == width
  {
    if width == 0 then [] else [n % 256] + ToLE(n / 256, width - 1)
  }

  /** A zero high byte does not change a little-endian value (`from_le_bytes` of a zero-padded id). */
  lemma {:induction false} FromLEZeroPad(s: seq<byte>)
    ensures FromLE(s + [0]) == FromLE(s)
  {
    if s != [] {
      assert (s + [0])[1..] == s[1..] + [0];
      FromLEZeroPad(s[1..]);
    }
  }

  lemma {:induction false} FromToLE(n: nat, width: nat)
    requires n < Pow256(width)
    ensures FromLE(ToLE(n, width)) == n
  {
    if width > 0 {
      var s := ToLE(n, width);
      assert s[1..] == ToLE(n / 256, width - 1);
      FromToLE(n / 256, width - 1);
    }
  }

  /** The value of an unsigned integer of `width` bytes read as two's complement. */
  function Signed(u: nat, width: nat): (i: int)
    requires 0 < width && u < Pow256(width)
    ensures -((Pow256(width) / 2) as int) <= i < Pow256(width) / 2
    ensures i == u || i + Pow256(width) == u
  {
    Pow256Even(width);
    if u < Pow256(width) / 2 then u else u - Pow256(width)
  }

  /** The two's complement bit pattern of i in `width` bytes. */
  function Unsigned(i: int, width: nat): (u: nat)
    requires 0 < width && -((Pow256(width) / 2) as int) <= i < Pow256(width) / 2
    ensures u < Pow256(width)
    ensures Signed(u, width) == i
  {
    Pow256Even(width);
    if i >= 0 then i else i + Pow256(width)
  }

  lemma Pow256Even(width: nat)
    requires width > 0
    ensures Pow256(width) % 2 == 0 && Pow256(width) >= 256
  {
    if width > 1 { Pow256Even(width - 1); }
  }

  /** The bytes of an ASCII string literal (`str::as_bytes` on ASCII text). */
  function Ascii(s: string): (b: seq<byte>)
    requires forall i :: 0 <= i < |s| ==> s[i] as int < 128
    ensures |b| == |s|
    ensures forall i :: 0 <= i < |s| ==> b[i] == s[i] as int
  {
    if s == [] then [] else [s[0] as int] + Ascii(s[1..])
  }

  lemma {:induction false} AsciiAppend(s: string, t: string)
    requires forall i :: 0 <= i < |s| ==> s[i] as int < 128
    requires forall i :: 0 <= i < |t| ==> t[i] as int < 128
    ensures Ascii(s + t) == Ascii(s) + Ascii(t)
  {
    var l, r := Ascii(s + t), Ascii(s) + Ascii(t);
    assert |l| == |r|;
    forall i | 0 <= i < |l| ensures l[i] == r[i] {
      if i < |s| { assert (s + t)[i] == s[i]; } else { assert (s + t)[i] == t[i - |s|]; }
    }
  }

  /** The digits of n in octal or decimal, most significant first, as ASCII. */
  function Digits(n: nat, radix: nat): (s: seq<byte>)
    requires radix == 8 || radix == 10
    ensures |s| >= 1
    ensures forall i :: 0 <= i < |s| ==> '0' as int <= s[i] < '0' as int + radix
    decreases n
  {
    if n < radix then [n + '0' as int]
    else Digits(n / radix, radix) + [n % radix + '0' as int]
  }

  /** The value of a string of ASCII digits in base `radix`. */
  function DigitValue(s: seq<byte>, radix: nat): nat
    requires radix == 8 || radix == 10
    requires forall i :: 0 <= i < |s| ==> '0' as int <= s[i] < '0' as int + radix
  {
    if s == [] then 0 else DigitValue(s[..|s| - 1], radix) * radix + (s[|s| - 1] - '0' as int)
  }

  /** Formatting a number (`{}` in decimal, `{:o}` in octal) loses nothing. */
  lemma {:induction false} DigitsRoundTrip(n: nat, radix: nat)
    requires radix == 8 || radix == 10
    ensures DigitValue(Digits(n, radix), radix) == n
    decreases n
  {
    if n >= radix {
      var q, d := n / radix, n % radix;
      var t := Digits(q, radix);
      assert Digits(n, radix) == t + [d + '0' as int];
      DigitsRoundTrip(q, radix);
      DigitSnoc(t, d + '0' as int, radix);
      DivMod(n, radix);
    }
  }

  /** The value of digits with one more digit at the end. */
  lemma DigitSnoc(t: seq<byte>, c: byte, radix: nat)
    requires radix == 8 || radix == 10
    requires forall i :: 0 <= i < |t| ==> '0' as int <= t[i] < '0' as int + radix
    requires '0' as int <= c < '0' as int + radix
    ensures DigitValue(t + [c], radix) == DigitValue(t, radix) * radix + (c - '0' as int)
  {
    assert (t + [c])[..|t|] == t;
  }

  lemma DivMod(n: nat, radix: nat)
    requires radix == 8 || radix == 10
    ensures n == (n / radix) * radix + n % radix
  {
  }

  /** The index of the first occurrence of x in s (`iter().position`). */
  function FirstIndex(s: seq<byte>, x: byte): (r: Option<nat>)
    ensures r.None? <==> x !in s
    ensures r.Some? ==> r.value < |s| && s[r.value] == x && x !in s[..r.value]
  {
    if s == [] then None
    else if s[0] == x then Some(0)
    else
      var r := FirstIndex(s[1..], x);
      assert s == [s[0]] + s[1..];
      if r.None? then None
      else
        assert s[..r.value + 1] == [s[0]] + s[1..][..r.value];
        Some(r.value + 1)
  }

  /** The index of the last occurrence of x in s (`iter().rposition`). */
  function LastIndex(s: seq<byte>, x: byte): (r: Option<nat>)
    ensures r.None? <==> x !in s
    ensures r.Some? ==> r.value < |s| && s[r.value] == x && x !in s[r.value + 1..]
  {
    if s == [] then None
    else if s[|s| - 1] == x then Some(|s| - 1)
    else
      assert s == s[..|s| - 1] + [s[|s| - 1]];
      var r := LastIndex(s[..|s| - 1], x);
      if r.None? then None
      else
        assert s[r.value + 1..] == s[..|s| - 1][r.value + 1..] + [s[|s| - 1]];
        r
  }

  /** A byte that does not occur in a prefix is first found after it. */
  lemma {:induction false} FirstIndexAfter(junk: seq<byte>, s: seq<byte>, x: byte)
    requires x !in junk
    ensures FirstIndex(s, x).None? ==> FirstIndex(junk + s, x).None?
    ensures FirstIndex(s, x).Some? ==> FirstIndex(junk + s, x) == Some(|junk| + FirstIndex(s, x).value)
    decreases |junk|
  {
    if junk == [] {
      assert junk + s == s;
    } else {
      var t := junk + s;
      assert t[0] == junk[0];
      assert t[1..] == junk[1..] + s;
      assert x !in junk[1..] by { assert forall y :: y in junk[1..] ==> y in junk; }
      FirstIndexAfter(junk[1..], s, x);
      FirstIndexSkip(t, x);
    }
  }

  /** Past a first element other than x, the search goes on one further along. */
  lemma FirstIndexSkip(t: seq<byte>, x: byte)
    requires |t| > 0 && t[0] != x
    ensures FirstIndex(t, x).None? <==> FirstIndex(t[1..], x).None?
    ensures FirstIndex(t[1..], x).Some? ==> FirstIndex(t, x) == Some(FirstIndex(t[1..], x).value + 1)
  {
  }

  /** The first occurrence is the only one with no occurrence before it. */
  lemma {:induction false} FirstIndexAt(s: seq<byte>, x: byte, i: nat)
    requires i < |s| && s[i] == x && x !in s[..i]
    ensures FirstIndex(s, x) == Some(i)
  {
    if i > 0 {
      assert s[..i][0] == s[0];
      assert s[1..][..i - 1] == s[1..i];
      assert forall j :: 1 <= j < i ==> s[1..i][j - 1] == s[..i][j];
      FirstIndexAt(s[1..], x, i - 1);
    }
  }

  /** `iter().position(|&b| b == x)`, scanning from the front. */
  method Position(s: seq<byte>, x: byte) returns (r: Option<nat>)
    ensures r == FirstIndex(s, x)
  {
    var i := 0;
    while i < |s|
      invariant 0 <= i <= |s|
      invariant x !in s[..i]
    {
      if s[i] == x {
        FirstIndexAt(s, x, i);
        return Some(i);
      }
      assert s[..i + 1] == s[..i] + [s[i]];
      i := i + 1;
    }
    assert s[..i] == s;
    return None;
  }

  /**
   * A growable byte buffer (`bytes::BytesMut`) that decoders consume from
   * the front and encoders append to.
   */
  class Buffer {
    var data: seq<byte>

    constructor (initial: seq<byte>)
      ensures data == initial
    {
      data := initial;
    }

    /** `advance(n)`: discard the first n bytes. */
    method Advance(n: nat)
      requires n <= |data|
      modifies this
      ensures data == old(data)[n..]
    {
      data := data[n..];
    }

    /** `split_to(n)`: remove the first n bytes and return them. */
    method SplitTo(n: nat) returns (front: seq<byte>)
      requires n <= |data|
      modifies this
      ensures front == old(data)[..n] && data == old(data)[n..]
    {
      front := data[..n];
      data := data[n..];
    }

    /** `get_u8`/`get_i8`; callers check that a byte remains. */
    method GetU8() returns (b: byte)
      requires |data| > 0
      modifies this
      ensures b == old(data)[0] && data == old(data)[1..]
    {
      b := data[0];
      data := data[1..];
    }

    /** `get_u16_le`: a little-endian 16-bit integer. */
    method GetU16Le() returns (n: nat)
      requires 2 <= |data|
      modifies this
      ensures n == FromLE(old(data)[..2]) && data == old(data)[2..]
    {
      n := FromLE(data[..2]);
      data := data[2..];
    }

    /** `get_i64`/`get_i32`: a big-endian two's complement integer of `width` bytes. */
    method GetSigned(width: nat) returns (i: int)
      requires 0 < width <= |data|
      modifies this
      ensures i == Signed(FromBE(old(data)[..width]), width) && data == old(data)[width..]
    {
      i := Signed(FromBE(data[..width]), width);
      data := data[width..];
    }

    /** `put_slice`/`put_u32`: append bytes at the end. */
    method Put(bytes: seq<byte>)
      modifies this
      ensures data == old(data) + bytes
    {
      data := data + bytes;
    }
  }
}
