/**
 * The message router: the length-prefixed frame codec every robot socket is
 * wrapped in, the decoder for the serialised Lua tables the robots broadcast,
 * and the forwarding of each received frame to every other robot.
 */
module Router {
  import opened Wrappers
  import opened Bytes
  import opened Net
  import Utf8

  // Lua type tags of the serialisation format.
  const LUA_TNIL: byte := 0
  const LUA_TBOOLEAN: byte := 1
  const LUA_TNUMBER: byte := 3
  const LUA_TSTRING: byte := 4
  const LUA_TTABLE: byte := 5
  const LUA_TUSERDATA: byte := 7
  // Tags of the user data types.
  const LUA_TUSERDATA_VECTOR2: byte := 1
  const LUA_TUSERDATA_VECTOR3: byte := 2
  const LUA_TUSERDATA_QUATERNION: byte := 3

  /** 2^63: the number of non-negative values of an `i64`. */
  const I64_HALF: int := 0x8000_0000_0000_0000
  /** 2^31: the number of non-negative values of an `i32`. */
  const I32_HALF: int := 0x8000_0000
  /** 2^32: one more than the largest `u32`. */
  const U32_LIMIT: int := 0x1_0000_0000

  /**
   * A Lua number as the robots encode it: zero, or a signed 64-bit mantissa
   * with a signed 32-bit binary exponent. The floating-point value the
   * router computes from the pair is not modelled.
   */
  datatype Number = Zero | Scaled(mantissa: int, exponent: int)

  /** `LuaType`; strings are kept as their UTF-8 bytes. */
  datatype LuaValue =
    | LString(text: seq<byte>)
    | LNumber(n: Number)
    | LBoolean(b: bool)
    | Vector2(x: Number, y: Number)
    | Vector3(x: Number, y: Number, z: Number)
    | Quaternion(w: Number, x: Number, y: Number, z: Number)
    | Table(pairs: seq<(LuaValue, LuaValue)>)

  datatype DecodeError = BadUserType | BadNumber | BadString | BadBoolean | BadKey | BadValue

  /** What a decoder yields, and the bytes left in the buffer after it ran. */
  datatype Decoded<T> = Decoded(result: Result<T, DecodeError>, rest: seq<byte>)

  /** rest is what is left of s once some prefix of s has been consumed. */
  predicate Suffix(rest: seq<byte>, s: seq<byte>)
  {
    |rest| <= |s| && rest == s[|s| - |rest|..]
  }

  lemma SuffixTransitive(a: seq<byte>, b: seq<byte>, c: seq<byte>)
    requires Suffix(a, b) && Suffix(b, c)
    ensures Suffix(a, c)
  {
    assert c[|c| - |b|..][|b| - |a|..] == c[|c| - |a|..];
  }

  // ---------------------------------------------------------------------
  // Specification of the Lua decoders, as functions of the remaining bytes.
  // ---------------------------------------------------------------------

  /** A number needs strictly more than 12 remaining bytes: 8 of mantissa, 4 of exponent. */
  function ParseNumber(s: seq<byte>): (d: Decoded<Number>)
    ensures d.result.Ok? <==> |s| > 12
    ensures d.result.Ok? ==> d.rest == s[12..]
    ensures d.result.Ok? ==> (d.result.value == Zero <==> FromBE(s[..8]) == 0)
    ensures d.result.Err? ==> d.rest == s && d.result.error == BadNumber
  {
    if |s| > 12 then
      var mantissa := Signed(FromBE(s[..8]), 8);
      var exponent := Signed(FromBE(s[8..12]), 4);
      Decoded(Ok(if mantissa == 0 then Zero else Scaled(mantissa, exponent)), s[12..])
    else
      Decoded(Err(BadNumber), s)
  }

  /** The bytes of s before its first 0, and what follows that 0 (nothing if there is none). */
  function CString(s: seq<byte>): (r: (seq<byte>, seq<byte>))
    ensures 0 !in r.0
    ensures s == r.0 + [0] + r.1 || (s == r.0 && r.1 == [])
  {
    if |s| == 0 then ([], [])
    else if s[0] == 0 then ([], s[1..])
    else
      var tail := CString(s[1..]);
      assert s == [s[0]] + s[1..];
      ([s[0]] + tail.0, tail.1)
  }

  function ParseString(s: seq<byte>): (d: Decoded<LuaValue>)
    ensures d.rest == CString(s).1
    ensures d.result.Ok? <==> Utf8.Valid(CString(s).0)
    ensures d.result.Ok? ==> d.result.value == LString(CString(s).0)
    ensures d.result.Err? ==> d.result.error == BadString
  {
    var (text, rest) := CString(s);
    if Utf8.Valid(text) then Decoded(Ok(LString(text)), rest) else Decoded(Err(BadString), rest)
  }

  function ParseBoolean(s: seq<byte>): (d: Decoded<LuaValue>)
    ensures d.result.Ok? <==> |s| > 0
    ensures d.result.Ok? ==> d.result.value == LBoolean(s[0] != 0) && d.rest == s[1..]
    ensures d.result.Err? ==> d.result.error == BadBoolean && d.rest == s
  {
    if |s| > 0 then Decoded(Ok(LBoolean(s[0] != 0)), s[1..]) else Decoded(Err(BadBoolean), s)
  }

  /** k numbers in a row. Each needs more than 12 bytes left when it is read. */
  function ParseNumbers(s: seq<byte>, k: nat): (d: Decoded<seq<Number>>)
    ensures d.result.Ok? <==> (k == 0 || |s| > 12 * k)
    ensures d.result.Ok? ==> |d.result.value| == k && d.rest == s[12 * k..]
    ensures d.result.Err? ==> d.result.error == BadNumber && Suffix(d.rest, s)
  {
    if k == 0 then Decoded(Ok([]), s)
    else
      var x := ParseNumber(s);
      if x.result.Err? then Decoded(Err(x.result.error), x.rest)
      else
        var more := ParseNumbers(x.rest, k - 1);
        if more.result.Err? then Decoded(Err(more.result.error), more.rest)
        else Decoded(Ok([x.result.value] + more.result.value), more.rest)
  }

  /** The vector user types read 2, 3 or 4 numbers after their own tag. */
  function ParseVector(s: seq<byte>, k: nat): (d: Decoded<LuaValue>)
    requires 2 <= k <= 4
  {
    var d := ParseNumbers(s, k);
    if d.result.Err? then Decoded(Err(d.result.error), d.rest)
    else Decoded(Ok(VectorOf(d.result.value)), d.rest)
  }

  /** The user type made of 2, 3 or 4 coordinates. */
  function VectorOf(n: seq<Number>): LuaValue
    requires 2 <= |n| <= 4
  {
    if |n| == 2 then Vector2(n[0], n[1])
    else if |n| == 3 then Vector3(n[0], n[1], n[2])
    else Quaternion(n[0], n[1], n[2], n[3])
  }

  /** The number of coordinates of the user type with a given tag (0 for an unknown tag). */
  function Arity(tag: byte): nat
  {
    if tag == LUA_TUSERDATA_VECTOR2 then 2
    else if tag == LUA_TUSERDATA_VECTOR3 then 3
    else if tag == LUA_TUSERDATA_QUATERNION then 4
    else 0
  }

  function ParseUserType(s: seq<byte>): (d: Decoded<LuaValue>)
  {
    if |s| == 0 || Arity(s[0]) == 0 then Decoded(Err(BadUserType), if |s| == 0 then s else s[1..])
    else ParseVector(s[1..], Arity(s[0]))
  }

  /**
   * One key or value after its type tag has been read; `unknown` is the
   * error for a tag the decoder does not handle.
   */
  function ParseTagged(tag: byte, s: seq<byte>, unknown: DecodeError): (d: Decoded<LuaValue>)
    ensures |d.rest| <= |s|
    decreases |s|, 1
  {
    if tag == LUA_TBOOLEAN then ParseBoolean(s)
    else if tag == LUA_TNUMBER then
      var n := ParseNumber(s);
      Decoded(if n.result.Ok? then Ok(LNumber(n.result.value)) else Err(n.result.error), n.rest)
    else if tag == LUA_TSTRING then
      CStringSuffix(s);
      ParseString(s)
    else if tag == LUA_TUSERDATA then ParseUserType(s)
    else if tag == LUA_TTABLE then ParseTableFrom(s, [])
    else Decoded(Err(unknown), s)
  }

  lemma CStringSuffix(s: seq<byte>)
    ensures Suffix(CString(s).1, s)
  {
    var r := CString(s);
    if s == r.0 + [0] + r.1 {
      assert s[|s| - |r.1|..] == r.1;
    }
  }

  /**
   * The rest of a table whose pairs so far are `acc`: pairs are read until a
   * nil key tag or the end of the buffer.
   */
  function ParseTableFrom(s: seq<byte>, acc: seq<(LuaValue, LuaValue)>): (d: Decoded<LuaValue>)
    ensures |d.rest| <= |s|
    decreases |s|, 0
  {
    if |s| == 0 then Decoded(Ok(Table(acc)), s)
    else if s[0] == LUA_TNIL then Decoded(Ok(Table(acc)), s[1..])
    else
      var key := ParseTagged(s[0], s[1..], BadKey);
      if key.result.Err? then Decoded(Err(key.result.error), key.rest)
      else if |key.rest| == 0 then Decoded(Err(BadValue), key.rest)
      else
        var value := ParseTagged(key.rest[0], key.rest[1..], BadValue);
        if value.result.Err? then Decoded(Err(value.result.error), value.rest)
        else ParseTableFrom(value.rest, acc + [(key.result.value, value.result.value)])
  }

  /** `decode_lua_table` on a whole received message. */
  function ParseTable(s: seq<byte>): Decoded<LuaValue>
  {
    ParseTableFrom(s, [])
  }

  // ---------------------------------------------------------------------
  // The decoders themselves, consuming a buffer read as a `Buf`.
  // ---------------------------------------------------------------------

  method DecodeLuaNumber(buf: Buffer) returns (r: Result<Number, DecodeError>)
    modifies buf
    ensures Decoded(r, buf.data) == ParseNumber(old(buf.data))
  {
    if |buf.data| > 12 {
      ghost var s := buf.data;
      var mantissa := buf.GetSigned(8);
      var exponent := buf.GetSigned(4);
      assert s[8..][..4] == s[8..12];
      assert s[8..][4..] == s[12..];
      if mantissa == 0 {
        r := Ok(Zero);
      } else {
        r := Ok(Scaled(mantissa, exponent));
      }
    } else {
      r := Err(BadNumber);
    }
  }

  method DecodeLuaString(buf: Buffer) returns (r: Result<LuaValue, DecodeError>)
    modifies buf
    ensures Decoded(r, buf.data) == ParseString(old(buf.data))
  {
    var data: seq<byte> := [];
    assert data + CString(buf.data).0 == CString(buf.data).0;
    while |buf.data| > 0
      invariant CString(old(buf.data)).0 == data + CString(buf.data).0
      invariant CString(old(buf.data)).1 == CString(buf.data).1
      decreases |buf.data|
    {
      ghost var before := buf.data;
      var b := buf.GetU8();
      if b == 0 {
        assert CString(before) == ([], buf.data);
        break;
      }
      assert CString(before).0 == [b] + CString(buf.data).0;
      assert data + ([b] + CString(buf.data).0) == (data + [b]) + CString(buf.data).0;
      data := data + [b];
    }
    assert CString(old(buf.data)).0 == data;
    if Utf8.Valid(data) {
      r := Ok(LString(data));
    } else {
      r := Err(BadString);
    }
  }

  method DecodeLuaBoolean(buf: Buffer) returns (r: Result<LuaValue, DecodeError>)
    modifies buf
    ensures Decoded(r, buf.data) == ParseBoolean(old(buf.data))
  {
    if |buf.data| > 0 {
      var b := buf.GetU8();
      r := Ok(LBoolean(b != 0));
    } else {
      r := Err(BadBoolean);
    }
  }

  /** Reading k numbers is reading one, then k - 1 more. */
  lemma NumbersStep(s: seq<byte>, k: nat)
    requires k > 0
    ensures var x := ParseNumber(s);
      ParseNumbers(s, k) ==
        if x.result.Err? then Decoded(Err(x.result.error), x.rest)
        else
          var more := ParseNumbers(x.rest, k - 1);
          if more.result.Err? then Decoded(Err(more.result.error), more.rest)
          else Decoded(Ok([x.result.value] + more.result.value), more.rest)
  {
  }

  method DecodeLuaVector2(buf: Buffer) returns (r: Result<LuaValue, DecodeError>)
    modifies buf
    ensures Decoded(r, buf.data) == ParseVector(old(buf.data), 2)
  {
    ghost var s := buf.data;
    var x := DecodeLuaNumber(buf);
    NumbersStep(s, 2);
    if x.Err? { return Err(x.error); }
    ghost var sy := buf.data;
    var y := DecodeLuaNumber(buf);
    NumbersStep(sy, 1);
    if y.Err? { return Err(y.error); }
    r := Ok(Vector2(x.value, y.value));
  }

  method DecodeLuaVector3(buf: Buffer) returns (r: Result<LuaValue, DecodeError>)
    modifies buf
    ensures Decoded(r, buf.data) == ParseVector(old(buf.data), 3)
  {
    ghost var s := buf.data;
    var x := DecodeLuaNumber(buf);
    NumbersStep(s, 3);
    if x.Err? { return Err(x.error); }
    ghost var sy := buf.data;
    var y := DecodeLuaNumber(buf);
    NumbersStep(sy, 2);
    if y.Err? { return Err(y.error); }
    ghost var sz := buf.data;
    var z := DecodeLuaNumber(buf);
    NumbersStep(sz, 1);
    if z.Err? { return Err(z.error); }
    r := Ok(Vector3(x.value, y.value, z.value));
  }

  method DecodeLuaQuaternion(buf: Buffer) returns (r: Result<LuaValue, DecodeError>)
    modifies buf
    ensures Decoded(r, buf.data) == ParseVector(old(buf.data), 4)
  {
    ghost var s := buf.data;
    var w := DecodeLuaNumber(buf);
    NumbersStep(s, 4);
    if w.Err? { return Err(w.error); }
    ghost var sx := buf.data;
    var x := DecodeLuaNumber(buf);
    NumbersStep(sx, 3);
    if x.Err? { return Err(x.error); }
    ghost var sy := buf.data;
    var y := DecodeLuaNumber(buf);
    NumbersStep(sy, 2);
    if y.Err? { return Err(y.error); }
    ghost var sz := buf.data;
    var z := DecodeLuaNumber(buf);
    NumbersStep(sz, 1);
    if z.Err? { return Err(z.error); }
    r := Ok(Quaternion(w.value, x.value, y.value, z.value));
  }

  method DecodeLuaUserType(buf: Buffer) returns (r: Result<LuaValue, DecodeError>)
    modifies buf
    ensures Decoded(r, buf.data) == ParseUserType(old(buf.data))
  {
    if |buf.data| > 0 {
      var tag := buf.GetU8();
      if tag == LUA_TUSERDATA_VECTOR2 {
        r := DecodeLuaVector2(buf);
      } else if tag == LUA_TUSERDATA_VECTOR3 {
        r := DecodeLuaVector3(buf);
      } else if tag == LUA_TUSERDATA_QUATERNION {
        r := DecodeLuaQuaternion(buf);
      } else {
        r := Err(BadUserType);
      }
    } else {
      r := Err(BadUserType);
    }
  }

  /** One arm of the `match` on a key or value tag in `decode_lua_table`. */
  method DecodeTagged(buf: Buffer, tag: byte, unknown: DecodeError) returns (r: Result<LuaValue, DecodeError>)
    modifies buf
    ensures Decoded(r, buf.data) == ParseTagged(tag, old(buf.data), unknown)
    decreases |buf.data|, 1
  {
    if tag == LUA_TBOOLEAN {
      r := DecodeLuaBoolean(buf);
    } else if tag == LUA_TNUMBER {
      var n := DecodeLuaNumber(buf);
      r := if n.Ok? then Ok(LNumber(n.value)) else Err(n.error);
    } else if tag == LUA_TSTRING {
      r := DecodeLuaString(buf);
    } else if tag == LUA_TUSERDATA {
      r := DecodeLuaUserType(buf);
    } else if tag == LUA_TTABLE {
      r := DecodeLuaTable(buf);
    } else {
      r := Err(unknown);
    }
  }

  method DecodeLuaTable(buf: Buffer) returns (r: Result<LuaValue, DecodeError>)
    modifies buf
    ensures Decoded(r, buf.data) == ParseTable(old(buf.data))
    decreases |buf.data|, 0
  {
    var table: seq<(LuaValue, LuaValue)> := [];
    while |buf.data| > 0
      invariant ParseTableFrom(buf.data, table) == ParseTable(old(buf.data))
      invariant |buf.data| <= |old(buf.data)|
      decreases |buf.data|
    {
      ghost var before := buf.data;
      var tag := buf.GetU8();
      if tag == LUA_TNIL {
        break;
      }
      var key := DecodeTagged(buf, tag, BadKey);
      if key.Err? {
        return Err(key.error);
      }
      if |buf.data| == 0 {
        return Err(BadValue);
      }
      var valueTag := buf.GetU8();
      var value := DecodeTagged(buf, valueTag, BadValue);
      if value.Err? {
        return Err(value.error);
      }
      table := table + [(key.value, value.value)];
    }
    r := Ok(Table(table));
  }

  // ---------------------------------------------------------------------
  // The encoding the decoder accepts, and the round trip through it.
  // ---------------------------------------------------------------------

  predicate WellFormedNumber(n: Number)
  {
    n.Scaled? ==> n.mantissa != 0 && -I64_HALF <= n.mantissa < I64_HALF && -I32_HALF <= n.exponent < I32_HALF
  }

  /** Values the encoding can carry: C strings without a 0 byte, numbers within `i64`/`i32`. */
  predicate WellFormed(v: LuaValue)
    decreases v
  {
    match v
    case LString(text) => 0 !in text && Utf8.Valid(text)
    case LNumber(n) => WellFormedNumber(n)
    case LBoolean(_) => true
    case Vector2(x, y) => WellFormedNumber(x) && WellFormedNumber(y)
    case Vector3(x, y, z) => WellFormedNumber(x) && WellFormedNumber(y) && WellFormedNumber(z)
    case Quaternion(w, x, y, z) =>
      WellFormedNumber(w) && WellFormedNumber(x) && WellFormedNumber(y) && WellFormedNumber(z)
    case Table(pairs) => forall i :: 0 <= i < |pairs| ==> WellFormed(pairs[i].0) && WellFormed(pairs[i].1)
  }

  function EncodeNumber(n: Number): (s: seq<byte>)
    requires WellFormedNumber(n)
    ensures |s| == 12
  {
    var (m, e) := match n case Zero => (0, 0) case Scaled(m, e) => (m, e);
    assert Pow256(8) == 2 * I64_HALF && Pow256(4) == 2 * I32_HALF;
    ToBE(Unsigned(m, 8), 8) + ToBE(Unsigned(e, 4), 4)
  }

  /** A key or value with its type tag. */
  function Encode(v: LuaValue): (s: seq<byte>)
    requires WellFormed(v)
    ensures |s| > 0 && s[0] != LUA_TNIL
    decreases v, 1
  {
    match v
    case LString(text) => [LUA_TSTRING] + text + [0]
    case LNumber(n) => [LUA_TNUMBER] + EncodeNumber(n)
    case LBoolean(b) => [LUA_TBOOLEAN, if b then 1 else 0]
    case Vector2(x, y) => [LUA_TUSERDATA, LUA_TUSERDATA_VECTOR2] + EncodeNumbers([x, y])
    case Vector3(x, y, z) => [LUA_TUSERDATA, LUA_TUSERDATA_VECTOR3] + EncodeNumbers([x, y, z])
    case Quaternion(w, x, y, z) => [LUA_TUSERDATA, LUA_TUSERDATA_QUATERNION] + EncodeNumbers([w, x, y, z])
    case Table(pairs) => [LUA_TTABLE] + EncodePairs(pairs, v) + [LUA_TNIL]
  }

  /** The pairs of a table, each key followed by its value (without the nil terminator). */
  function EncodePairs(pairs: seq<(LuaValue, LuaValue)>, ghost parent: LuaValue): seq<byte>
    requires forall i :: 0 <= i < |pairs| ==> pairs[i].0 < parent && pairs[i].1 < parent
    requires forall i :: 0 <= i < |pairs| ==> WellFormed(pairs[i].0) && WellFormed(pairs[i].1)
    decreases parent, 0, |pairs|
  {
    if pairs == [] then []
    else Encode(pairs[0].0) + Encode(pairs[0].1) + EncodePairs(pairs[1..], parent)
  }

  /** The bytes of a serialised message: the pairs of a table and a nil terminator. */
  function EncodeMessage(pairs: seq<(LuaValue, LuaValue)>): seq<byte>
    requires forall i :: 0 <= i < |pairs| ==> WellFormed(pairs[i].0) && WellFormed(pairs[i].1)
  {
    EncodePairs(pairs, Table(pairs)) + [LUA_TNIL]
  }

  lemma {:induction false} NumberRoundTrip(n: Number, rest: seq<byte>)
    requires WellFormedNumber(n) && |rest| > 0
    ensures ParseNumber(EncodeNumber(n) + rest) == Decoded(Ok(n), rest)
  {
    var (m, e) := match n case Zero => (0, 0) case Scaled(m, e) => (m, e);
    assert Pow256(8) == 2 * I64_HALF && Pow256(4) == 2 * I32_HALF;
    var hi, lo := ToBE(Unsigned(m, 8), 8), ToBE(Unsigned(e, 4), 4);
    var s := EncodeNumber(n) + rest;
    assert s == hi + lo + rest;
    assert s[..8] == hi && s[8..12] == lo && s[12..] == rest;
    FromToBE(Unsigned(m, 8), 8);
    FromToBE(Unsigned(e, 4), 4);
  }

  lemma {:induction false} NumbersRoundTrip(ns: seq<Number>, rest: seq<byte>)
    requires forall i :: 0 <= i < |ns| ==> WellFormedNumber(ns[i])
    requires |rest| > 0
    ensures ParseNumbers(EncodeNumbers(ns) + rest, |ns|) == Decoded(Ok(ns), rest)
  {
    if ns != [] {
      var head, tail := EncodeNumber(ns[0]), EncodeNumbers(ns[1..]) + rest;
      assert EncodeNumbers(ns) + rest == head + tail;
      NumbersRoundTrip(ns[1..], rest);
      NumberRoundTrip(ns[0], tail);
      NumbersCons(head + tail, tail, ns[0], ns[1..], rest);
      assert [ns[0]] + ns[1..] == ns;
    }
  }

  /** One number, then k more. */
  lemma NumbersCons(s: seq<byte>, tail: seq<byte>, x: Number, xs: seq<Number>, rest: seq<byte>)
    requires ParseNumber(s) == Decoded(Ok(x), tail)
    requires ParseNumbers(tail, |xs|) == Decoded(Ok(xs), rest)
    ensures ParseNumbers(s, |xs| + 1) == Decoded(Ok([x] + xs), rest)
  {
  }

  function EncodeNumbers(ns: seq<Number>): (s: seq<byte>)
    requires forall i :: 0 <= i < |ns| ==> WellFormedNumber(ns[i])
  {
    if ns == [] then [] else EncodeNumber(ns[0]) + EncodeNumbers(ns[1..])
  }

  /**
   * Decoding undoes encoding: a well-formed key or value followed by at
   * least one more byte is read back whole, and exactly its bytes are
   * consumed.
   */
  lemma {:induction false} TaggedRoundTrip(v: LuaValue, rest: seq<byte>, unknown: DecodeError)
    requires WellFormed(v) && |rest| > 0
    ensures ParseTagged(Encode(v)[0], Encode(v)[1..] + rest, unknown) == Decoded(Ok(v), rest)
    decreases v, 2
  {
    match v
    case LString(text) => StringTagRoundTrip(text, rest, unknown);
    case LNumber(n) => NumberTagRoundTrip(n, rest, unknown);
    case LBoolean(b) => BooleanTagRoundTrip(b, rest, unknown);
    case Vector2(x, y) => Vector2TagRoundTrip(x, y, rest, unknown);
    case Vector3(x, y, z) => Vector3TagRoundTrip(x, y, z, rest, unknown);
    case Quaternion(w, x, y, z) => QuaternionTagRoundTrip(w, x, y, z, rest, unknown);
    case Table(pairs) => TableTagRoundTrip(pairs, rest, unknown);
  }

  lemma NumberTagRoundTrip(n: Number, rest: seq<byte>, unknown: DecodeError)
    requires WellFormedNumber(n) && |rest| > 0
    ensures var e := Encode(LNumber(n));
      ParseTagged(e[0], e[1..] + rest, unknown) == Decoded(Ok(LNumber(n)), rest)
  {
    var e := Encode(LNumber(n));
    assert e[0] == LUA_TNUMBER && e[1..] + rest == EncodeNumber(n) + rest;
    NumberRoundTrip(n, rest);
  }

  lemma BooleanTagRoundTrip(b: bool, rest: seq<byte>, unknown: DecodeError)
    ensures var e := Encode(LBoolean(b));
      ParseTagged(e[0], e[1..] + rest, unknown) == Decoded(Ok(LBoolean(b)), rest)
  {
    var e := Encode(LBoolean(b));
    assert e[0] == LUA_TBOOLEAN && e[1..] + rest == [if b then 1 else 0] + rest;
  }

  lemma Vector2TagRoundTrip(x: Number, y: Number, rest: seq<byte>, unknown: DecodeError)
    requires WellFormedNumber(x) && WellFormedNumber(y) && |rest| > 0
    ensures var e := Encode(Vector2(x, y));
      ParseTagged(e[0], e[1..] + rest, unknown) == Decoded(Ok(Vector2(x, y)), rest)
  {
    UserTag(Encode(Vector2(x, y)), LUA_TUSERDATA_VECTOR2, EncodeNumbers([x, y]), rest);
    UserTypeTagged(LUA_TUSERDATA_VECTOR2, [x, y], rest, unknown);
  }

  lemma Vector3TagRoundTrip(x: Number, y: Number, z: Number, rest: seq<byte>, unknown: DecodeError)
    requires WellFormedNumber(x) && WellFormedNumber(y) && WellFormedNumber(z) && |rest| > 0
    ensures var e := Encode(Vector3(x, y, z));
      ParseTagged(e[0], e[1..] + rest, unknown) == Decoded(Ok(Vector3(x, y, z)), rest)
  {
    UserTag(Encode(Vector3(x, y, z)), LUA_TUSERDATA_VECTOR3, EncodeNumbers([x, y, z]), rest);
    UserTypeTagged(LUA_TUSERDATA_VECTOR3, [x, y, z], rest, unknown);
  }

  lemma QuaternionTagRoundTrip(w: Number, x: Number, y: Number, z: Number, rest: seq<byte>, unknown: DecodeError)
    requires WellFormedNumber(w) && WellFormedNumber(x) && WellFormedNumber(y) && WellFormedNumber(z) && |rest| > 0
    ensures var e := Encode(Quaternion(w, x, y, z));
      ParseTagged(e[0], e[1..] + rest, unknown) == Decoded(Ok(Quaternion(w, x, y, z)), rest)
  {
    UserTag(Encode(Quaternion(w, x, y, z)), LUA_TUSERDATA_QUATERNION, EncodeNumbers([w, x, y, z]), rest);
    UserTypeTagged(LUA_TUSERDATA_QUATERNION, [w, x, y, z], rest, unknown);
  }

  /** The bytes after the user-data tag of an encoded vector. */
  lemma UserTag(e: seq<byte>, tag: byte, n: seq<byte>, rest: seq<byte>)
    requires e == [LUA_TUSERDATA, tag] + n
    ensures e[0] == LUA_TUSERDATA && e[1..] + rest == [tag] + (n + rest)
  {
    assert e[1..] == [tag] + n;
  }

  lemma UserTypeTagged(tag: byte, ns: seq<Number>, rest: seq<byte>, unknown: DecodeError)
    requires Arity(tag) == |ns| > 0 && |rest| > 0
    requires forall i :: 0 <= i < |ns| ==> WellFormedNumber(ns[i])
    ensures ParseTagged(LUA_TUSERDATA, [tag] + (EncodeNumbers(ns) + rest), unknown) == Decoded(Ok(VectorOf(ns)), rest)
  {
    var s := [tag] + (EncodeNumbers(ns) + rest);
    UserTypeRoundTrip(tag, ns, rest);
    var d := ParseUserType(s);
    assert ParseTagged(LUA_TUSERDATA, s, unknown) == d;
    assert d == Decoded(d.result, d.rest);
  }

  lemma StringTagRoundTrip(text: seq<byte>, rest: seq<byte>, unknown: DecodeError)
    requires WellFormed(LString(text))
    ensures var e := Encode(LString(text));
      ParseTagged(e[0], e[1..] + rest, unknown) == Decoded(Ok(LString(text)), rest)
  {
    var e := Encode(LString(text));
    assert e[1..] + rest == text + [0] + rest;
    CStringOf(text, rest);
  }

  lemma TableTagRoundTrip(pairs: seq<(LuaValue, LuaValue)>, rest: seq<byte>, unknown: DecodeError)
    requires WellFormed(Table(pairs))
    ensures var e := Encode(Table(pairs));
      ParseTagged(e[0], e[1..] + rest, unknown) == Decoded(Ok(Table(pairs)), rest)
    decreases Table(pairs), 1
  {
    var e := Encode(Table(pairs));
    assert e[1..] + rest == EncodePairs(pairs, Table(pairs)) + ([LUA_TNIL] + rest);
    PairsRoundTrip(pairs, Table(pairs), [], rest);
    assert [] + pairs == pairs;
  }

  /** A user type tag followed by the encoding of its coordinates is read back as that vector. */
  lemma UserTypeRoundTrip(tag: byte, ns: seq<Number>, rest: seq<byte>)
    requires Arity(tag) == |ns| > 0
    requires forall i :: 0 <= i < |ns| ==> WellFormedNumber(ns[i])
    requires |rest| > 0
    ensures ParseUserType([tag] + (EncodeNumbers(ns) + rest)).result == Ok(VectorOf(ns))
    ensures ParseUserType([tag] + (EncodeNumbers(ns) + rest)).rest == rest
  {
    var s := [tag] + (EncodeNumbers(ns) + rest);
    assert s[1..] == EncodeNumbers(ns) + rest;
    NumbersRoundTrip(ns, rest);
  }

  lemma {:induction false} CStringOf(text: seq<byte>, rest: seq<byte>)
    requires 0 !in text
    ensures CString(text + [0] + rest) == (text, rest)
  {
    if text != [] {
      assert (text + [0] + rest)[1..] == text[1..] + [0] + rest;
      CStringOf(text[1..], rest);
      assert [text[0]] + text[1..] == text;
    }
  }

  lemma {:induction false} PairsRoundTrip(pairs: seq<(LuaValue, LuaValue)>, parent: LuaValue,
                                          acc: seq<(LuaValue, LuaValue)>, rest: seq<byte>)
    requires forall i :: 0 <= i < |pairs| ==> pairs[i].0 < parent && pairs[i].1 < parent
    requires forall i :: 0 <= i < |pairs| ==> WellFormed(pairs[i].0) && WellFormed(pairs[i].1)
    ensures ParseTableFrom(EncodePairs(pairs, parent) + ([LUA_TNIL] + rest), acc) == Decoded(Ok(Table(acc + pairs)), rest)
    decreases parent, 0, |pairs|, 1
  {
    if pairs == [] {
      assert EncodePairs(pairs, parent) + ([LUA_TNIL] + rest) == [LUA_TNIL] + rest;
      assert acc + pairs == acc;
    } else {
      PairsConsRoundTrip(pairs, parent, acc, rest);
    }
  }

  lemma {:induction false} PairsConsRoundTrip(pairs: seq<(LuaValue, LuaValue)>, parent: LuaValue,
                                              acc: seq<(LuaValue, LuaValue)>, rest: seq<byte>)
    requires pairs != []
    requires forall i :: 0 <= i < |pairs| ==> pairs[i].0 < parent && pairs[i].1 < parent
    requires forall i :: 0 <= i < |pairs| ==> WellFormed(pairs[i].0) && WellFormed(pairs[i].1)
    ensures ParseTableFrom(EncodePairs(pairs, parent) + ([LUA_TNIL] + rest), acc) == Decoded(Ok(Table(acc + pairs)), rest)
    decreases parent, 0, |pairs|, 0
  {
    var (k, v) := pairs[0];
    var tail := EncodePairs(pairs[1..], parent) + ([LUA_TNIL] + rest);
    EncodePairsCons(pairs, parent, [LUA_TNIL] + rest);
    PairRoundTrip(k, v, parent, tail, acc);
    PairsRoundTrip(pairs[1..], parent, acc + [(k, v)], rest);
    AppendFirst(acc, pairs);
  }

  lemma AppendFirst<T>(acc: seq<T>, xs: seq<T>)
    requires xs != []
    ensures acc + [xs[0]] + xs[1..] == acc + xs
  {
    assert [xs[0]] + xs[1..] == xs;
  }

  /** One pair at the front of a table body is read and appended to the pairs so far. */
  lemma PairStep(s: seq<byte>, r: seq<byte>, tail: seq<byte>, acc: seq<(LuaValue, LuaValue)>, k: LuaValue, v: LuaValue)
    requires |s| > 0 && s[0] != LUA_TNIL && |r| > 0
    requires ParseTagged(s[0], s[1..], BadKey) == Decoded(Ok(k), r)
    requires ParseTagged(r[0], r[1..], BadValue) == Decoded(Ok(v), tail)
    ensures ParseTableFrom(s, acc) == ParseTableFrom(tail, acc + [(k, v)])
  {
  }

  /** The bytes of a non-empty table body start with its first key and value. */
  lemma EncodePairsCons(pairs: seq<(LuaValue, LuaValue)>, parent: LuaValue, rest: seq<byte>)
    requires pairs != []
    requires forall i :: 0 <= i < |pairs| ==> pairs[i].0 < parent && pairs[i].1 < parent
    requires forall i :: 0 <= i < |pairs| ==> WellFormed(pairs[i].0) && WellFormed(pairs[i].1)
    ensures EncodePairs(pairs, parent) + rest ==
      Encode(pairs[0].0) + Encode(pairs[0].1) + (EncodePairs(pairs[1..], parent) + rest)
  {
  }

  /** One encoded pair at the front of a table body is read back and appended to the pairs so far. */
  lemma PairRoundTrip(k: LuaValue, v: LuaValue, parent: LuaValue, tail: seq<byte>, acc: seq<(LuaValue, LuaValue)>)
    requires k < parent && v < parent
    requires WellFormed(k) && WellFormed(v) && |tail| > 0
    ensures ParseTableFrom(Encode(k) + Encode(v) + tail, acc) == ParseTableFrom(tail, acc + [(k, v)])
    decreases parent, 0, 0, 0
  {
    TaggedRoundTrip(k, Encode(v) + tail, BadKey);
    TaggedRoundTrip(v, tail, BadValue);
    PairFront(Encode(k), Encode(v), tail, acc, k, v);
  }

  /** One encoded pair at the front of a table body, split into its key and value bytes. */
  lemma PairFront(ek: seq<byte>, ev: seq<byte>, tail: seq<byte>, acc: seq<(LuaValue, LuaValue)>, k: LuaValue, v: LuaValue)
    requires |ek| > 0 && ek[0] != LUA_TNIL && |ev| > 0
    requires ParseTagged(ek[0], ek[1..] + (ev + tail), BadKey) == Decoded(Ok(k), ev + tail)
    requires ParseTagged(ev[0], ev[1..] + tail, BadValue) == Decoded(Ok(v), tail)
    ensures ParseTableFrom(ek + ev + tail, acc) == ParseTableFrom(tail, acc + [(k, v)])
  {
    TagSplit(ek, ev + tail);
    TagSplit(ev, tail);
    assert ek + ev + tail == ek + (ev + tail);
    PairStep(ek + (ev + tail), ev + tail, tail, acc, k, v);
  }

  /** The tag and the body of an encoded key or value followed by more bytes. */
  lemma TagSplit(e: seq<byte>, r: seq<byte>)
    requires |e| > 0
    ensures (e + r)[0] == e[0] && (e + r)[1..] == e[1..] + r
  {
    assert (e + r)[1..] == e[1..] + r;
  }

  /** A serialised message is decoded back into the table it was made from. */
  lemma MessageRoundTrip(pairs: seq<(LuaValue, LuaValue)>)
    requires forall i :: 0 <= i < |pairs| ==> WellFormed(pairs[i].0) && WellFormed(pairs[i].1)
    ensures ParseTable(EncodeMessage(pairs)) == Decoded(Ok(Table(pairs)), [])
  {
    PairsRoundTrip(pairs, Table(pairs), [], []);
    assert EncodeMessage(pairs) == EncodePairs(pairs, Table(pairs)) + ([LUA_TNIL] + []);
    assert [] + pairs == pairs;
  }

  /**
   * A number that is the last thing in the buffer is refused: exactly 12
   * remaining bytes are not enough for `decode_lua_number`.
   */
  lemma TrailingNumberRefused(n: Number)
    requires WellFormedNumber(n)
    ensures ParseTagged(LUA_TNUMBER, EncodeNumber(n), BadValue).result == Err(BadNumber)
  {
  }

  // ---------------------------------------------------------------------
  // The length-prefixed frame codec.
  // ---------------------------------------------------------------------

  /** The state a call to `ByteArrayCodec::decode` leaves behind. */
  datatype FrameStep = FrameStep(frame: Option<seq<byte>>, pending: Option<nat>, rest: seq<byte>)

  /**
   * `decode` with pending length `pending` on buffer contents `data`: read a
   * 4-byte big-endian length when none is pending, then the frame once that
   * many bytes are buffered.
   */
  function DecodeFrame(pending: Option<nat>, data: seq<byte>): (r: FrameStep)
    ensures r.frame.Some? ==> r.pending.None?
    ensures r.frame.Some? && pending.Some? ==> data == r.frame.value + r.rest && |r.frame.value| == pending.value
    ensures r.frame.Some? && pending.None? ==>
      |data| >= 4 && data == data[..4] + r.frame.value + r.rest && |r.frame.value| == FromBE(data[..4])
    ensures r.frame.None? && pending.Some? ==> r.pending == pending && r.rest == data && |data| < pending.value
    ensures r.frame.None? && pending.None? && |data| < 4 ==> r.pending.None? && r.rest == data
    ensures r.frame.None? && pending.None? && |data| >= 4 ==>
      r.pending == Some(FromBE(data[..4])) && r.rest == data[4..] && |r.rest| < r.pending.value
    decreases if pending.None? then 1 else 0
  {
    match pending
    case Some(n) =>
      if |data| >= n then FrameStep(Some(data[..n]), None, data[n..]) else FrameStep(None, pending, data)
    case None =>
      if |data| >= 4 then DecodeFrame(Some(FromBE(data[..4])), data[4..]) else FrameStep(None, None, data)
  }

  /** `encode`: the length as a `u32` (wrapping above 2^32 - 1), then the data. */
  function Frame(data: seq<byte>): (f: seq<byte>)
    ensures |f| == 4 + |data| && f[4..] == data
    ensures FromBE(f[..4]) == |data| % U32_LIMIT
  {
    assert Pow256(4) == U32_LIMIT;
    FromToBE(|data| % U32_LIMIT, 4);
    ToBE(|data| % U32_LIMIT, 4) + data
  }

  /** A frame read by a fresh decoder yields exactly the encoded data and nothing after it. */
  lemma FrameRoundTrip(data: seq<byte>, tail: seq<byte>)
    requires |data| < U32_LIMIT
    ensures DecodeFrame(None, Frame(data) + tail) == FrameStep(Some(data), None, tail)
  {
    var s := Frame(data) + tail;
    assert s[..4] == Frame(data)[..4];
    assert |data| % U32_LIMIT == |data|;
    assert s[4..] == data + tail;
    assert DecodeFrame(None, s) == DecodeFrame(Some(|data|), data + tail);
    assert (data + tail)[..|data|] == data && (data + tail)[|data|..] == tail;
  }

  /** Frames written back to back are read back one after another, in order. */
  lemma {:induction false} FramesInOrder(frames: seq<seq<byte>>, k: nat)
    requires k < |frames|
    requires forall i :: 0 <= i < |frames| ==> |frames[i]| < U32_LIMIT
    ensures DecodeFrame(None, Stream(frames[k..])) == FrameStep(Some(frames[k]), None, Stream(frames[k + 1..]))
  {
    assert frames[k..][1..] == frames[k + 1..];
    FrameRoundTrip(frames[k], Stream(frames[k + 1..]));
  }

  /** The bytes of several encoded frames in a row. */
  function Stream(frames: seq<seq<byte>>): seq<byte>
  {
    if frames == [] then [] else Frame(frames[0]) + Stream(frames[1..])
  }

  /** `ByteArrayCodec`: a length that has been read whose frame has not arrived yet. */
  class ByteArrayCodec {
    var len: Option<nat>

    constructor ()
      ensures len == None
    {
      len := None;
    }

    method Decode(buf: Buffer) returns (frame: Option<seq<byte>>)
      modifies this, buf
      ensures FrameStep(frame, len, buf.data) == DecodeFrame(old(len), old(buf.data))
    {
      while true
        invariant DecodeFrame(len, buf.data) == DecodeFrame(old(len), old(buf.data))
        decreases if len.None? then 1 else 0
      {
        if len.Some? {
          if |buf.data| >= len.value {
            var n := len.value;
            len := None;
            var front := buf.SplitTo(n);
            frame := Some(front);
            return;
          } else {
            break;
          }
        } else {
          if |buf.data| >= 4 {
            var header := buf.SplitTo(4);
            len := Some(FromBE(header));
          } else {
            break;
          }
        }
      }
      frame := None;
    }

    method Encode(data: seq<byte>, buf: Buffer)
      modifies buf
      ensures buf.data == old(buf.data) + Frame(data)
    {
      assert Pow256(4) == U32_LIMIT;
      var header := ToBE(|data| % U32_LIMIT, 4);
      assert Frame(data) == header + data;
      buf.Put(header);
      buf.Put(data);
    }
  }

  // ---------------------------------------------------------------------
  // Forwarding between robots.
  // ---------------------------------------------------------------------

  /** The peers a message from `sender` is meant for: every connected robot but the sender. */
  function Recipients(peers: set<SocketAddr>, sender: SocketAddr): (r: set<SocketAddr>)
    ensures r <= peers && sender !in r
    ensures forall p :: p in peers && p != sender ==> p in r
  {
    peers - {sender}
  }

  /** The peer queues after every recipient has been handed the message. */
  function Delivered(queues: map<SocketAddr, seq<seq<byte>>>, sender: SocketAddr, message: seq<byte>): (q: map<SocketAddr, seq<seq<byte>>>)
    ensures q.Keys == queues.Keys
    ensures forall p :: p in queues && p != sender ==> q[p] == queues[p] + [message]
    ensures sender in queues ==> q[sender] == queues[sender]
  {
    map p | p in queues :: if p in Recipients(queues.Keys, sender) then queues[p] + [message] else queues[p]
  }

  /**
   * The loop of `client_handler` as written: a send future is created for
   * every recipient and dropped without being awaited, so no queue changes.
   */
  function ForwardAsWritten(queues: map<SocketAddr, seq<seq<byte>>>, sender: SocketAddr, message: seq<byte>): (q: map<SocketAddr, seq<seq<byte>>>)
    ensures q.Keys == queues.Keys
    ensures forall p :: p in Recipients(queues.Keys, sender) ==> q[p] == queues[p]
  {
    queues
  }

  /** With two robots connected, the message the first sends never reaches the second. */
  lemma ForwardAsWrittenLosesMessage(a: SocketAddr, b: SocketAddr, message: seq<byte>)
    requires a != b
    ensures var queues := map[a := [], b := []];
      ForwardAsWritten(queues, a, message)[b] == [] && Delivered(queues, a, message)[b] == [message]
  {
  }

  /** The connected robots' message queues (`Peers`), keyed by socket address. */
  class Peers {
    var queues: map<SocketAddr, seq<seq<byte>>>

    constructor ()
      ensures queues == map[]
    {
      queues := map[];
    }

    /** A robot connects: it gets an empty queue. */
    method Insert(addr: SocketAddr)
      modifies this
      ensures queues == old(queues)[addr := []]
    {
      queues := queues[addr := []];
    }

    /** A robot disconnects. */
    method Remove(addr: SocketAddr)
      modifies this
      ensures queues == old(queues) - {addr}
    {
      queues := queues - {addr};
    }

    /**
     * A frame received from `sender`: every other peer is handed a copy,
     * and the frame is decoded for the journal when it is a Lua table.
     */
    method Receive(sender: SocketAddr, message: seq<byte>) returns (record: Option<(SocketAddr, LuaValue)>)
      modifies this
      ensures queues == Delivered(old(queues), sender, message)
      ensures record.Some? <==> ParseTable(message).result.Ok?
      ensures record.Some? ==> record.value == (sender, ParseTable(message).result.value)
    {
      var pending := queues.Keys;
      ghost var start := queues;
      while pending != {}
        invariant pending <= start.Keys && queues.Keys == start.Keys
        invariant forall p :: p in start && p !in pending ==> queues[p] == Delivered(start, sender, message)[p]
        invariant forall p :: p in pending ==> queues[p] == start[p]
        decreases pending
      {
        var peer :| peer in pending;
        if peer != sender {
          queues := queues[peer := queues[peer] + [message]];
        }
        pending := pending - {peer};
      }
      var cursor := new Buffer(message);
      var decoded := DecodeLuaTable(cursor);
      record := if decoded.Ok? then Some((sender, decoded.value)) else None;
    }
  }
}
