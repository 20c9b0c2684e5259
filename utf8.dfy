/**
 * Well-formed UTF-8 as Rust's `String::from_utf8` and `str::from_utf8`
 * accept it (Unicode Standard, table 3-7): no overlong forms, no surrogates,
 * nothing above U+10FFFF.
 */
module Utf8 {
  import opened Bytes

  predicate Continuation(b: byte) { 0x80 <= b <= 0xBF }

  /** The length of the well-formed scalar at the start of s, or 0 if there is none. */
  function ScalarLength(s: seq<byte>): (k: nat)
    ensures k <= 4 && k <= |s|
    ensures |s| > 0 && s[0] < 0x80 ==> k == 1
    ensures k > 0 ==> |s| > 0
  {
    if |s| == 0 then 0
    else if s[0] < 0x80 then 1
    else if 0xC2 <= s[0] <= 0xDF then
      if |s| >= 2 && Continuation(s[1]) then 2 else 0
    else if 0xE0 <= s[0] <= 0xEF then
      if |s| >= 3 && Continuation(s[1]) && Continuation(s[2])
         && (s[0] != 0xE0 || s[1] >= 0xA0) && (s[0] != 0xED || s[1] <= 0x9F)
      then 3 else 0
    else if 0xF0 <= s[0] <= 0xF4 then
      if |s| >= 4 && Continuation(s[1]) && Continuation(s[2]) && Continuation(s[3])
         && (s[0] != 0xF0 || s[1] >= 0x90) && (s[0] != 0xF4 || s[1] <= 0x8F)
      then 4 else 0
    else 0
  }

  /** s is a sequence of well-formed UTF-8 scalars. */
  predicate Valid(s: seq<byte>)
    decreases |s|
  {
    s == [] || (ScalarLength(s) > 0 && Valid(s[ScalarLength(s)..]))
  }

  /** Every ASCII byte string is valid UTF-8. */
  lemma {:induction false} AsciiValid(s: seq<byte>)
    requires forall i :: 0 <= i < |s| ==> s[i] < 0x80
    ensures Valid(s)
    decreases |s|
  {
    if s != [] {
      AsciiValid(s[1..]);
    }
  }

  /** A scalar read at the start of s is read the same way when s is extended. */
  lemma ScalarLengthPrefix(s: seq<byte>, t: seq<byte>)
    requires ScalarLength(s) > 0
    ensures ScalarLength(s + t) == ScalarLength(s)
  {
    assert (s + t)[..|s|] == s;
  }

  /** The concatenation of two valid strings is valid. */
  lemma {:induction false} AppendValid(s: seq<byte>, t: seq<byte>)
    requires Valid(s) && Valid(t)
    ensures Valid(s + t)
    decreases |s|
  {
    if s == [] {
      assert s + t == t;
    } else {
      var k := ScalarLength(s);
      ScalarLengthPrefix(s, t);
      assert (s + t)[k..] == s[k..] + t;
      AppendValid(s[k..], t);
    }
  }
}
