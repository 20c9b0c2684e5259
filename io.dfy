/**
 * Outcomes of the sends and reads the drivers perform. The i-th attempt
 * succeeds exactly when `ok[i]` is true; attempts beyond the end of `ok`
 * fail.
 */
module Io {
  predicate Succeeds(ok: seq<bool>, i: nat)
  {
    i < |ok| && ok[i]
  }

  /**
   * Sending `items` in order with `?` after each send, starting at attempt i:
   * the items attempted (the last one is the failing one, if any) and
   * whether all went through.
   */
  function Transmit<T>(items: seq<T>, ok: seq<bool>, i: nat): (r: (seq<T>, bool))
    requires i <= |items|
    ensures |r.0| <= |items| - i
    decreases |items| - i
  {
    if i == |items| then ([], true)
    else if !Succeeds(ok, i) then ([items[i]], false)
    else
      var rest := Transmit(items, ok, i + 1);
      ([items[i]] + rest.0, rest.1)
  }

  /**
   * The attempted items are a prefix of the list; all sends succeeded exactly
   * when every item was attempted, and otherwise the last attempt is the
   * first failure.
   */
  lemma {:induction false} TransmitStops<T>(items: seq<T>, ok: seq<bool>, i: nat)
    requires i <= |items|
    ensures var r := Transmit(items, ok, i);
      r.0 == items[i..i + |r.0|] &&
      (r.1 <==> forall j :: i <= j < |items| ==> Succeeds(ok, j)) &&
      (r.1 ==> |r.0| == |items| - i) &&
      (!r.1 ==> |r.0| > 0 && !Succeeds(ok, i + |r.0| - 1)) &&
      (forall j :: i <= j < i + |r.0| - 1 ==> Succeeds(ok, j))
    decreases |items| - i
  {
    if i < |items| && Succeeds(ok, i) {
      TransmitStops(items, ok, i + 1);
      var rest := Transmit(items, ok, i + 1);
      assert [items[i]] + rest.0 == items[i..i + 1 + |rest.0|];
    }
  }

  /** After i successful sends, the rest of the transmission starts at attempt i. */
  lemma {:induction false} TransmitPrefix<T>(items: seq<T>, ok: seq<bool>, i: nat)
    requires i <= |items|
    requires forall j :: 0 <= j < i ==> Succeeds(ok, j)
    ensures Transmit(items, ok, 0) == (items[..i] + Transmit(items, ok, i).0, Transmit(items, ok, i).1)
    decreases i
  {
    if i == 0 {
      assert items[..0] + Transmit(items, ok, 0).0 == Transmit(items, ok, 0).0;
    } else {
      TransmitPrefix(items, ok, i - 1);
      var rest := Transmit(items, ok, i);
      assert Transmit(items, ok, i - 1) == ([items[i - 1]] + rest.0, rest.1);
      assert items[..i - 1] + [items[i - 1]] == items[..i];
      assert items[..i - 1] + ([items[i - 1]] + rest.0) == items[..i] + rest.0;
    }
  }

  /** Two sends in a row, each with `?`. */
  lemma TransmitTwo<T>(a: T, b: T, ok: seq<bool>)
    ensures Transmit([a, b], ok, 0) ==
      if !Succeeds(ok, 0) then ([a], false)
      else if !Succeeds(ok, 1) then ([a, b], false)
      else ([a, b], true)
  {
    var items := [a, b];
    assert Transmit(items, ok, 2) == ([], true);
    assert [b] + [] == [b];
    assert [a] + [b] == [a, b];
  }

  /** The for loop over `items` with a fallible send in its body. */
  method SendAll<T>(items: seq<T>, ok: seq<bool>) returns (sent: seq<T>, success: bool)
    ensures (sent, success) == Transmit(items, ok, 0)
  {
    var i := 0;
    while i < |items|
      invariant 0 <= i <= |items|
      invariant forall j :: 0 <= j < i ==> Succeeds(ok, j)
    {
      if !Succeeds(ok, i) {
        TransmitPrefix(items, ok, i);
        assert items[..i] + [items[i]] == items[..i + 1];
        return items[..i + 1], false;
      }
      i := i + 1;
    }
    TransmitPrefix(items, ok, i);
    assert items[..i] + [] == items;
    return items, true;
  }
}
