/**
 * The SSH driver of a Pi-Puck or BuilderBot: a device exists only once the
 * session is open, and it remembers the temporary directory its control
 * software is uploaded to. The listing of that directory is `md5sum`
 * output, read back as (checksum, path) pairs.
 */
module RobotSsh {
  import opened Wrappers
  import opened Bytes
  import opened Net
  import opened SshShell

  /** `mktemp -d` in ASCII. */
  const MKTEMP: seq<byte> := [0x6D, 0x6B, 0x74, 0x65, 0x6D, 0x70, 0x20, 0x2D, 0x64]
  /** `find ` and ` -type f -exec md5sum '{}' \;` in ASCII, around the directory. */
  const FIND_OPEN: seq<byte> := [0x66, 0x69, 0x6E, 0x64, 0x20]
  const FIND_CLOSE: seq<byte> := [0x20, 0x2D, 0x74, 0x79, 0x70, 0x65, 0x20, 0x66, 0x20, 0x2D, 0x65, 0x78,
    0x65, 0x63, 0x20, 0x6D, 0x64, 0x35, 0x73, 0x75, 0x6D, 0x20, 0x27, 0x7B, 0x7D, 0x27, 0x20, 0x5C, 0x3B]
  /** `0o644`. */
  const CTRL_PERMISSIONS: nat := 420

  // ---------------------------------------------------------------------
  // `split_whitespace` and `tuples`.
  // ---------------------------------------------------------------------

  /**
   * `char::is_whitespace`: the code points with the Unicode White_Space
   * property.
   */
  predicate WhiteSpace(c: nat)
  {
    0x09 <= c <= 0x0D || c == 0x20 || c == 0x85 || c == 0xA0 || c == 0x1680
    || 0x2000 <= c <= 0x200A || c == 0x2028 || c == 0x2029 || c == 0x202F
    || c == 0x205F || c == 0x3000
  }

  /** The UTF-8 encoding of a code point of the Basic Multilingual Plane. */
  function Encode(c: nat): (e: seq<byte>)
    requires c < 0x10000
    ensures 1 <= |e| <= 3
  {
    if c < 0x80 then [c]
    else if c < 0x800 then [0xC0 + c / 64, 0x80 + c % 64]
    else [0xE0 + c / 4096, 0x80 + c / 64 % 64, 0x80 + c % 64]
  }

  /**
   * The length of the encoding of the whitespace character at the front of
   * s, or 0 when s does not start with one. A lead byte of these encodings
   * is never a continuation byte, so on well-formed UTF-8 a match starts on
   * a character boundary.
   */
  function SpaceLength(s: seq<byte>): (n: nat)
    ensures n <= 3 && n <= |s|
  {
    if s == [] then 0
    else if 0x09 <= s[0] <= 0x0D || s[0] == 0x20 then 1
    else if |s| >= 2 && s[0] == 0xC2 && (s[1] == 0x85 || s[1] == 0xA0) then 2
    else if |s| >= 3 && s[0] == 0xE1 && s[1] == 0x9A && s[2] == 0x80 then 3
    else if |s| >= 3 && s[0] == 0xE2 && s[1] == 0x80
            && (0x80 <= s[2] <= 0x8A || s[2] == 0xA8 || s[2] == 0xA9 || s[2] == 0xAF) then 3
    else if |s| >= 3 && s[0] == 0xE2 && s[1] == 0x81 && s[2] == 0x9F then 3
    else if |s| >= 3 && s[0] == 0xE3 && s[1] == 0x80 && s[2] == 0x80 then 3
    else 0
  }

  /** Every whitespace character is recognised, whatever follows it. */
  lemma SpaceLengthComplete(c: nat, rest: seq<byte>)
    requires WhiteSpace(c)
    ensures SpaceLength(Encode(c) + rest) == |Encode(c)|
  {
    var s := Encode(c) + rest;
    if c < 0x80 {
      assert s[0] == c;
    } else if c < 0x800 {
      assert s[0] == 0xC2 && s[1] == 0x80 + c % 64;
    } else {
      var e := Encode(c);
      if c == 0x1680 {
        assert e == [0xE1, 0x9A, 0x80];
      } else if c < 0x2040 {
        assert e == [0xE2, 0x80, 0x80 + (c - 0x2000)];
      } else if c == 0x205F {
        assert e == [0xE2, 0x81, 0x9F];
      } else {
        assert e == [0xE3, 0x80, 0x80];
      }
      assert s[..3] == e;
    }
  }

  /** Only whitespace characters are recognised: what is read is the encoding of one. */
  lemma SpaceLengthSound(s: seq<byte>) returns (c: nat)
    requires SpaceLength(s) > 0
    ensures WhiteSpace(c) && s[..SpaceLength(s)] == Encode(c)
  {
    if s[0] < 0x80 {
      c := s[0];
    } else if s[0] == 0xC2 {
      c := s[1];
    } else if s[0] == 0xE1 {
      c := 0x1680;
    } else if s[0] == 0xE2 && s[1] == 0x80 {
      var low: int := s[2];
      c := 0x2000 + low - 0x80;
    } else if s[0] == 0xE2 {
      c := 0x205F;
    } else {
      c := 0x3000;
    }
  }

  /** A whitespace character at the front is read the same way when more follows. */
  lemma SpaceLengthPrefix(p: seq<byte>, q: seq<byte>)
    ensures SpaceLength(p) > 0 ==> SpaceLength(p + q) == SpaceLength(p)
  {
    if SpaceLength(p) > 0 {
      assert (p + q)[..SpaceLength(p)] == p[..SpaceLength(p)];
    }
  }

  /**
   * No whitespace character starts inside p followed by one: the bytes
   * after its lead byte are never a lead byte or ASCII.
   */
  lemma SpaceLengthBefore(p: seq<byte>, sep: seq<byte>, rest: seq<byte>)
    requires p != [] && SpaceLength(p) == 0 && SpaceLength(sep) > 0
    ensures SpaceLength(p + sep + rest) == 0
  {
    var s := p + sep + rest;
    assert s[0] == p[0];
    if |p| == 1 {
      assert s[1] == sep[0];
    } else if |p| == 2 {
      assert s[1] == p[1] && s[2] == sep[0];
    } else {
      assert s[1] == p[1] && s[2] == p[2];
    }
  }

  /** A sequence of whitespace characters. */
  predicate Blank(sep: seq<byte>)
    decreases |sep|
  {
    sep == [] || (SpaceLength(sep) > 0 && Blank(sep[SpaceLength(sep)..]))
  }

  /** A token: non-empty, and no whitespace character starts anywhere in it. */
  predicate Word(w: seq<byte>)
  {
    w != [] && forall i :: 0 <= i < |w| ==> SpaceLength(w[i..]) == 0
  }

  /** The length of the run before the first whitespace character. */
  function WordLength(s: seq<byte>): (n: nat)
    ensures n <= |s|
    ensures forall i :: 0 <= i < n ==> SpaceLength(s[i..]) == 0
    ensures n == |s| || SpaceLength(s[n..]) > 0
  {
    if s == [] || SpaceLength(s) > 0 then 0
    else
      assert forall i :: 1 <= i <= |s| ==> s[1..][i - 1..] == s[i..];
      1 + WordLength(s[1..])
  }

  /** The run before the first whitespace character is a token by itself. */
  lemma TokenWord(s: seq<byte>)
    requires WordLength(s) > 0
    ensures Word(s[..WordLength(s)])
  {
    var n := WordLength(s);
    forall i | 0 <= i < n
      ensures SpaceLength(s[..n][i..]) == 0
    {
      assert s[..n][i..] + s[n..] == s[i..];
      SpaceLengthPrefix(s[..n][i..], s[n..]);
    }
  }

  /** `split_whitespace`: the maximal whitespace-free pieces, in order. */
  function Tokens(s: seq<byte>): (t: seq<seq<byte>>)
    ensures forall w :: w in t ==> Word(w)
    decreases |s|
  {
    if s == [] then []
    else if SpaceLength(s) > 0 then Tokens(s[SpaceLength(s)..])
    else
      var n := WordLength(s);
      TokenWord(s);
      [s[..n]] + Tokens(s[n..])
  }

  /** Tokens, each followed by the separator sep. */
  function Joined(ts: seq<seq<byte>>, sep: seq<byte>): seq<byte>
  {
    if ts == [] then [] else ts[0] + sep + Joined(ts[1..], sep)
  }

  /** A word followed by whitespace is read as one token. */
  lemma {:induction false} WordLengthOf(w: seq<byte>, sep: seq<byte>, rest: seq<byte>)
    requires Word(w) && SpaceLength(sep) > 0
    ensures WordLength(w + sep + rest) == |w|
    decreases |w|
  {
    var s := w + sep + rest;
    assert w[0..] == w;
    SpaceLengthBefore(w, sep, rest);
    if |w| > 1 {
      assert s[1..] == w[1..] + sep + rest;
      assert forall i :: 0 <= i < |w| - 1 ==> w[1..][i..] == w[i + 1..];
      WordLengthOf(w[1..], sep, rest);
    } else {
      assert s[1..] == sep + rest;
      SpaceLengthPrefix(sep, rest);
    }
  }

  /** Whitespace in front is skipped. */
  lemma {:induction false} TokensBlank(sep: seq<byte>, rest: seq<byte>)
    requires Blank(sep)
    ensures Tokens(sep + rest) == Tokens(rest)
    decreases |sep|
  {
    if sep == [] {
      assert sep + rest == rest;
    } else {
      var k := SpaceLength(sep);
      SpaceLengthPrefix(sep, rest);
      assert (sep + rest)[k..] == sep[k..] + rest;
      TokensBlank(sep[k..], rest);
    }
  }

  /** A word followed by whitespace is the next token. */
  lemma TokensStep(w: seq<byte>, sep: seq<byte>, rest: seq<byte>)
    requires Word(w) && sep != [] && Blank(sep)
    ensures Tokens(w + sep + rest) == [w] + Tokens(rest)
  {
    var s := w + sep + rest;
    WordLengthOf(w, sep, rest);
    assert s[0..] == s;
    assert s[..|w|] == w;
    assert s[|w|..] == sep + rest;
    TokensBlank(sep, rest);
  }

  /** Splitting reads back the tokens that were joined by whitespace. */
  lemma {:induction false} TokensJoined(ts: seq<seq<byte>>, sep: seq<byte>)
    requires forall w :: w in ts ==> Word(w)
    requires sep != [] && Blank(sep)
    ensures Tokens(Joined(ts, sep)) == ts
  {
    if ts != [] {
      TokensStep(ts[0], sep, Joined(ts[1..], sep));
      TokensJoined(ts[1..], sep);
    }
  }

  /** Any one whitespace character, ASCII or not, separates tokens. */
  lemma SeparatedByWhiteSpace(ts: seq<seq<byte>>, c: nat)
    requires forall w :: w in ts ==> Word(w)
    requires WhiteSpace(c)
    ensures Tokens(Joined(ts, Encode(c))) == ts
  {
    var e := Encode(c);
    SpaceLengthComplete(c, []);
    assert e + [] == e;
    assert e[|e|..] == [];
    TokensJoined(ts, e);
  }

  /** `tuples::<(_, _)>()`: consecutive pairs, an unpaired last element dropped. */
  function Pairs<T>(t: seq<T>): (p: seq<(T, T)>)
    ensures |p| == |t| / 2
    ensures forall i :: 0 <= i < |p| ==> p[i] == (t[2 * i], t[2 * i + 1])
    decreases |t|
  {
    if |t| < 2 then []
    else
      var rest := Pairs(t[2..]);
      assert forall i :: 1 <= i <= |rest| ==> rest[i - 1] == (t[2 * i], t[2 * i + 1]);
      [(t[0], t[1])] + rest
  }

  /** An odd element at the end is ignored. */
  lemma PairsDropsLast<T>(t: seq<T>)
    requires |t| % 2 == 1
    ensures Pairs(t) == Pairs(t[..|t| - 1])
  {
    var a, b := Pairs(t), Pairs(t[..|t| - 1]);
    assert |a| == |b|;
    assert forall i :: 0 <= i < |a| ==> a[i] == b[i];
  }

  /** The listing of the control-software directory: (checksum, path) per file. */
  function Listing(output: seq<byte>): (l: seq<(seq<byte>, seq<byte>)>)
    ensures |l| == |Tokens(output)| / 2
  {
    Pairs(Tokens(output))
  }

  /** Two spaces and a line feed: what `md5sum` puts after a checksum and after a path. */
  const TWO_SPACES: seq<byte> := [0x20, 0x20]
  const LINE_FEED: seq<byte> := [0x0A]

  /** The output of `md5sum`: one `<checksum>  <path>` line per file. */
  function Md5sumLines(entries: seq<(seq<byte>, seq<byte>)>): seq<byte>
  {
    if entries == [] then []
    else entries[0].0 + TWO_SPACES + entries[0].1 + LINE_FEED + Md5sumLines(entries[1..])
  }

  /** The fields of the entries, in order. */
  function Flat(entries: seq<(seq<byte>, seq<byte>)>): (t: seq<seq<byte>>)
    ensures |t| == 2 * |entries|
  {
    if entries == [] then [] else [entries[0].0, entries[0].1] + Flat(entries[1..])
  }

  /** The tokens of `md5sum` output are the checksums and paths, in order. */
  lemma {:induction false} TokensOfLines(entries: seq<(seq<byte>, seq<byte>)>)
    requires forall i :: 0 <= i < |entries| ==> Word(entries[i].0) && Word(entries[i].1)
    ensures Tokens(Md5sumLines(entries)) == Flat(entries)
  {
    if entries != [] {
      var (c, p) := entries[0];
      var rest := Md5sumLines(entries[1..]);
      assert TWO_SPACES[1..] == [0x20];
      assert Blank(TWO_SPACES);
      assert Blank(LINE_FEED);
      assert Md5sumLines(entries) == c + TWO_SPACES + (p + LINE_FEED + rest);
      TokensStep(c, TWO_SPACES, p + LINE_FEED + rest);
      TokensStep(p, LINE_FEED, rest);
      assert forall i :: 0 <= i < |entries| - 1 ==> entries[1..][i] == entries[i + 1];
      TokensOfLines(entries[1..]);
    }
  }

  /** An `md5sum` line per file is listed as its (checksum, path) pair, in order. */
  lemma ListingOfLines(entries: seq<(seq<byte>, seq<byte>)>)
    requires forall i :: 0 <= i < |entries| ==> Word(entries[i].0) && Word(entries[i].1)
    ensures Listing(Md5sumLines(entries)) == entries
  {
    TokensOfLines(entries);
    FlatPairs(entries);
  }

  lemma {:induction false} FlatPairs(entries: seq<(seq<byte>, seq<byte>)>)
    ensures Pairs(Flat(entries)) == entries
  {
    if entries != [] {
      var t := Flat(entries);
      assert t[2..] == Flat(entries[1..]);
      FlatPairs(entries[1..]);
    }
  }

  // ---------------------------------------------------------------------
  // The device.
  // ---------------------------------------------------------------------

  /** `find <path> -type f -exec md5sum '{}' \;`. */
  function FindQuery(path: seq<byte>): (q: seq<byte>)
    ensures |q| == |FIND_OPEN| + |path| + |FIND_CLOSE|
    ensures q[|FIND_OPEN|..|FIND_OPEN| + |path|] == path
  {
    var q := FIND_OPEN + path + FIND_CLOSE;
    assert q[|FIND_OPEN|..|FIND_OPEN| + |path|] == path;
    q
  }

  class Device {
    var addr: Ipv4
    var ctrlSoftwarePath: Option<seq<byte>>

    /** The device over a freshly opened session: no control-software directory yet. */
    constructor (addr: Ipv4)
      ensures this.addr == addr && ctrlSoftwarePath.None?
    {
      this.addr := addr;
      ctrlSoftwarePath := None;
    }

    /**
     * `clear_ctrl_software`: the output of `mktemp -d` becomes the directory;
     * when the command fails the directory is kept and the error returned.
     */
    method ClearCtrlSoftware(writeOk: bool, msgs: seq<ChannelMsg>) returns (r: Result<(), SshError>)
      modifies this
      ensures var e := ExecOutcome(writeOk, msgs);
        (e.Ok? ==> r == Ok(()) && ctrlSoftwarePath == Some(e.value)) &&
        (e.Err? ==> r == Err(e.error) && ctrlSoftwarePath == old(ctrlSoftwarePath))
      ensures addr == old(addr)
    {
      var written, path := Exec(MKTEMP, writeOk, msgs);
      if path.Err? {
        return Err(path.error);
      }
      ctrlSoftwarePath := Some(path.value);
      return Ok(());
    }

    /** `add_ctrl_software`: an upload with permissions 0o644 into the directory, which must be set. */
    method AddCtrlSoftware(filename: seq<byte>, contents: seq<byte>,
                           channelOk: bool, execOk: bool, dataOk: seq<bool>, eofOk: bool)
      returns (command: seq<byte>, sent: seq<seq<byte>>, r: Result<(), SshError>)
      ensures ctrlSoftwarePath.None? ==> command == [] && sent == [] && r == Err(IoFailure)
      ensures ctrlSoftwarePath.Some? ==>
        command == (if channelOk then SCP_SINK + ctrlSoftwarePath.value else []) &&
        (sent, r) == UploadOutcome(CTRL_PERMISSIONS, filename, contents, channelOk, execOk, dataOk, eofOk)
    {
      if ctrlSoftwarePath.None? {
        return [], [], Err(IoFailure);
      }
      command, sent, r := Upload(ctrlSoftwarePath.value, CTRL_PERMISSIONS, filename, contents,
                                 channelOk, execOk, dataOk, eofOk);
    }

    /**
     * `ctrl_software`: nothing without a directory; otherwise the checksum
     * listing of its files. `written` is the line sent to the shell.
     */
    method CtrlSoftware(writeOk: bool, msgs: seq<ChannelMsg>)
      returns (written: seq<byte>, r: Result<seq<(seq<byte>, seq<byte>)>, SshError>)
      ensures ctrlSoftwarePath.None? ==> written == [] && r == Ok([])
      ensures ctrlSoftwarePath.Some? ==> written == Padded(FindQuery(ctrlSoftwarePath.value))
      ensures ctrlSoftwarePath.Some? ==>
        r == (var e := ExecOutcome(writeOk, msgs); if e.Ok? then Ok(Listing(e.value)) else Err(e.error))
    {
      if ctrlSoftwarePath.None? {
        return [], Ok([]);
      }
      var response;
      written, response := Exec(FindQuery(ctrlSoftwarePath.value), writeOk, msgs);
      if response.Err? {
        return written, Err(response.error);
      }
      return written, Ok(Pairs(Tokens(response.value)));
    }

    /** `hostname`. */
    method Hostname(writeOk: bool, msgs: seq<ChannelMsg>) returns (r: Result<seq<byte>, SshError>)
      ensures r == ExecOutcome(writeOk, msgs)
    {
      var written;
      written, r := Exec(HOSTNAME, writeOk, msgs);
    }
  }

  /** `Device::new`: connect, log in, open the shell; the device exists only on success. */
  method NewDevice(addr: Ipv4, reachable: bool, login: Option<bool>, channelOpened: bool, shellGranted: bool)
    returns (r: Result<Device, SshError>)
    ensures r.Err? <==> ConnectOutcome(reachable, login, channelOpened, shellGranted).Err?
    ensures r.Err? ==> r.error == ConnectOutcome(reachable, login, channelOpened, shellGranted).error
    ensures r.Ok? ==> fresh(r.value) && r.value.addr == addr && r.value.ctrlSoftwarePath.None?
  {
    var connected := ConnectOutcome(reachable, login, channelOpened, shellGranted);
    if connected.Err? {
      return Err(connected.error);
    }
    var device := new Device(addr);
    return Ok(device);
  }
}
