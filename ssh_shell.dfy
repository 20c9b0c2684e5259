/**
 * What the two SSH drivers share: running a command in a remote shell with
 * its output framed by SOT (0x02) and EOT (0x03) markers, and the byte
 * stream of an scp upload (a `C` record header, the contents, a 0 byte),
 * copied to the channel through a 32-byte buffer.
 */
module SshShell {
  import opened Wrappers
  import opened Bytes
  import opened Io
  import Utf8

  const SOT: byte := 0x02
  const EOT: byte := 0x03
  /** Size of the intermediate buffer of an upload. */
  const CHUNK: nat := 32
  /** The command `hostname` in ASCII. */
  const HOSTNAME: seq<byte> := [0x68, 0x6F, 0x73, 0x74, 0x6E, 0x61, 0x6D, 0x65]
  /** The byte that ends an scp transfer (`CONFIRM`). */
  const CONFIRM: seq<byte> := [0]

  datatype SshError = ConnectionFailure | LoginFailure | ChannelFailure | IoFailure | Disconnected

  /** What the shell channel delivers: data, or any other channel message. */
  datatype ChannelMsg = Data(data: seq<byte>) | Other

  /** `printf "%b%s%b" "\002" "`` in ASCII: the part of the command line before the command. */
  const PRINTF_OPEN: seq<byte> := [0x70, 0x72, 0x69, 0x6E, 0x74, 0x66, 0x20, 0x22, 0x25, 0x62, 0x25, 0x73,
    0x25, 0x62, 0x22, 0x20, 0x22, 0x5C, 0x30, 0x30, 0x32, 0x22, 0x20, 0x22, 0x60]
  /** `` `" "\003"`` and a newline: the part after it. */
  const PRINTF_CLOSE: seq<byte> := [0x60, 0x22, 0x20, 0x22, 0x5C, 0x30, 0x30, 0x33, 0x22, 0x0A]

  /**
   * The line written to the shell: the command's output printed between an
   * SOT and an EOT (`printf "%b%s%b" "\002" "`command`" "\003"`).
   */
  function Padded(command: seq<byte>): (line: seq<byte>)
    ensures |line| == |PRINTF_OPEN| + |command| + |PRINTF_CLOSE|
    ensures line[|PRINTF_OPEN|..|PRINTF_OPEN| + |command|] == command
    ensures line[|line| - 1] == 0x0A
  {
    var line := PRINTF_OPEN + command + PRINTF_CLOSE;
    assert line[|PRINTF_OPEN|..|PRINTF_OPEN| + |command|] == command;
    line
  }

  // ---------------------------------------------------------------------
  // Marker extraction (`Shell::exec`).
  // ---------------------------------------------------------------------

  /**
   * The bytes strictly between the first SOT and the last EOT of the
   * buffer, once the first comes before the last.
   */
  function Extract(buffer: seq<byte>): (r: Option<seq<byte>>)
    ensures r.Some? <==> (SOT in buffer && EOT in buffer &&
      FirstIndex(buffer, SOT).value < LastIndex(buffer, EOT).value)
  {
    match (FirstIndex(buffer, SOT), LastIndex(buffer, EOT))
    case (Some(start), Some(end)) =>
      if start < end then Some(buffer[start + 1..end]) else None
    case _ => None
  }

  /**
   * Output that the markers frame is recovered whole, whatever it contains
   * (markers included), provided nothing before the frame is an SOT and
   * nothing after it is an EOT.
   */
  lemma ExtractFramed(before: seq<byte>, out: seq<byte>, after: seq<byte>)
    requires SOT !in before && EOT !in after
    ensures Extract(before + [SOT] + out + [EOT] + after) == Some(out)
  {
    var b := before + [SOT] + out + [EOT] + after;
    var s, e := FramedParts(b, before, out, after);
    ExtractAt(b, s, e);
  }

  /** An SOT with none before it and a later EOT with none after it frame what is extracted. */
  lemma ExtractAt(b: seq<byte>, s: nat, e: nat)
    requires s < e < |b| && b[s] == SOT && SOT !in b[..s] && b[e] == EOT && EOT !in b[e + 1..]
    ensures Extract(b) == Some(b[s + 1..e])
  {
    FirstIndexAt(b, SOT, s);
    LastIndexAt(b, EOT, e);
  }

  /** Where the markers of a framed buffer sit. */
  lemma FramedParts(b: seq<byte>, before: seq<byte>, out: seq<byte>, after: seq<byte>) returns (s: nat, e: nat)
    requires b == before + [SOT] + out + [EOT] + after
    requires SOT !in before && EOT !in after
    ensures s < e < |b| && b[s] == SOT && SOT !in b[..s] && b[e] == EOT && EOT !in b[e + 1..]
    ensures b[s + 1..e] == out
  {
    s, e := |before|, |before| + 1 + |out|;
    var head := before + [SOT] + out;
    assert b == head + ([EOT] + after);
    assert b[..s] == head[..s] == before;
    assert b[s + 1..e] == head[s + 1..] == out;
    assert b[e + 1..] == after;
  }

  /** The last occurrence is the only one with none after it. */
  lemma LastIndexAt(s: seq<byte>, x: byte, i: nat)
    requires i < |s| && s[i] == x && x !in s[i + 1..]
    ensures LastIndex(s, x) == Some(i)
  {
  }

  /**
   * The reply to an `exec`: the data messages are appended to a buffer one
   * at a time (other messages are skipped), and the first time the buffer
   * holds a framed output that output is the answer, refused when it is not
   * UTF-8. A channel that ends first is an I/O failure.
   */
  function Scan(buffer: seq<byte>, msgs: seq<ChannelMsg>): (r: Result<seq<byte>, SshError>)
    ensures r.Ok? ==> Utf8.Valid(r.value)
    ensures r.Err? ==> r.error == IoFailure
    decreases |msgs|
  {
    if msgs == [] then Err(IoFailure)
    else match msgs[0]
      case Other => Scan(buffer, msgs[1..])
      case Data(d) =>
        match Extract(buffer + d)
        case Some(out) => if Utf8.Valid(out) then Ok(out) else Err(IoFailure)
        case None => Scan(buffer + d, msgs[1..])
  }

  /** `exec` as a whole: the padded command is written first; a failed write is an I/O failure. */
  function ExecOutcome(writeOk: bool, msgs: seq<ChannelMsg>): Result<seq<byte>, SshError>
  {
    if !writeOk then Err(IoFailure) else Scan([], msgs)
  }

  /** A single reply carrying the framed output yields exactly that output. */
  lemma ExecFramed(before: seq<byte>, out: seq<byte>, after: seq<byte>, later: seq<ChannelMsg>)
    requires SOT !in before && EOT !in after && Utf8.Valid(out)
    ensures ExecOutcome(true, [Data(before + [SOT] + out + [EOT] + after)] + later) == Ok(out)
  {
    ExtractFramed(before, out, after);
    assert [] + (before + [SOT] + out + [EOT] + after) == before + [SOT] + out + [EOT] + after;
  }

  /** Messages that bring no data leave the outcome to what follows them. */
  lemma ScanSkipsOther(buffer: seq<byte>, msgs: seq<ChannelMsg>)
    ensures Scan(buffer, [Other] + msgs) == Scan(buffer, msgs)
  {
    assert ([Other] + msgs)[1..] == msgs;
  }

  // ---------------------------------------------------------------------
  // scp upload.
  // ---------------------------------------------------------------------

  /** `format!("C0{:o} {} {}\n", permissions, length, filename)`. */
  function UploadHeader(permissions: nat, length: nat, filename: seq<byte>): seq<byte>
  {
    [0x43, 0x30] + Digits(permissions, 8) + [0x20] + Digits(length, 10) + [0x20] + filename + [0x0A]
  }

  /** All that an upload puts on the channel: header, contents, the confirming 0. */
  function UploadStream(permissions: nat, filename: seq<byte>, contents: seq<byte>): seq<byte>
  {
    UploadHeader(permissions, |contents|, filename) + contents + CONFIRM
  }

  /** Where each field of the header sits. */
  lemma UploadHeaderLayout(permissions: nat, length: nat, filename: seq<byte>)
    ensures var h := UploadHeader(permissions, length, filename);
      var p := Digits(permissions, 8); var n := Digits(length, 10);
      |h| == 5 + |p| + |n| + |filename| &&
      h[..2] == [0x43, 0x30] && h[2..2 + |p|] == p && h[2 + |p|] == 0x20 &&
      h[3 + |p|..3 + |p| + |n|] == n && h[3 + |p| + |n|] == 0x20 &&
      h[4 + |p| + |n|..|h| - 1] == filename && h[|h| - 1] == 0x0A
  {
    FieldsLayout(Digits(permissions, 8), Digits(length, 10), filename);
  }

  /** Where the fields of a `C0<p> <n> <filename>` line sit, whatever the fields hold. */
  lemma FieldsLayout(p: seq<byte>, n: seq<byte>, filename: seq<byte>)
    ensures var h := [0x43, 0x30] + p + [0x20] + n + [0x20] + filename + [0x0A];
      |h| == 5 + |p| + |n| + |filename| &&
      h[..2] == [0x43, 0x30] && h[2..2 + |p|] == p && h[2 + |p|] == 0x20 &&
      h[3 + |p|..3 + |p| + |n|] == n && h[3 + |p| + |n|] == 0x20 &&
      h[4 + |p| + |n|..|h| - 1] == filename && h[|h| - 1] == 0x0A
  {
    var a := [0x43, 0x30] + p;
    var b := a + [0x20] + n;
    var c := b + [0x20];
    var h := c + filename + [0x0A];
    assert a[2..] == p;
    assert h[2..2 + |p|] == a[2..];
    assert b[3 + |p|..] == n;
    assert h[3 + |p|..3 + |p| + |n|] == b[3 + |p|..];
    assert h[4 + |p| + |n|..|h| - 1] == filename;
  }

  /**
   * The receiver reads the permissions (octal) and the length (decimal) back
   * from the header, and the contents follow it.
   */
  lemma UploadHeaderFields(permissions: nat, filename: seq<byte>, contents: seq<byte>)
    ensures var h := UploadHeader(permissions, |contents|, filename);
      var p := Digits(permissions, 8); var n := Digits(|contents|, 10);
      DigitValue(h[2..2 + |p|], 8) == permissions &&
      DigitValue(h[3 + |p|..3 + |p| + |n|], 10) == |contents| &&
      UploadStream(permissions, filename, contents)[|h|..|h| + |contents|] == contents
  {
    var h := UploadHeader(permissions, |contents|, filename);
    UploadHeaderLayout(permissions, |contents|, filename);
    FieldValue(h, 2, permissions, 8);
    FieldValue(h, 3 + |Digits(permissions, 8)|, |contents|, 10);
    MiddleOf(h, contents, CONFIRM);
  }

  /** A number's digits, wherever the header holds them, read back as the number. */
  lemma FieldValue(h: seq<byte>, at: nat, value: nat, radix: nat)
    requires radix == 8 || radix == 10
    requires at + |Digits(value, radix)| <= |h| && h[at..at + |Digits(value, radix)|] == Digits(value, radix)
    ensures DigitValue(h[at..at + |Digits(value, radix)|], radix) == value
  {
    DigitsRoundTrip(value, radix);
  }

  lemma MiddleOf(a: seq<byte>, m: seq<byte>, c: seq<byte>)
    ensures (a + m + c)[|a|..|a| + |m|] == m
  {
    assert a + m + c == a + (m + c);
  }

  /** One cursor read through the 32-byte buffer, repeatedly: pieces of at most 32 bytes. */
  function Split(p: seq<byte>): seq<seq<byte>>
    decreases |p|
  {
    if p == [] then []
    else if |p| <= CHUNK then [p]
    else [p[..CHUNK]] + Split(p[CHUNK..])
  }

  /** The pieces of the chained cursors: a read never spans two of them. */
  function Chunks(parts: seq<seq<byte>>): seq<seq<byte>>
  {
    if parts == [] then [] else Split(parts[0]) + Chunks(parts[1..])
  }

  /** Every piece read is non-empty and fits the buffer. */
  lemma {:induction false} SplitBounded(p: seq<byte>)
    ensures forall c :: c in Split(p) ==> 0 < |c| <= CHUNK
    decreases |p|
  {
    if |p| > CHUNK {
      SplitBounded(p[CHUNK..]);
    }
  }

  lemma {:induction false} ChunksBounded(parts: seq<seq<byte>>)
    ensures forall c :: c in Chunks(parts) ==> 0 < |c| <= CHUNK
  {
    if parts != [] {
      SplitBounded(parts[0]);
      ChunksBounded(parts[1..]);
    }
  }

  function Concat(chunks: seq<seq<byte>>): seq<byte>
  {
    if chunks == [] then [] else chunks[0] + Concat(chunks[1..])
  }

  lemma {:induction false} ConcatAppend(a: seq<seq<byte>>, b: seq<seq<byte>>)
    ensures Concat(a + b) == Concat(a) + Concat(b)
  {
    if a == [] {
      assert a + b == b;
    } else {
      assert (a + b)[1..] == a[1..] + b;
      ConcatAppend(a[1..], b);
    }
  }

  /** Splitting loses and reorders nothing. */
  lemma {:induction false} SplitConcat(p: seq<byte>)
    ensures Concat(Split(p)) == p
    decreases |p|
  {
    if |p| > CHUNK {
      SplitConcat(p[CHUNK..]);
      assert p[..CHUNK] + p[CHUNK..] == p;
    }
  }

  /** Sending the chunks in order sends the parts in order. */
  lemma {:induction false} ChunksConcat(parts: seq<seq<byte>>)
    ensures Concat(Chunks(parts)) == Concat(parts)
  {
    if parts != [] {
      ConcatAppend(Split(parts[0]), Chunks(parts[1..]));
      SplitConcat(parts[0]);
      ChunksConcat(parts[1..]);
    }
  }

  /**
   * The copy loop: read into the 32-byte buffer until a read returns 0,
   * sending each piece with `channel.data`; the i-th send succeeds iff
   * `Succeeds(dataOk, i)`. `rest` is what the chained cursors still hold.
   */
  method CopyOut(parts: seq<seq<byte>>, dataOk: seq<bool>) returns (sent: seq<seq<byte>>, success: bool)
    ensures (sent, success) == Transmit(Chunks(parts), dataOk, 0)
  {
    var done: seq<seq<byte>> := [];
    var rest := parts;
    while rest != []
      invariant Chunks(parts) == done + Chunks(rest)
      invariant forall j :: 0 <= j < |done| ==> Succeeds(dataOk, j)
      decreases |Chunks(rest)|, |rest|
    {
      if rest[0] == [] {
        ChunksSkip(rest);
        rest := rest[1..];
        continue;
      }
      var n := if |rest[0]| < CHUNK then |rest[0]| else CHUNK;
      var chunk := rest[0][..n];
      var next := [rest[0][n..]] + rest[1..];
      ChunksStep(rest, n);
      SentStep(parts, done, chunk, Chunks(next));
      if !Succeeds(dataOk, |done|) {
        TransmitPrefix(Chunks(parts), dataOk, |done|);
        return done + [chunk], false;
      }
      done := done + [chunk];
      rest := next;
    }
    assert done + [] == done;
    TransmitPrefix(Chunks(parts), dataOk, |done|);
    return done, true;
  }

  /** Bookkeeping of one piece read: it joins the sent ones, at index |done|. */
  lemma SentStep(parts: seq<seq<byte>>, done: seq<seq<byte>>, chunk: seq<byte>, later: seq<seq<byte>>)
    requires Chunks(parts) == done + ([chunk] + later)
    ensures Chunks(parts) == (done + [chunk]) + later
    ensures Chunks(parts)[..|done|] == done && Chunks(parts)[|done|] == chunk
    ensures Chunks(parts)[..|done| + 1] == done + [chunk]
  {
    assert done + ([chunk] + later) == (done + [chunk]) + later;
  }

  /** An exhausted cursor yields nothing more. */
  lemma ChunksSkip(rest: seq<seq<byte>>)
    requires rest != [] && rest[0] == []
    ensures Chunks(rest) == Chunks(rest[1..])
  {
  }

  /** One read from the chain: the next piece of the first non-empty cursor. */
  lemma ChunksStep(rest: seq<seq<byte>>, n: nat)
    requires rest != [] && rest[0] != []
    requires n == (if |rest[0]| < CHUNK then |rest[0]| else CHUNK)
    ensures Chunks(rest) == [rest[0][..n]] + Chunks([rest[0][n..]] + rest[1..])
  {
    var p, tail := rest[0], rest[1..];
    var next := [p[n..]] + tail;
    assert Chunks(rest) == Split(p) + Chunks(tail);
    assert next[0] == p[n..] && next[1..] == tail;
    assert Chunks(next) == Split(p[n..]) + Chunks(tail);
    SplitStep(p, n);
    assert ([p[..n]] + Split(p[n..])) + Chunks(tail) == [p[..n]] + (Split(p[n..]) + Chunks(tail));
  }

  /** The first read of a non-empty cursor takes min(32, length) bytes. */
  lemma SplitStep(p: seq<byte>, n: nat)
    requires p != [] && n == (if |p| < CHUNK then |p| else CHUNK)
    ensures Split(p) == [p[..n]] + Split(p[n..])
  {
    if |p| <= CHUNK {
      assert p[n..] == [] && p[..n] == p;
    }
  }

  // ---------------------------------------------------------------------
  // Connection set-up, `exec` and `upload` as performed on a session.
  // ---------------------------------------------------------------------

  /** `Shell::new`: open a session channel, then request a shell on it. */
  function OpenShell(channelOpened: bool, shellGranted: bool): (r: Result<(), SshError>)
    ensures r.Ok? <==> channelOpened && shellGranted
    ensures !channelOpened ==> r == Err(ChannelFailure)
    ensures channelOpened && !shellGranted ==> r == Err(IoFailure)
  {
    if !channelOpened then Err(ChannelFailure)
    else if !shellGranted then Err(IoFailure)
    else Ok(())
  }

  /**
   * Connecting and logging in as root with an empty password, then opening
   * the shell. `login` is the answer of the password authentication, None
   * when the exchange itself failed.
   */
  function ConnectOutcome(reachable: bool, login: Option<bool>, channelOpened: bool, shellGranted: bool): (r: Result<(), SshError>)
    ensures r.Ok? <==> reachable && login == Some(true) && channelOpened && shellGranted
    ensures (!reachable || login.None?) ==> r == Err(ConnectionFailure)
    ensures r == Err(LoginFailure) <==> reachable && login == Some(false)
    ensures r.Err? ==> r.error != Disconnected
  {
    if !reachable || login.None? then Err(ConnectionFailure)
    else if !login.value then Err(LoginFailure)
    else OpenShell(channelOpened, shellGranted)
  }

  /**
   * `Shell::exec`: write the padded command, then collect the channel's
   * data until it frames an output. `written` is what goes on the channel.
   */
  method Exec(command: seq<byte>, writeOk: bool, msgs: seq<ChannelMsg>) returns (written: seq<byte>, r: Result<seq<byte>, SshError>)
    ensures written == Padded(command)
    ensures r == ExecOutcome(writeOk, msgs)
  {
    written := Padded(command);
    if !writeOk {
      return written, Err(IoFailure);
    }
    var buffer: seq<byte> := [];
    var i := 0;
    while i < |msgs|
      invariant 0 <= i <= |msgs|
      invariant Scan(buffer, msgs[i..]) == Scan([], msgs)
    {
      assert msgs[i..][1..] == msgs[i + 1..];
      match msgs[i] {
        case Other =>
        case Data(d) =>
          buffer := buffer + d;
          var framed := Extract(buffer);
          if framed.Some? {
            if Utf8.Valid(framed.value) {
              return written, Ok(framed.value);
            }
            return written, Err(IoFailure);
          }
      }
      i := i + 1;
    }
    return written, Err(IoFailure);
  }

  /** The pieces an upload reads from header, contents and confirming byte. */
  function UploadChunks(permissions: nat, filename: seq<byte>, contents: seq<byte>): seq<seq<byte>>
  {
    Chunks([UploadHeader(permissions, |contents|, filename), contents, CONFIRM])
  }

  /**
   * An upload on an open session: open a channel, `exec` "scp -t", copy the
   * stream, send EOF. The pieces sent so far, and the outcome.
   */
  function UploadOutcome(permissions: nat, filename: seq<byte>, contents: seq<byte>,
                         channelOk: bool, execOk: bool, dataOk: seq<bool>, eofOk: bool): (seq<seq<byte>>, Result<(), SshError>)
  {
    if !channelOk then ([], Err(ChannelFailure))
    else if !execOk then ([], Err(IoFailure))
    else
      var t := Transmit(UploadChunks(permissions, filename, contents), dataOk, 0);
      if !t.1 then (t.0, Err(IoFailure))
      else if !eofOk then (t.0, Err(ChannelFailure))
      else (t.0, Ok(()))
  }

  /**
   * The upload succeeds exactly when every step does, and then the receiver
   * got the whole stream of header, contents and confirming 0, in order; a
   * failed data send leaves a prefix of the pieces on the channel.
   */
  lemma UploadDelivers(permissions: nat, filename: seq<byte>, contents: seq<byte>,
                       channelOk: bool, execOk: bool, dataOk: seq<bool>, eofOk: bool)
    ensures var o := UploadOutcome(permissions, filename, contents, channelOk, execOk, dataOk, eofOk);
      var chunks := UploadChunks(permissions, filename, contents);
      o.1.Ok? <==> channelOk && execOk && eofOk && forall j :: 0 <= j < |chunks| ==> Succeeds(dataOk, j)
    ensures var o := UploadOutcome(permissions, filename, contents, channelOk, execOk, dataOk, eofOk);
      o.1.Ok? ==> Concat(o.0) == UploadStream(permissions, filename, contents)
    ensures var o := UploadOutcome(permissions, filename, contents, channelOk, execOk, dataOk, eofOk);
      var chunks := UploadChunks(permissions, filename, contents);
      |o.0| <= |chunks| && o.0 == chunks[..|o.0|]
  {
    var chunks := UploadChunks(permissions, filename, contents);
    var h := UploadHeader(permissions, |contents|, filename);
    TransmitStops(chunks, dataOk, 0);
    var t := Transmit(chunks, dataOk, 0);
    if t.1 {
      assert t.0 == chunks[0..|chunks|] == chunks;
    }
    ChunksConcat([h, contents, CONFIRM]);
    Concat3(h, contents, CONFIRM);
  }

  lemma Concat3(a: seq<byte>, b: seq<byte>, c: seq<byte>)
    ensures Concat([a, b, c]) == a + b + c
  {
    var none: seq<seq<byte>> := [];
    var l := [a, b, c];
    assert l[1..] == [b, c];
    assert [b, c][1..] == [c];
    assert [c][1..] == none;
    assert Concat([c]) == c + Concat(none) == c;
  }

  /** `scp -t ` in ASCII. */
  const SCP_SINK: seq<byte> := [0x73, 0x63, 0x70, 0x20, 0x2D, 0x74, 0x20]

  /**
   * `upload` on an open session, into `directory`. `command` is what the
   * new channel is asked to execute (empty when the channel did not open).
   */
  method Upload(directory: seq<byte>, permissions: nat, filename: seq<byte>, contents: seq<byte>,
                channelOk: bool, execOk: bool, dataOk: seq<bool>, eofOk: bool)
    returns (command: seq<byte>, sent: seq<seq<byte>>, r: Result<(), SshError>)
    ensures command == if channelOk then SCP_SINK + directory else []
    ensures (sent, r) == UploadOutcome(permissions, filename, contents, channelOk, execOk, dataOk, eofOk)
  {
    if !channelOk {
      return [], [], Err(ChannelFailure);
    }
    command := SCP_SINK + directory;
    if !execOk {
      return command, [], Err(IoFailure);
    }
    var header := UploadHeader(permissions, |contents|, filename);
    var success;
    sent, success := CopyOut([header, contents, CONFIRM], dataOk);
    if !success {
      return command, sent, Err(IoFailure);
    }
    if !eofOk {
      return command, sent, Err(ChannelFailure);
    }
    return command, sent, Ok(());
  }
}
