/**
 * A control-software bundle: an ordered list of (file name, contents)
 * entries. Adding a file replaces the contents of the entry of that name or
 * appends a new entry. A bundle is usable when exactly one of its names
 * contains ".argos" and every Lua script that configuration refers to is in
 * the bundle.
 */
module Software {
  import opened Wrappers
  import opened Bytes
  import Utf8

  type Entry = (string, seq<byte>)

  datatype SoftwareError =
    | MissingConfigurationFile
    | MultipleConfigurationFiles
    | MissingReferencedFile(script: string)
    | DecodeError
    | ParseError

  // ---------------------------------------------------------------------
  // File names compared as paths (`PathBuf` equality on Unix).
  // ---------------------------------------------------------------------

  /** A component of a Unix path (`std::path::Component`). */
  datatype Component = RootDir | CurDir | ParentDir | Normal(name: string)

  /** The length of the piece before the first separator. */
  function SegmentLength(p: string): (n: nat)
    ensures n <= |p| && '/' !in p[..n] && (n == |p| || p[n] == '/')
  {
    if p == [] || p[0] == '/' then 0
    else
      var n := SegmentLength(p[1..]);
      assert p[..n + 1] == [p[0]] + p[1..][..n];
      n + 1
  }

  /** The component a piece between separators stands for: "." stands for none. */
  function Piece(s: string): seq<Component>
  {
    if s == "." then [] else if s == ".." then [ParentDir] else [Normal(s)]
  }

  /** The components of the pieces between separators, empty pieces and "." dropped. */
  function Body(p: string): seq<Component>
    decreases |p|
  {
    if p == [] then []
    else if p[0] == '/' then Body(p[1..])
    else
      var n := SegmentLength(p);
      Piece(p[..n]) + Body(p[n..])
  }

  /** What a path starts with: `RootDir`, one `CurDir`, or nothing. */
  function Head(p: string): seq<Component>
  {
    if |p| > 0 && p[0] == '/' then [RootDir]
    else if p == "." || (|p| >= 2 && p[..2] == "./") then [CurDir]
    else []
  }

  /**
   * `Path::components`: a leading separator is `RootDir`; a relative path
   * that starts with the piece "." keeps one `CurDir`; every other "." ,
   * every empty piece and so every repeated or trailing separator is gone.
   */
  function Components(p: string): (c: seq<Component>)
    ensures |p| > 0 && p[0] == '/' ==> |c| > 0 && c[0] == RootDir
  {
    Head(p) + Body(p)
  }

  /** `Path`'s `==`: the same components. */
  predicate SamePath(a: string, b: string)
  {
    Components(a) == Components(b)
  }

  /** A separator splits the pieces: nothing read before it runs past it. */
  lemma {:induction false} BodySplit(a: string, b: string)
    ensures Body(a + "/" + b) == Body(a) + Body(b)
    decreases |a|
  {
    var s := a + "/" + b;
    if a == [] {
      assert s == "/" + b;
      assert s[1..] == b;
    } else if a[0] == '/' {
      assert s[1..] == a[1..] + "/" + b;
      BodySplit(a[1..], b);
    } else {
      var n := SegmentLength(a);
      var tail := "/" + b;
      assert s == a + tail;
      SegmentPrefix(a, tail, n);
      assert s[..n] == a[..n];
      assert s[n..] == a[n..] + "/" + b;
      BodySplit(a[n..], b);
      assert Body(s) == Piece(a[..n]) + Body(s[n..]);
    }
  }

  /** The first piece of a is the first piece of a extended past a separator. */
  lemma {:induction false} SegmentPrefix(a: string, rest: string, n: nat)
    requires n == SegmentLength(a) && (n < |a| || (rest != [] && rest[0] == '/'))
    ensures SegmentLength(a + rest) == n
    decreases |a|
  {
    if a != [] && a[0] != '/' {
      assert (a + rest)[1..] == a[1..] + rest;
      SegmentPrefix(a[1..], rest, n - 1);
    }
  }

  /** A separator and more after a non-empty path do not change how it starts. */
  lemma HeadExtended(a: string, x: string)
    requires a != []
    ensures Head(a + "/" + x) == Head(a)
  {
    var s := a + "/" + x;
    assert s[0] == a[0];
    if |a| >= 2 {
      assert s[..2] == a[..2];
    } else {
      assert s[..2] == [a[0], '/'];
    }
  }

  /** A doubled separator is one separator. */
  lemma SamePathDoubled(a: string, b: string)
    requires a != []
    ensures SamePath(a + "//" + b, a + "/" + b)
  {
    assert a + "//" + b == a + "/" + ("/" + b);
    BodySplit(a, "/" + b);
    assert ("/" + b)[1..] == b;
    BodySplit(a, b);
    HeadExtended(a, "/" + b);
    HeadExtended(a, b);
  }

  /** A "." piece after the first is no piece. */
  lemma SamePathDot(a: string, b: string)
    requires a != []
    ensures SamePath(a + "/./" + b, a + "/" + b)
  {
    var dot := "." + "/" + b;
    assert a + "/./" + b == a + "/" + dot;
    BodySplit(a, dot);
    BodySplit(".", b);
    assert SegmentLength(".") == 1 && "."[..1] == "." && "."[1..] == [];
    assert Body(dot) == Body(b);
    BodySplit(a, b);
    HeadExtended(a, dot);
    HeadExtended(a, b);
  }

  /** A trailing separator is no piece. */
  lemma SamePathTrailing(a: string)
    requires a != []
    ensures SamePath(a + "/", a)
  {
    assert a + "/" + "" == a + "/";
    BodySplit(a, "");
    HeadExtended(a, "");
  }

  /** A relative path spelled with a leading "." piece is a different path. */
  lemma CurDirKept()
    ensures !SamePath("./a", "a")
  {
    assert SegmentLength("a") == 1 && "a"[..1] == "a" && "a"[1..] == [];
    assert Components("a") == [Normal("a")];
    assert Components("./a")[0] == CurDir;
  }

  // ---------------------------------------------------------------------
  // Entries.
  // ---------------------------------------------------------------------

  /** The index of the first entry whose name is the path `name` (`iter().find` on `PathBuf`s). */
  function FindPath(files: seq<Entry>, name: string): (r: Option<nat>)
    ensures r.None? <==> forall i :: 0 <= i < |files| ==> !SamePath(files[i].0, name)
    ensures r.Some? ==> r.value < |files| && SamePath(files[r.value].0, name)
    ensures r.Some? ==> forall i :: 0 <= i < r.value ==> !SamePath(files[i].0, name)
  {
    if files == [] then None
    else if SamePath(files[0].0, name) then Some(0)
    else
      assert forall k :: 1 <= k < |files| ==> files[k] == files[1..][k - 1];
      match FindPath(files[1..], name)
      case None => None
      case Some(i) => Some(i + 1)
  }

  /** The index of the first entry whose name, as text, is `name` (`to_string_lossy() ==`). */
  function Find(files: seq<Entry>, name: string): (r: Option<nat>)
    ensures r.None? <==> forall i :: 0 <= i < |files| ==> files[i].0 != name
    ensures r.Some? ==> r.value < |files| && files[r.value].0 == name
    ensures r.Some? ==> forall i :: 0 <= i < r.value ==> files[i].0 != name
  {
    if files == [] then None
    else if files[0].0 == name then Some(0)
    else match Find(files[1..], name)
      case None => None
      case Some(i) => Some(i + 1)
  }

  /** No two entries name the same path. */
  predicate UniquePaths(files: seq<Entry>)
  {
    forall i, j :: 0 <= i < j < |files| ==> !SamePath(files[i].0, files[j].0)
  }

  /**
   * The list after `add(name, contents)`: the entry of the same path keeps
   * its own name and takes the new contents; otherwise a new entry is pushed.
   */
  function Added(files: seq<Entry>, name: string, contents: seq<byte>): seq<Entry>
  {
    match FindPath(files, name)
    case Some(i) => files[i := (files[i].0, contents)]
    case None => files + [(name, contents)]
  }

  /** Adding a path already present replaces that entry's contents and nothing else. */
  lemma AddReplaces(files: seq<Entry>, name: string, contents: seq<byte>)
    requires FindPath(files, name).Some?
    ensures var i := FindPath(files, name).value; var r := Added(files, name, contents);
      |r| == |files| && r[i] == (files[i].0, contents) && SamePath(r[i].0, name) &&
      forall j :: 0 <= j < |files| && j != i ==> r[j] == files[j]
  {
  }

  /** Adding a new path appends it and keeps every other entry in place. */
  lemma AddAppends(files: seq<Entry>, name: string, contents: seq<byte>)
    requires FindPath(files, name).None?
    ensures var r := Added(files, name, contents);
      |r| == |files| + 1 && r[..|files|] == files && r[|files|] == (name, contents)
  {
  }

  /** Adding keeps the paths unique. */
  lemma AddPreservesUnique(files: seq<Entry>, name: string, contents: seq<byte>)
    requires UniquePaths(files)
    ensures UniquePaths(Added(files, name, contents))
  {
    var r := Added(files, name, contents);
    match FindPath(files, name)
    case Some(i) =>
      assert forall j :: 0 <= j < |r| ==> r[j].0 == files[j].0;
    case None =>
      assert forall j :: 0 <= j < |files| ==> r[j].0 == files[j].0;
      assert r[|files|].0 == name;
  }

  /** Adding the same file twice is adding it once. */
  lemma AddIdempotent(files: seq<Entry>, name: string, contents: seq<byte>)
    ensures Added(Added(files, name, contents), name, contents) == Added(files, name, contents)
  {
    var once := Added(files, name, contents);
    match FindPath(files, name)
    case Some(i) =>
      assert FindPath(once, name) == Some(i) by {
        FindPosition(once, name, i);
      }
    case None =>
      assert FindPath(once, name) == Some(|files|) by {
        FindPosition(once, name, |files|);
      }
  }

  /** The first entry of the path is where FindPath stops. */
  lemma {:induction false} FindPosition(files: seq<Entry>, name: string, i: nat)
    requires i < |files| && SamePath(files[i].0, name)
    requires forall j :: 0 <= j < i ==> !SamePath(files[j].0, name)
    ensures FindPath(files, name) == Some(i)
  {
    if i > 0 {
      FindPosition(files[1..], name, i - 1);
    }
  }

  /** s contains sub as a contiguous piece (`str::contains`). */
  predicate Contains(s: string, sub: string)
  {
    |sub| <= |s| && (s[..|sub|] == sub || Contains(s[1..], sub))
  }

  /** An occurrence at any offset is found. */
  lemma {:induction false} ContainsAt(s: string, sub: string, i: nat)
    requires i + |sub| <= |s| && s[i..i + |sub|] == sub
    ensures Contains(s, sub)
  {
    if i > 0 {
      assert s[1..][i - 1..i - 1 + |sub|] == s[i..i + |sub|];
      ContainsAt(s[1..], sub, i - 1);
    }
  }

  /** And Contains holds only because of an occurrence. */
  lemma {:induction false} ContainsWitness(s: string, sub: string) returns (i: nat)
    requires Contains(s, sub)
    ensures i + |sub| <= |s| && s[i..i + |sub|] == sub
  {
    if s[..|sub|] == sub {
      i := 0;
    } else {
      var j := ContainsWitness(s[1..], sub);
      assert s[1..][j..j + |sub|] == s[j + 1..j + 1 + |sub|];
      i := j + 1;
    }
  }

  /** The entries whose name contains ".argos", in order (`filter` + `collect`). */
  function Configs(files: seq<Entry>): (c: seq<Entry>)
    ensures forall e :: e in c <==> e in files && Contains(e.0, ".argos")
    ensures |c| <= |files|
  {
    if files == [] then []
    else if Contains(files[0].0, ".argos") then [files[0]] + Configs(files[1..])
    else Configs(files[1..])
  }

  /** `argos_config` on a list of entries. */
  function ArgosConfigOf(files: seq<Entry>): (r: Result<Entry, SoftwareError>)
    ensures r == Err(MissingConfigurationFile) <==> forall e :: e in files ==> !Contains(e.0, ".argos")
    ensures r.Ok? <==> |Configs(files)| == 1
    ensures r.Ok? ==> r.value in files && Contains(r.value.0, ".argos")
    ensures r.Err? ==> r.error == MissingConfigurationFile || r.error == MultipleConfigurationFiles
  {
    var config := Configs(files);
    if |config| == 0 then
      Err(MissingConfigurationFile)
    else if |config| == 1 then
      assert config[0] in config;
      Ok(config[0])
    else
      assert config[0] in config;
      Err(MultipleConfigurationFiles)
  }

  /** Two configuration files are always refused, whatever else the bundle holds. */
  lemma TwoConfigsRefused(files: seq<Entry>, i: nat, j: nat)
    requires i < j < |files| && Contains(files[i].0, ".argos") && Contains(files[j].0, ".argos")
    ensures ArgosConfigOf(files) == Err(MultipleConfigurationFiles)
  {
    ConfigsCount(files, i, j);
  }

  /** Two matching entries leave at least two configurations. */
  lemma {:induction false} ConfigsCount(files: seq<Entry>, i: nat, j: nat)
    requires i < j < |files| && Contains(files[i].0, ".argos") && Contains(files[j].0, ".argos")
    ensures |Configs(files)| >= 2
  {
    if i == 0 {
      assert files[1..][j - 1] == files[j];
      assert files[j] in Configs(files[1..]);
    } else {
      ConfigsCount(files[1..], i - 1, j - 1);
    }
  }

  /** Every script names an entry. */
  predicate AllFound(files: seq<Entry>, scripts: seq<string>)
  {
    forall k :: 0 <= k < |scripts| ==> Find(files, scripts[k]).Some?
  }

  /**
   * The first script, in order, that names no entry: where
   * `collect::<Result<Vec<_>>>` stops.
   */
  function FirstMissing(files: seq<Entry>, scripts: seq<string>): (r: Option<string>)
    ensures r.None? <==> AllFound(files, scripts)
    ensures r.Some? ==> r.value in scripts && Find(files, r.value).None?
    ensures r.Some? ==>
      forall k :: (0 <= k < |scripts| && Find(files, scripts[k]).None? && AllFound(files, scripts[..k])) ==>
        scripts[k] == r.value
  {
    if scripts == [] then None
    else if Find(files, scripts[0]).None? then
      assert forall k :: 0 < k < |scripts| ==> scripts[..k][0] == scripts[0];
      Some(scripts[0])
    else
      var r := FirstMissing(files, scripts[1..]);
      assert forall k :: 1 <= k < |scripts| ==> scripts[k] == scripts[1..][k - 1];
      assert forall k :: 1 <= k <= |scripts| ==> scripts[..k][1..] == scripts[1..][..k - 1];
      r
  }

  /** `iter_mut().find` by path: the position of the first entry of the same path. */
  method Locate(files: seq<Entry>, name: string) returns (r: Option<nat>)
    ensures r == FindPath(files, name)
  {
    var i := 0;
    while i < |files|
      invariant 0 <= i <= |files|
      invariant forall j :: 0 <= j < i ==> !SamePath(files[j].0, name)
    {
      if SamePath(files[i].0, name) {
        FindPosition(files, name, i);
        return Some(i);
      }
      i := i + 1;
    }
    return None;
  }

  class Bundle {
    var files: seq<Entry>

    /** `Software::default()`. */
    constructor ()
      ensures files == []
    {
      files := [];
    }

    /** `add`: find the entry of the same path and replace its contents, or push a new entry. */
    method Add(name: string, contents: seq<byte>)
      modifies this
      ensures files == Added(old(files), name, contents)
    {
      var found := Locate(files, name);
      match found
      case Some(i) =>
        files := files[i := (files[i].0, contents)];
      case None =>
        files := files + [(name, contents)];
    }

    /** `clear`. */
    method Clear()
      modifies this
      ensures files == []
    {
      files := [];
    }

    /** `argos_config`. */
    function ArgosConfig(): (r: Result<Entry, SoftwareError>)
      reads this
      ensures r.Ok? <==> |Configs(files)| == 1
    {
      ArgosConfigOf(files)
    }

    /**
     * `check_config`. Parsing the configuration as XML and collecting the
     * `script` attributes of `controllers`/`lua_controller`/`params` is the
     * parameter `scripts` (None when the text is not XML).
     */
    function CheckConfig(scripts: seq<byte> -> Option<seq<string>>): (r: Result<(), SoftwareError>)
      reads this
      ensures ArgosConfigOf(files).Err? ==> r == Err(ArgosConfigOf(files).error)
      ensures var c := ArgosConfigOf(files);
        r.Ok? <==> (c.Ok? && Utf8.Valid(c.value.1) && scripts(c.value.1).Some? && AllFound(files, scripts(c.value.1).value))
      ensures r.Err? && r.error.MissingReferencedFile? ==> Find(files, r.error.script).None?
      ensures var c := ArgosConfigOf(files);
        c.Ok? && !Utf8.Valid(c.value.1) ==> r == Err(DecodeError)
      ensures var c := ArgosConfigOf(files);
        c.Ok? && Utf8.Valid(c.value.1) && scripts(c.value.1).None? ==> r == Err(ParseError)
      ensures var c := ArgosConfigOf(files);
        r.Err? && r.error.MissingReferencedFile? ==>
          c.Ok? && Utf8.Valid(c.value.1) && scripts(c.value.1).Some? &&
          FirstMissing(files, scripts(c.value.1).value) == Some(r.error.script)
    {
      match ArgosConfigOf(files)
      case Err(e) => Err(e)
      case Ok(config) =>
        if !Utf8.Valid(config.1) then Err(DecodeError)
        else match scripts(config.1)
          case None => Err(ParseError)
          case Some(referenced) =>
            match FirstMissing(files, referenced)
            case Some(script) => Err(MissingReferencedFile(script))
            case None => Ok(())
    }
  }
}
