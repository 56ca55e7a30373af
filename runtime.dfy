/** The two small pieces of `Runtime` in `src/modman/lib.py` that carry logic:
    where the configuration file is looked for and written, and how an
    `install.properties` file is parsed.

    A path is the list of components of an absolute path, `[]` being the root;
    the filesystem is a predicate `present` telling which files exist. */
module Runtime {
  import opened Wrappers

  type Path = seq<string>

  /** The configuration file's name. */
  const CONFIG_NAME: string := "modman.toml"

  /** `p[..k] / "modman.toml"`: the configuration file in the ancestor of `p` at depth `k`. */
  function Candidate(p: Path, k: nat): Path
    requires k <= |p|
  {
    p[..k] + [CONFIG_NAME]
  }

  /** The first existing candidate among depths `k - 1`, `k - 2`, ..., `0`, nearest first. */
  function SearchUp(p: Path, k: nat, present: Path -> bool): Option<Path>
    requires k <= |p| + 1
  {
    if k == 0 then None
    else if present(Candidate(p, k - 1)) then Some(Candidate(p, k - 1))
    else SearchUp(p, k - 1, present)
  }

  /** The search finds the nearest existing candidate below depth `k`, and
      nothing exactly when none of them exists. */
  lemma {:induction false} SearchUpNearest(p: Path, k: nat, present: Path -> bool)
    requires k <= |p| + 1
    ensures var r := SearchUp(p, k, present);
      (r.Some? ==> 1 <= |r.value| <= k && r.value == Candidate(p, |r.value| - 1) && present(r.value)
                   && forall j :: |r.value| - 1 < j < k ==> !present(Candidate(p, j)))
      && (r.None? <==> forall j :: 0 <= j < k ==> !present(Candidate(p, j)))
  {
    if k > 0 && !present(Candidate(p, k - 1)) {
      SearchUpNearest(p, k - 1, present);
      var r := SearchUp(p, k - 1, present);
      if r.Some? {
        assert |Candidate(p, k - 1)| == k;
      }
    }
  }

  /** `start = start or Path.cwd()`: the directory the search starts from. */
  function StartDir(start: Option<Path>, cwd: Path): Path {
    if start.Some? then start.value else cwd
  }

  /** `find_config(start)`: the parents of `start`, nearest first; `start`
      itself is never examined. */
  function FindConfigSpec(start: Option<Path>, cwd: Path, present: Path -> bool): Option<Path> {
    var s := StartDir(start, cwd);
    SearchUp(s, |s|, present)
  }

  /** `find_config(start)` with its loop over `start.parents`. */
  method FindConfig(start: Option<Path>, cwd: Path, present: Path -> bool) returns (r: Option<Path>)
    ensures r == FindConfigSpec(start, cwd, present)
  {
    var s := StartDir(start, cwd);
    var k: nat := |s|;
    while k > 0
      invariant k <= |s|
      invariant SearchUp(s, k, present) == SearchUp(s, |s|, present)
      decreases k
    {
      if present(Candidate(s, k - 1)) {
        return Some(Candidate(s, k - 1));
      }
      k := k - 1;
    }
    r := None;
  }

  /** What `find_config` returns: a configuration file in a proper ancestor of
      the start directory that exists, with none existing in a nearer ancestor;
      `None` exactly when no proper ancestor has one. */
  lemma FindConfigNearest(start: Option<Path>, cwd: Path, present: Path -> bool)
    ensures var s, r := StartDir(start, cwd), FindConfigSpec(start, cwd, present);
      (r.Some? ==> 1 <= |r.value| <= |s| && r.value == Candidate(s, |r.value| - 1) && present(r.value)
                   && forall j :: |r.value| - 1 < j < |s| ==> !present(Candidate(s, j)))
      && (r.None? <==> forall j :: 0 <= j < |s| ==> !present(Candidate(s, j)))
  {
    SearchUpNearest(StartDir(start, cwd), |StartDir(start, cwd)|, present);
  }

  /** `find_config` looks at no file in the start directory itself. */
  lemma FindConfigSkipsStart(start: Path, cwd: Path, present: Path -> bool)
    ensures FindConfigSpec(Some(start), cwd, present) != Some(start + [CONFIG_NAME])
  {
    FindConfigNearest(Some(start), cwd, present);
  }

  datatype ConfigError = ConfigNotFound   // FileNotFoundError("Could not find modman.toml ...")

  /** `save_config`: the file found from the working directory, or `cwd/modman.toml`. */
  function SaveTarget(cwd: Path, present: Path -> bool): (t: Path)
    ensures FindConfigSpec(Some(cwd), cwd, present).Some? ==> t == FindConfigSpec(Some(cwd), cwd, present).value
    ensures FindConfigSpec(Some(cwd), cwd, present).None? ==> t == cwd + [CONFIG_NAME]
  {
    match FindConfigSpec(Some(cwd), cwd, present)
    case Some(p) => p
    case None => cwd + [CONFIG_NAME]
  }

  /** `load_config`: the file found from the working directory, or the error. */
  function LoadTarget(cwd: Path, present: Path -> bool): (r: Result<Path, ConfigError>)
    ensures r.Success? <==> FindConfigSpec(Some(cwd), cwd, present).Some?
    ensures r.Success? ==> r.value == FindConfigSpec(Some(cwd), cwd, present).value
  {
    match FindConfigSpec(Some(cwd), cwd, present)
    case Some(p) => Success(p)
    case None => Failure(ConfigNotFound)
  }

  /** The filesystem after the file `t` has been written. */
  function Written(present: Path -> bool, t: Path): Path -> bool {
    p => present(p) || p == t
  }

  /** With no configuration above the working directory, `save_config` writes
      `cwd/modman.toml` and a following `load_config` still fails, since the
      search skips the working directory. */
  lemma SaveThenLoadFails(cwd: Path, present: Path -> bool)
    requires forall j :: 0 <= j < |cwd| ==> !present(Candidate(cwd, j))
    ensures SaveTarget(cwd, present) == cwd + [CONFIG_NAME]
    ensures LoadTarget(cwd, Written(present, SaveTarget(cwd, present))) == Failure(ConfigNotFound)
  {
    FindConfigNearest(Some(cwd), cwd, present);
    var after := Written(present, cwd + [CONFIG_NAME]);
    forall j | 0 <= j < |cwd|
      ensures !after(Candidate(cwd, j))
    {
      assert |Candidate(cwd, j)| == j + 1;
    }
    FindConfigNearest(Some(cwd), cwd, after);
  }

  /** `find_config` as evidently intended: the start directory first, then its parents. */
  function FindConfigFixed(start: Option<Path>, cwd: Path, present: Path -> bool): Option<Path> {
    var s := StartDir(start, cwd);
    SearchUp(s, |s| + 1, present)
  }

  function SaveTargetFixed(cwd: Path, present: Path -> bool): Path {
    match FindConfigFixed(Some(cwd), cwd, present)
    case Some(p) => p
    case None => cwd + [CONFIG_NAME]
  }

  function LoadTargetFixed(cwd: Path, present: Path -> bool): Result<Path, ConfigError> {
    match FindConfigFixed(Some(cwd), cwd, present)
    case Some(p) => Success(p)
    case None => Failure(ConfigNotFound)
  }

  /** With the corrected search, loading after saving finds the file just written. */
  lemma SaveThenLoadFixed(cwd: Path, present: Path -> bool)
    ensures LoadTargetFixed(cwd, Written(present, SaveTargetFixed(cwd, present))) == Success(SaveTargetFixed(cwd, present))
  {
    var t := SaveTargetFixed(cwd, present);
    var after := Written(present, t);
    SearchUpNearest(cwd, |cwd| + 1, present);
    SearchUpNearest(cwd, |cwd| + 1, after);
    var r := FindConfigFixed(Some(cwd), cwd, after);
    assert after(t);
    if FindConfigFixed(Some(cwd), cwd, present).None? {
      assert t == Candidate(cwd, |cwd|);
    } else {
      assert forall j :: |t| - 1 < j < |cwd| + 1 ==> !present(Candidate(cwd, j));
      forall j | |t| - 1 < j < |cwd| + 1
        ensures !after(Candidate(cwd, j))
      {
        assert |Candidate(cwd, j)| == j + 1;
      }
    }
    assert r.Some?;
    assert |r.value| - 1 == |t| - 1;
  }

  // ---------------------------------------------------------------- install.properties

  /** The characters `str.isspace()` accepts, which `str.strip()` removes:
      tab to carriage return, the file, group, record and unit separators,
      space, next line, no-break space, and the Unicode space separators and
      line and paragraph separators. */
  const WHITESPACE: set<char> := {
    '\t', '\n', '\U{0B}', '\U{0C}', '\r', '\U{1C}', '\U{1D}', '\U{1E}', '\U{1F}', ' ',
    '\U{85}', '\U{A0}', '\U{1680}', '\U{2000}', '\U{2001}', '\U{2002}', '\U{2003}',
    '\U{2004}', '\U{2005}', '\U{2006}', '\U{2007}', '\U{2008}', '\U{2009}', '\U{200A}',
    '\U{2028}', '\U{2029}', '\U{202F}', '\U{205F}', '\U{3000}'
  }

  /** The number of leading characters of `s` that are in `cut`. */
  function LeadingCut(s: string, cut: set<char>): (k: nat)
    ensures k <= |s|
    ensures forall i :: 0 <= i < k ==> s[i] in cut
    ensures k < |s| ==> s[k] !in cut
  {
    if |s| > 0 && s[0] in cut then
      var k := 1 + LeadingCut(s[1..], cut);
      assert forall i :: 1 <= i < k ==> s[i] == s[1..][i - 1];
      k
    else 0
  }

  /** The end of `s[lo..hi]` once its trailing characters in `cut` are dropped. */
  function TrailingEnd(s: string, lo: nat, hi: nat, cut: set<char>): (k: nat)
    requires lo <= hi <= |s|
    ensures lo <= k <= hi
    ensures forall i :: k <= i < hi ==> s[i] in cut
    ensures k > lo ==> s[k - 1] !in cut
    decreases hi
  {
    if hi > lo && s[hi - 1] in cut then TrailingEnd(s, lo, hi - 1, cut) else hi
  }

  /** `s.strip(cut)`: `s` without its leading and trailing characters from `cut`. */
  function StripChars(s: string, cut: set<char>): string {
    var a := LeadingCut(s, cut);
    s[a..TrailingEnd(s, a, |s|, cut)]
  }

  /** `s.strip()`, which cuts whitespace. */
  function Strip(s: string): string {
    StripChars(s, WHITESPACE)
  }

  /** `s.strip(cut)` is the slice `s[a..a + |r|]` of `s` that neither starts
      nor ends with a character of `cut`, everything cut from either side
      being in `cut`. */
  lemma StripSlice(s: string, cut: set<char>) returns (a: nat)
    ensures a + |StripChars(s, cut)| <= |s|
    ensures StripChars(s, cut) == s[a..a + |StripChars(s, cut)|]
    ensures forall i :: 0 <= i < a ==> s[i] in cut
    ensures forall i :: a + |StripChars(s, cut)| <= i < |s| ==> s[i] in cut
    ensures |StripChars(s, cut)| > 0 ==> StripChars(s, cut)[0] !in cut && StripChars(s, cut)[|StripChars(s, cut)| - 1] !in cut
  {
    a := LeadingCut(s, cut);
  }

  /** The number of `c` in `s`. */
  function Count(s: string, c: char): nat {
    if |s| == 0 then 0 else (if s[0] == c then 1 else 0) + Count(s[1..], c)
  }

  /** The position of the first `c` in `s`, when there is one. */
  function IndexOf(s: string, c: char): (r: Option<nat>)
    ensures r.Some? ==> r.value < |s| && s[r.value] == c && forall i :: 0 <= i < r.value ==> s[i] != c
    ensures r.None? ==> forall i :: 0 <= i < |s| ==> s[i] != c
  {
    if |s| == 0 then None
    else if s[0] == c then Some(0)
    else
      var r := IndexOf(s[1..], c);
      assert forall i :: 1 <= i < |s| ==> s[i] == s[1..][i - 1];
      if r.Some? then Some(r.value + 1) else None
  }

  lemma {:induction false} CountZero(s: string, c: char)
    ensures Count(s, c) == 0 <==> forall i :: 0 <= i < |s| ==> s[i] != c
  {
    if |s| > 0 {
      CountZero(s[1..], c);
      assert forall i :: 1 <= i < |s| ==> s[1..][i - 1] == s[i];
    }
  }

  lemma {:induction false} CountAppend(s: string, t: string, c: char)
    ensures Count(s + t, c) == Count(s, c) + Count(t, c)
  {
    if |s| > 0 {
      assert (s + t)[1..] == s[1..] + t;
      CountAppend(s[1..], t, c);
    } else {
      assert s + t == t;
    }
  }

  /** `key, value = t.split("=")`: the unpacking succeeds only when the split
      yields exactly two parts, that is when `t` holds exactly one `=`. */
  function SplitOnce(t: string): Option<(string, string)> {
    match IndexOf(t, '=')
    case None => None
    case Some(i) => if Count(t, '=') == 1 then Some((t[..i], t[i + 1..])) else None
  }

  /** `key, value = line.strip().split("=")`. */
  function SplitLine(line: string): Option<(string, string)> {
    SplitOnce(Strip(line))
  }

  /** A text splits exactly when it holds one `=`, into the text before it
      and the text after it, neither holding `=`. */
  lemma SplitOnceMeaning(t: string)
    ensures var r := SplitOnce(t);
      (r.Some? <==> Count(t, '=') == 1)
      && (r.Some? ==> r.value.0 + "=" + r.value.1 == t
                      && (forall i :: 0 <= i < |r.value.0| ==> r.value.0[i] != '=')
                      && (forall i :: 0 <= i < |r.value.1| ==> r.value.1[i] != '='))
  {
    match IndexOf(t, '=')
    case None =>
      CountZero(t, '=');
    case Some(i) =>
      var key, value := t[..i], t[i + 1..];
      assert t == key + "=" + value;
      CountAppend(key + "=", value, '=');
      CountAppend(key, "=", '=');
      CountZero(key, '=');
      assert Count("=", '=') == 1 by { assert "="[..0] == ""; }
      CountZero(value, '=');
  }

  datatype PropertiesError = BadLine(index: nat)   // ValueError from unpacking `split("=")`

  /** A line splitter: `SplitLine`, or any other function of the same shape. */
  type Splitter = string -> Option<(string, string)>

  /** The dictionary after lines `lines`: each line in turn is split by
      `split` and stored, a later key overwriting an earlier one; the first
      line that does not split raises. */
  function ParseWith(lines: seq<string>, split: Splitter): Result<map<string, string>, PropertiesError> {
    if |lines| == 0 then Success(map[])
    else
      match ParseWith(lines[..|lines| - 1], split)
      case Failure(e) => Failure(e)
      case Success(m) =>
        match split(lines[|lines| - 1])
        case None => Failure(BadLine(|lines| - 1))
        case Some(kv) => Success(m[kv.0 := kv.1])
  }

  /** The parse of `install.properties`, line by line with `SplitLine`. */
  function ParseSpec(lines: seq<string>): Result<map<string, string>, PropertiesError> {
    ParseWith(lines, SplitLine)
  }

  /** Once a prefix of the lines fails, the whole parse fails with the same error. */
  lemma {:induction false} ParseFailureSticks(lines: seq<string>, i: nat, split: Splitter)
    requires i <= |lines| && ParseWith(lines[..i], split).Failure?
    ensures ParseWith(lines, split) == ParseWith(lines[..i], split)
  {
    if i < |lines| {
      var n := |lines| - 1;
      assert lines[..n][..i] == lines[..i];
      ParseFailureSticks(lines[..n], i, split);
    } else {
      assert lines[..i] == lines;
    }
  }

  /** The loop `for line in f.readlines(): ...` filling `parsed_properties`. */
  method ParseProperties(lines: seq<string>) returns (r: Result<map<string, string>, PropertiesError>)
    ensures r == ParseSpec(lines)
  {
    var parsed: map<string, string> := map[];
    for i := 0 to |lines|
      invariant ParseWith(lines[..i], SplitLine) == Success(parsed)
    {
      assert lines[..i + 1][..i] == lines[..i];
      var kv := SplitLine(lines[i]);
      if kv.None? {
        ParseFailureSticks(lines, i + 1, SplitLine);
        return Failure(BadLine(i));
      }
      parsed := parsed[kv.value.0 := kv.value.1];
    }
    assert lines[..|lines|] == lines;
    r := Success(parsed);
  }

  /** Parsing fails exactly when some line does not split, and then at the
      first such line. */
  lemma {:induction false} ParseErrors(lines: seq<string>, split: Splitter)
    ensures ParseWith(lines, split).Success? <==> forall i :: 0 <= i < |lines| ==> split(lines[i]).Some?
    ensures ParseWith(lines, split).Failure? ==>
      var i := ParseWith(lines, split).error.index;
      i < |lines| && split(lines[i]).None? && forall j :: 0 <= j < i ==> split(lines[j]).Some?
  {
    if |lines| > 0 {
      var init := lines[..|lines| - 1];
      ParseErrors(init, split);
      assert forall i :: 0 <= i < |init| ==> init[i] == lines[i];
    }
  }

  /** On success the keys of the dictionary are exactly the keys of the lines. */
  lemma {:induction false} ParseKeys(lines: seq<string>, split: Splitter)
    requires ParseWith(lines, split).Success?
    ensures forall i :: 0 <= i < |lines| ==> split(lines[i]).Some?
    ensures forall k :: k in ParseWith(lines, split).value <==>
      exists i :: 0 <= i < |lines| && split(lines[i]).value.0 == k
  {
    ParseErrors(lines, split);
    if |lines| > 0 {
      var n := |lines| - 1;
      var init := lines[..n];
      ParseKeys(init, split);
      assert forall i :: 0 <= i < n ==> init[i] == lines[i];
      var m := ParseWith(init, split).value;
      var kv := split(lines[n]).value;
      assert ParseWith(lines, split).value == m[kv.0 := kv.1];
      forall k | k in ParseWith(lines, split).value
        ensures exists i :: 0 <= i < |lines| && split(lines[i]).value.0 == k
      {
        if k != kv.0 {
          var i :| 0 <= i < |init| && split(init[i]).value.0 == k;
          assert split(lines[i]).value.0 == k;
        } else {
          assert split(lines[n]).value.0 == k;
        }
      }
    }
  }

  /** On success each line's key holds that line's value unless a later line
      names the same key: the last line wins. */
  lemma {:induction false} ParseLastWins(lines: seq<string>, split: Splitter, i: nat)
    requires ParseWith(lines, split).Success? && i < |lines|
    ensures split(lines[i]).Some?
    ensures var kv := split(lines[i]).value;
      (forall j :: i < j < |lines| ==> split(lines[j]).Some? && split(lines[j]).value.0 != kv.0) ==>
      kv.0 in ParseWith(lines, split).value && ParseWith(lines, split).value[kv.0] == kv.1
  {
    ParseErrors(lines, split);
    var n := |lines| - 1;
    var init := lines[..n];
    assert ParseWith(init, split).Success?;
    if i < n {
      assert forall j :: 0 <= j < n ==> init[j] == lines[j];
      ParseLastWins(init, split, i);
    }
  }

  /** The two entries `init` reads from the parsed properties; a missing one
      raises `KeyError`. */
  function FabricVersions(props: map<string, string>): (r: Option<(string, string)>)
    ensures r.Some? <==> "fabric-loader-version" in props && "game-version" in props
    ensures r.Some? ==> r.value == (props["fabric-loader-version"], props["game-version"])
  {
    if "fabric-loader-version" in props && "game-version" in props then
      Some((props["fabric-loader-version"], props["game-version"]))
    else None
  }

  /** `" k=v\n"` splits into its key and value once the surrounding
      whitespace and the line break `readlines` keeps are cut. */
  lemma PropertyLineExample()
    ensures SplitLine(" k=v\n") == Some(("k", "v"))
  {
    StripExample();
    KeyValueSplits();
  }

  /** `" k=v\n".strip()` is `"k=v"`. */
  lemma StripExample()
    ensures Strip(" k=v\n") == "k=v"
  {
    var line := " k=v\n";
    assert LeadingCut(line, WHITESPACE) == 1 by {
      assert ' ' in WHITESPACE && 'k' !in WHITESPACE;
    }
    assert TrailingEnd(line, 1, 5, WHITESPACE) == 4 by {
      assert '\n' in WHITESPACE && 'v' !in WHITESPACE;
    }
    assert line[1..4] == "k=v";
  }

  /** `"k=v"` unpacks into `"k"` and `"v"`. */
  lemma KeyValueSplits()
    ensures SplitOnce("k=v") == Some(("k", "v"))
  {
    assert IndexOf("k=v", '=') == Some(1);
    assert Count("k=v", '=') == 1;
    assert "k=v"[..1] == "k" && "k=v"[2..] == "v";
  }

  /** A line with two `=` does not unpack into a key and a value. */
  lemma TwoEqualsRejected()
    ensures SplitOnce("a=b=c").None?
  {
    assert Count("a=b=c", '=') == 2;
  }
}
