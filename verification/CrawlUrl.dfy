/** URLs as the crawler normalises them.

    A URL is the five parts it is first split into; its path still holds the parameters of its
    last segment.  Normalising reads the path apart, trims it and writes it back, and reading
    what was written need not give the same parts: an empty parameter is dropped. */
module CrawlUrl {
  import opened Wrappers

  datatype Url = Url(scheme: string, netloc: string, path: string, query: string, fragment: string)

  /** The schemes whose paths carry parameters. */
  const PARAM_SCHEMES :=
    ["", "ftp", "hdl", "prospero", "http", "imap", "https", "shttp", "rtsp", "rtsps", "rtspu", "sip", "sips", "mms", "sftp",
     "tel"]

  // ----- reading and writing a path

  /** Where the last segment begins, after the last slash. */
  function SegmentStart(path: string): (r: nat)
    ensures r <= |path| && (r > 0 ==> path[r - 1] == '/') && forall i :: r <= i < |path| ==> path[i] != '/'
  {
    if path == "" then 0 else if path[|path| - 1] == '/' then |path| else SegmentStart(path[..|path| - 1])
  }

  function Segment(path: string): string { path[SegmentStart(path)..] }

  function FirstSemicolon(s: string): (r: Option<nat>)
    ensures r.None? ==> forall i :: 0 <= i < |s| ==> s[i] != ';'
    ensures r.Some? ==> r.value < |s| && s[r.value] == ';' && forall i :: 0 <= i < r.value ==> s[i] != ';'
  {
    if s == "" then None
    else if s[0] == ';' then Some(0)
    else
      var r := FirstSemicolon(s[1..]);
      assert forall i :: 1 <= i < |s| ==> s[i] == s[1..][i - 1];
      if r.None? then None else Some(r.value + 1)
  }

  /** A path and the parameters of its last segment, cut at the segment's first semicolon. */
  function SplitParams(scheme: string, path: string): (string, string) {
    var cut := FirstSemicolon(Segment(path));
    if scheme !in PARAM_SCHEMES || cut.None? then (path, "")
    else (path[..SegmentStart(path) + cut.value], path[SegmentStart(path) + cut.value + 1..])
  }

  /** An empty parameter leaves no trace. */
  function Written(head: string, params: string): string { if params == "" then head else head + ";" + params }

  function WithoutSlashes(path: string): (r: string)
    ensures r != "" ==> r[|r| - 1] != '/'
  {
    if path != "" && path[|path| - 1] == '/' then WithoutSlashes(path[..|path| - 1]) else path
  }

  function Trimmed(head: string): string { if WithoutSlashes(head) == "" then "/" else WithoutSlashes(head) }

  function NormalPath(scheme: string, path: string): string {
    var (head, params) := SplitParams(scheme, path);
    Written(Trimmed(head), params)
  }

  function Normalize(url: Url): Url { url.(path := NormalPath(url.scheme, url.path), fragment := "") }

  /** Nothing but slashes, or nothing at all. */
  predicate OnlySlashes(path: string) { forall i :: 0 <= i < |path| ==> path[i] == '/' }

  /** The last segment has a semicolon, and the scheme knows parameters, as http and https do. */
  predicate HasParameters(url: Url) {
    (url.scheme in ["http", "https"] || url.scheme in PARAM_SCHEMES) && ';' in Segment(url.path)
  }

  /** The fragment goes, and so do slashes at the end of the path, or of what precedes its parameters;
      a path that is then empty becomes the root.  All else stays. */
  lemma NormalizeReads(url: Url)
    ensures var u := Normalize(url); u.scheme == url.scheme && u.netloc == url.netloc && u.query == url.query && u.fragment == ""
    ensures !HasParameters(url) ==> IsTrimmed(Normalize(url).path, url.path)
    ensures HasParameters(url) ==>
              exists head, trimmed, params :: url.path == head + ";" + params && IsTrimmed(trimmed, head)
                && Normalize(url).path == if params == "" then trimmed else trimmed + ";" + params
  {
    var (head, params) := SplitParams(url.scheme, url.path);
    TrimmedReads(head);
    if HasParameters(url) {
      CutPath(url.scheme, url.path, SegmentStart(url.path), FirstSemicolon(Segment(url.path)).value);
    }
  }

  /** The path without the slashes at its end, or the root if that leaves nothing. */
  predicate IsTrimmed(trimmed: string, path: string) {
    if OnlySlashes(path) then trimmed == "/"
    else trimmed != "" && trimmed[|trimmed| - 1] != '/' && trimmed <= path && OnlySlashes(path[|trimmed|..])
  }

  lemma TrimmedReads(head: string)
    ensures IsTrimmed(Trimmed(head), head)
  {
    var r := WithoutSlashes(head);
    SlashesGone(head);
    if r == "" { assert head[0..] == head; } else { assert head[|r| - 1] == r[|r| - 1]; }
  }

  lemma {:induction false} SlashesGone(path: string)
    ensures WithoutSlashes(path) <= path && OnlySlashes(path[|WithoutSlashes(path)|..])
  {
    if path != "" && path[|path| - 1] == '/' {
      var n, r := |path| - 1, WithoutSlashes(path);
      SlashesGone(path[..n]);
      forall i | |r| <= i < |path| ensures path[i] == '/' { assert i < n ==> path[i] == path[..n][|r|..][i - |r|]; }
    }
  }

  // ----- which paths are left as they are

  /** The last segment has no parameters, or some text of them, and then something before them
      unless it is the only segment. */
  predicate SettledSegment(path: string) {
    var segment, cut := Segment(path), FirstSemicolon(Segment(path));
    cut.Some? ==> cut.value + 1 < |segment| && (cut.value > 0 || SegmentStart(path) == 1)
  }

  predicate SettledPath(scheme: string, path: string) {
    if scheme in PARAM_SCHEMES && FirstSemicolon(Segment(path)).Some? then SettledSegment(path)
    else path == "/" || (path != "" && path[|path| - 1] != '/')
  }

  lemma TrimmedFixed(head: string)
    ensures Trimmed(head) == head <==> head == "/" || (head != "" && head[|head| - 1] != '/')
    ensures |WithoutSlashes(head)| <= |head|
  {
    if head == "/" { assert head[..0] == "" && WithoutSlashes("/") == WithoutSlashes(""); }
    if head != "" && head[|head| - 1] == '/' { ShorterWithoutSlashes(head[..|head| - 1]); } else { ShorterWithoutSlashes(head); }
  }

  lemma {:induction false} ShorterWithoutSlashes(path: string)
    ensures |WithoutSlashes(path)| <= |path|
  {
    if path != "" && path[|path| - 1] == '/' { ShorterWithoutSlashes(path[..|path| - 1]); }
  }

  lemma CutAt(s: string, n: nat)
    requires n < |s| && s[n] == ';'
    ensures s == s[..n] + ";" + s[n + 1..]
  {}

  lemma HeadEnd(path: string, start: nat, at: nat)
    requires start == SegmentStart(path) && start + at < |path| && path[start + at] == ';'
    ensures var head := path[..start + at]; head == "/" || (head != "" && head[|head| - 1] != '/') <==> at > 0 || start == 1
  {
    var head := path[..start + at];
    if head != "" { assert head[|head| - 1] == path[start + at - 1]; }
  }

  /** What a cut path consists of: its head, a semicolon and the parameters. */
  lemma CutPath(scheme: string, path: string, start: nat, at: nat)
    requires scheme in PARAM_SCHEMES && start == SegmentStart(path) && FirstSemicolon(Segment(path)) == Some(at)
    ensures var (head, params) := SplitParams(scheme, path);
      && path == head + ";" + params && |params| == |Segment(path)| - at - 1
      && (head == "/" || (head != "" && head[|head| - 1] != '/') <==> at > 0 || start == 1)
  {
    assert Segment(path)[at] == path[start + at];
    CutAt(path, start + at);
    HeadEnd(path, start, at);
    assert SplitParams(scheme, path) == (path[..start + at], path[start + at + 1..]);
  }

  /** A path is left as it is exactly if it is settled. */
  lemma PathFixed(scheme: string, path: string)
    ensures NormalPath(scheme, path) == path <==> SettledPath(scheme, path)
  {
    var cut := FirstSemicolon(Segment(path));
    var (head, params) := SplitParams(scheme, path);
    TrimmedFixed(head);
    if scheme in PARAM_SCHEMES && cut.Some? {
      CutPath(scheme, path, SegmentStart(path), cut.value);
      WrittenFixed(head, params);
    }
  }

  /** Read apart at a semicolon, a path is written back unchanged only with some parameter text
      and an already trimmed head. */
  lemma WrittenFixed(head: string, params: string)
    ensures Written(Trimmed(head), params) == head + ";" + params <==> params != "" && Trimmed(head) == head
  {
    var whole := head + ";" + params;
    if params == "" {
      TrimmedFixed(head);
      assert |whole| == |head| + 1 && whole[|head|] == ';';
    } else if Trimmed(head) + ";" + params == whole {
      assert |Trimmed(head)| == |head|;
      assert (Trimmed(head) + ";" + params)[..|head|] == Trimmed(head) && whole[..|head|] == head;
    }
  }

  // ----- normalising twice

  /** What is left of the path once it is read apart and its trailing slashes are gone must not
      end in a segment whose only semicolon is its last character, nor in one that begins with a
      semicolon below the root. */
  predicate SettlesAtOnce(url: Url) {
    var (head, params) := SplitParams(url.scheme, url.path);
    var rest := WithoutSlashes(head);
    var segment, cut := Segment(rest), FirstSemicolon(Segment(rest));
    url.scheme in PARAM_SCHEMES && cut.Some?
    ==> (params != "" || cut.value + 1 < |segment|) && (cut.value > 0 || SegmentStart(rest) == 1)
  }

  lemma {:induction false} SegmentStartIs(path: string, start: nat)
    requires start <= |path| && (start > 0 ==> path[start - 1] == '/') && forall i :: start <= i < |path| ==> path[i] != '/'
    ensures SegmentStart(path) == start
  {
    if start < |path| { SegmentStartIs(path[..|path| - 1], start); }
  }

  lemma FirstSemicolonIs(s: string, i: nat)
    requires i < |s| && s[i] == ';' && forall j :: 0 <= j < i ==> s[j] != ';'
    ensures FirstSemicolon(s) == Some(i)
  {}

  lemma ParamsHaveNoSlash(scheme: string, path: string)
    ensures forall i :: 0 <= i < |SplitParams(scheme, path).1| ==> SplitParams(scheme, path).1[i] != '/'
  {
    var start, cut := SegmentStart(path), FirstSemicolon(Segment(path));
    var params := SplitParams(scheme, path).1;
    forall i | 0 <= i < |params| ensures params[i] != '/' { assert params[i] == path[start + cut.value + 1 + i]; }
  }

  lemma SemicolonOf(segment: string, params: string)
    ensures var cut := FirstSemicolon(segment);
      FirstSemicolon(segment + ";" + params) == Some(if cut.Some? then cut.value else |segment|)
  {
    var cut := FirstSemicolon(segment);
    FirstSemicolonIs(segment + ";" + params, if cut.Some? then cut.value else |segment|);
  }

  /** Written back with parameters, the last segment is the old one and the parameters. */
  lemma WrittenSegment(rest: string, params: string)
    requires rest != "" && rest[|rest| - 1] != '/' && forall i :: 0 <= i < |params| ==> params[i] != '/'
    ensures var path, cut := rest + ";" + params, FirstSemicolon(Segment(rest));
      && SegmentStart(path) == SegmentStart(rest) && Segment(path) == Segment(rest) + ";" + params
      && FirstSemicolon(Segment(path)) == Some(if cut.Some? then cut.value else |Segment(rest)|)
      && Segment(rest) != ""
  {
    var path, start := rest + ";" + params, SegmentStart(rest);
    NoSlashAfter(rest, params, start);
    SegmentStartIs(path, start);
    DropPlus(rest, ";" + params, start);
    assert Segment(path) == Segment(rest) + (";" + params) == Segment(rest) + ";" + params;
    SemicolonOf(Segment(rest), params);
  }

  lemma NoSlashAfter(rest: string, params: string, start: nat)
    requires start <= |rest| && (forall i :: start <= i < |rest| ==> rest[i] != '/') && forall i :: 0 <= i < |params| ==> params[i] != '/'
    ensures forall i :: start <= i < |rest + ";" + params| ==> (rest + ";" + params)[i] != '/'
    ensures start > 0 ==> (rest + ";" + params)[start - 1] == rest[start - 1]
    ensures rest + ";" + params == rest + (";" + params)
  {}

  lemma DropPlus(a: string, b: string, n: nat)
    requires n <= |a|
    ensures (a + b)[n..] == a[n..] + b
  {}

  lemma RootSettled(scheme: string, params: string)
    requires forall i :: 0 <= i < |params| ==> params[i] != '/'
    ensures SettledPath(scheme, Written("/", params))
  {
    var path := Written("/", params);
    if params == "" {
      SegmentStartIs(path, 1);
      assert Segment(path) == "";
    } else {
      forall i | 1 <= i < |path| ensures path[i] != '/' { if i > 1 { assert path[i] == params[i - 2]; } }
      SegmentStartIs(path, 1);
      assert Segment(path) == ";" + params;
      FirstSemicolonIs(Segment(path), 0);
    }
  }

  /** Normalising a second time changes nothing if and only if the URL settles at once; the
      domain never changes. */
  lemma NormalizeTwice(url: Url)
    ensures Normalize(Normalize(url)) == Normalize(url) <==> SettlesAtOnce(url)
    ensures Normalize(url).netloc == url.netloc
  {
    var (head, params) := SplitParams(url.scheme, url.path);
    var rest, path := WithoutSlashes(head), NormalPath(url.scheme, url.path);
    PathFixed(url.scheme, path);
    ParamsHaveNoSlash(url.scheme, url.path);
    if rest == "" {
      RootSettled(url.scheme, params);
      assert Segment(rest) == "";
    } else if params != "" {
      WrittenSegment(rest, params);
    }
  }

  /** Such a URL: a last segment "b;" before a trailing slash loses its semicolon only the second
      time. */
  lemma SemicolonGoesLater(scheme: string, netloc: string, query: string)
    requires scheme in PARAM_SCHEMES
    ensures Normalize(Url(scheme, netloc, "/b;/", query, "")) == Url(scheme, netloc, "/b;", query, "")
    ensures Normalize(Url(scheme, netloc, "/b;", query, "")) == Url(scheme, netloc, "/b", query, "")
  {
    var slashed, bare := "/b;/", "/b;";
    SegmentStartIs(slashed, 4);
    assert Segment(slashed) == "" && slashed[..3] == bare;
    assert WithoutSlashes(slashed) == WithoutSlashes(bare) == bare;
    SegmentStartIs(bare, 1);
    assert Segment(bare) == "b;";
    FirstSemicolonIs("b;", 1);
    assert bare[..2] == "/b" && bare[3..] == "";
  }
}
