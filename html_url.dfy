/**
 * The page address the web handler derives from the recommender's text
 * output: three regular-expression searches tried in turn, each modelled by
 * its exact leftmost-match semantics.
 */
module HtmlUrl {
  import opened Common

  const HTML_MARKER: string := "HTML页面:"
  const PAGE_MARKER: string := "生成的推荐页面："
  const FILE_PREFIX: string := "place_recommendation_"
  const EXT: string := ".html"
  const WORKSPACE_DIR: string := "workspace/"
  const WORKSPACE: string := "/" + WORKSPACE_DIR
  const JS_SRC_DIR: string := "js_src/"
  const JS_SRC: string := WORKSPACE + JS_SRC_DIR

  /** The three searched patterns: a marker followed by `\s*([^\s\n]+\.html)`, or a generated file name. */
  datatype Pattern = Marker(marker: string) | PlaceFile

  predicate EndsWithHtml(s: string) {
    |s| >= |EXT| && s[|s| - |EXT|..] == EXT
  }

  predicate NoSpace(s: string) {
    forall c :: c in s ==> !IsSpace(c)
  }

  /** `token[..m]` ends with ".html". */
  predicate HtmlEndsAt(token: string, m: nat) {
    |EXT| <= m <= |token| && token[m - |EXT|..m] == EXT
  }

  /**
   * Greedy `[^\s\n]+\.html` inside one run of non-space characters: the
   * longest prefix, no longer than `n` and of at least six characters, that
   * ends with ".html".
   */
  function LastHtmlEnd(token: string, n: nat): (e: Option<nat>)
    requires n <= |token|
    ensures e.Some? ==> 6 <= e.value <= n && HtmlEndsAt(token, e.value)
    ensures e.Some? ==> forall m :: e.value < m <= n ==> !HtmlEndsAt(token, m)
    ensures e.None? ==> forall m :: 6 <= m <= n ==> !HtmlEndsAt(token, m)
    decreases n
  {
    if n < 6 then None
    else if HtmlEndsAt(token, n) then Some(n)
    else LastHtmlEnd(token, n - 1)
  }

  /** `\s*`: the first index at or after `j` that holds no whitespace. */
  function SkipSpace(text: string, j: nat): (k: nat)
    requires j <= |text|
    ensures j <= k <= |text|
    ensures k == |text| || !IsSpace(text[k])
    ensures forall i :: j <= i < k ==> IsSpace(text[i])
    decreases |text| - j
  {
    if j < |text| && IsSpace(text[j]) then SkipSpace(text, j + 1) else j
  }

  /**
   * The group of `\s*([^\s\n]+\.html)` matched at `j`. Whitespace can only be
   * taken by `\s*`, so the group lies inside the run of non-space characters
   * that follows it.
   */
  function HtmlGroup(text: string, j: nat): (g: Option<string>)
    requires j <= |text|
    ensures g.Some? ==> |g.value| >= 6 && EndsWithHtml(g.value) && NoSpace(g.value)
  {
    var k := SkipSpace(text, j);
    var rest := text[k..];
    var token := rest[..TokenLen(rest)];
    match LastHtmlEnd(token, |token|)
    case Some(n) =>
      assert token[..n][n - |EXT|..] == token[n - |EXT|..n];
      Some(token[..n])
    case None => None
  }

  predicate IsDigit(c: char) { '0' <= c <= '9' }
  predicate IsHex(c: char) { '0' <= c <= '9' || 'a' <= c <= 'f' }

  /** `[a-f0-9]+` is maximal: '.' is no hex digit, so it never backtracks. */
  function HexRun(s: string): (n: nat)
    ensures n <= |s|
    ensures forall k :: 0 <= k < n ==> IsHex(s[k])
    ensures n == |s| || !IsHex(s[n])
    decreases |s|
  {
    if s != [] && IsHex(s[0]) then 1 + HexRun(s[1..]) else 0
  }

  /** `place_recommendation_\d{14}_[a-f0-9]+\.html` anchored at the start of `s`. */
  function PlaceFileAt(s: string): (g: Option<string>)
    ensures g.Some? ==> IsPrefix(FILE_PREFIX, g.value) && EndsWithHtml(g.value) && IsPrefix(g.value, s)
  {
    var p := |FILE_PREFIX|;
    if |s| >= p + 15 && s[..p] == FILE_PREFIX && (forall k :: p <= k < p + 14 ==> IsDigit(s[k])) && s[p + 14] == '_' then
      var h := HexRun(s[p + 15..]);
      var e := p + 15 + h;
      if h > 0 && e + |EXT| <= |s| && s[e..e + |EXT|] == EXT then
        assert s[..e + |EXT|][..p] == FILE_PREFIX;
        Some(s[..e + |EXT|])
      else None
    else None
  }

  /** The group a pattern captures when the match starts at `i`. */
  function MatchAt(text: string, pat: Pattern, i: nat): (g: Option<string>)
    requires i <= |text|
    ensures g.Some? ==> EndsWithHtml(g.value)
  {
    match pat
    case Marker(m) => if IsPrefix(m, text[i..]) then HtmlGroup(text, i + |m|) else None
    case PlaceFile => PlaceFileAt(text[i..])
  }

  /** What the pattern captures at each start position `0..|text|`. */
  function Matches(text: string, pat: Pattern): (ms: seq<Option<string>>)
    ensures |ms| == |text| + 1
    ensures forall j :: 0 <= j <= |text| ==> ms[j] == MatchAt(text, pat, j)
  {
    seq(|text| + 1, j requires 0 <= j <= |text| => MatchAt(text, pat, j))
  }

  /** The first position from `i` on that holds a value. */
  function FirstSome<T>(s: seq<Option<T>>, i: nat): (k: Option<nat>)
    requires i <= |s|
    ensures k.None? ==> forall j :: i <= j < |s| ==> s[j].None?
    ensures k.Some? ==> i <= k.value < |s| && s[k.value].Some?
    ensures k.Some? ==> forall j :: i <= j < k.value ==> s[j].None?
    decreases |s| - i
  {
    if i == |s| then None
    else if s[i].Some? then Some(i)
    else FirstSome(s, i + 1)
  }

  /** `re.search(...).group(1)`: the group of the leftmost match. */
  function Search(text: string, pat: Pattern): (g: Option<string>)
    ensures g.None? <==> forall j :: 0 <= j <= |text| ==> MatchAt(text, pat, j).None?
    ensures g.Some? ==> EndsWithHtml(g.value)
  {
    var ms := Matches(text, pat);
    match FirstSome(ms, 0)
    case Some(k) => ms[k]
    case None => None
  }

  /**
   * The address of the generated page: the "HTML页面:" file name under the
   * script folder, else the "生成的推荐页面：" path under the workspace, else
   * any generated file name under the script folder.
   */
  function PageUrl(output: string): (url: Option<string>)
    ensures url.Some? ==> IsPrefix(WORKSPACE, url.value) && EndsWithHtml(url.value)
  {
    match Search(output, Marker(HTML_MARKER))
    case Some(name) =>
      Appended(JS_SRC_DIR, name);
      Some(JS_SRC + name)
    case None =>
      match Search(output, Marker(PAGE_MARKER))
      case Some(path) =>
        if IsPrefix(WORKSPACE_DIR, path) then
          var tail := path[|WORKSPACE_DIR|..];
          assert path == WORKSPACE_DIR + tail;
          Appended([], tail);
          Some("/" + path)
        else
          Appended([], path);
          Some(WORKSPACE + path)
      case None =>
        match Search(output, PlaceFile)
        case Some(name) =>
          Appended(JS_SRC_DIR, name);
          Some(JS_SRC + name)
        case None => None
  }

  /** Putting a folder in front keeps the ".html" ending; both folders lie under the workspace. */
  lemma Appended(sub: string, name: string)
    ensures IsPrefix(WORKSPACE, WORKSPACE + sub + name)
    ensures EndsWithHtml(name) ==> EndsWithHtml(WORKSPACE + sub + name)
  {
    var folder := WORKSPACE + sub;
    assert (folder + name)[..|WORKSPACE|] == WORKSPACE;
    if EndsWithHtml(name) {
      assert (folder + name)[|folder + name| - |EXT|..] == name[|name| - |EXT|..];
    }
  }

  /** The page address is absent exactly when none of the three patterns matches anywhere. */
  lemma PageUrlNone(output: string)
    ensures PageUrl(output).None? <==>
      forall j :: 0 <= j <= |output| ==>
        MatchAt(output, Marker(HTML_MARKER), j).None? && MatchAt(output, Marker(PAGE_MARKER), j).None?
        && MatchAt(output, PlaceFile, j).None?
  {
    if PageUrl(output).None? {
      forall j | 0 <= j <= |output|
        ensures MatchAt(output, Marker(HTML_MARKER), j).None? && MatchAt(output, Marker(PAGE_MARKER), j).None?
                && MatchAt(output, PlaceFile, j).None?
      {
      }
    }
  }

  /** A run of non-space characters followed by whitespace or the end is read whole. */
  lemma TokenOfLine(name: string, rest: string)
    requires NoSpace(name)
    requires rest == [] || IsSpace(rest[0])
    ensures TokenLen(name + rest) == |name|
  {
    var s := name + rest;
    assert forall k :: 0 <= k < |name| ==> s[k] == name[k] && name[k] in name;
    assert |name| == |s| || s[|name|] == rest[0];
  }

  /** The line "HTML页面: <name>" yields `name` when read at its marker. */
  lemma MarkerLineMatches(before: string, name: string, rest: string)
    requires NoSpace(name) && |name| >= 6 && EndsWithHtml(name)
    requires rest == [] || IsSpace(rest[0])
    ensures var text := before + HTML_MARKER + " " + name + rest;
      MatchAt(text, Marker(HTML_MARKER), |before|) == Some(name)
  {
    var text := before + HTML_MARKER + " " + name + rest;
    var j := |before| + |HTML_MARKER|;
    assert text[|before|..][..|HTML_MARKER|] == HTML_MARKER;
    assert text[j] == ' ';
    assert text[j + 1..] == name + rest;
    assert text[j + 1] == name[0] && name[0] in name;
    assert SkipSpace(text, j) == j + 1;
    TokenOfLine(name, rest);
    assert (name + rest)[..|name|] == name;
    assert name[..|name|] == name;
  }

  /**
   * Round trip with the formatters that write "HTML页面: <file name>" as a
   * line of the output: when no earlier text spells the marker, the page
   * address is the file name under the script folder.
   */
  lemma PageUrlOfToolOutput(before: string, name: string, rest: string)
    requires NoSpace(name) && |name| >= 6 && EndsWithHtml(name)
    requires rest == [] || IsSpace(rest[0])
    requires !Contains(before + HTML_MARKER[..|HTML_MARKER| - 1], HTML_MARKER)
    ensures PageUrl(before + HTML_MARKER + " " + name + rest) == Some(JS_SRC + name)
  {
    var text := before + HTML_MARKER + " " + name + rest;
    MarkerLineMatches(before, name, rest);
    NoEarlierMarker(before, " " + name + rest);
    assert text == before + HTML_MARKER + (" " + name + rest);
    SearchFinds(text, Marker(HTML_MARKER), |before|);
  }

  /** A marker occurrence that starts inside `before` would show in `before` and the marker's first characters. */
  lemma NoEarlierMarker(before: string, after: string)
    requires !Contains(before + HTML_MARKER[..|HTML_MARKER| - 1], HTML_MARKER)
    ensures forall k :: 0 <= k < |before| ==> MatchAt(before + HTML_MARKER + after, Marker(HTML_MARKER), k).None?
  {
    NoEarlierOccurrence(before, HTML_MARKER, after);
  }

  lemma NoEarlierOccurrence(before: string, m: string, after: string)
    requires m != [] && !Contains(before + m[..|m| - 1], m)
    ensures forall k :: 0 <= k < |before| ==> !IsPrefix(m, (before + m + after)[k..])
  {
    var text := before + m + after;
    var head := before + m[..|m| - 1];
    forall k | 0 <= k < |before|
      ensures !IsPrefix(m, text[k..])
    {
      if IsPrefix(m, text[k..]) {
        assert head[k..k + |m|] == text[k..][..|m|];
        ContainsAt(head, m, k);
      }
    }
  }

  /** A match at `k` with none before it is the one `re.search` reports. */
  lemma SearchFinds(text: string, pat: Pattern, k: nat)
    requires k <= |text| && MatchAt(text, pat, k).Some?
    requires forall j :: 0 <= j < k ==> MatchAt(text, pat, j).None?
    ensures Search(text, pat) == MatchAt(text, pat, k)
  {
    var ms := Matches(text, pat);
    FirstSomeAt(ms, k);
  }

  lemma FirstSomeAt<T>(s: seq<Option<T>>, k: nat)
    requires k < |s| && s[k].Some?
    requires forall j :: 0 <= j < k ==> s[j].None?
    ensures FirstSome(s, 0) == Some(k)
  {
    var first := FirstSome(s, 0);
    assert first.Some? && first.value <= k;
  }

  /**
   * Round trip with the name generator: "place_recommendation_", a
   * fourteen-digit time stamp, '_', a lower-case hex digest and ".html" is
   * recognised whole by the third pattern, whatever follows it.
   */
  lemma GeneratedNameMatches(stamp: string, digest: string, rest: string)
    requires |stamp| == 14 && forall c :: c in stamp ==> IsDigit(c)
    requires digest != [] && forall c :: c in digest ==> IsHex(c)
    ensures var name := FILE_PREFIX + stamp + "_" + digest + EXT;
      PlaceFileAt(name + rest) == Some(name)
  {
    var name := FILE_PREFIX + stamp + "_" + digest + EXT;
    var s := name + rest;
    var p := |FILE_PREFIX|;
    assert s[..p] == FILE_PREFIX;
    forall k | p <= k < p + 14
      ensures IsDigit(s[k])
    {
      assert s[k] == stamp[k - p];
      assert stamp[k - p] in stamp;
    }
    assert s[p + 14] == '_';
    var tail := s[p + 15..];
    assert tail == digest + EXT + rest;
    HexRunOf(digest, EXT + rest);
    var e := p + 15 + |digest|;
    assert s[e..e + |EXT|] == EXT;
    assert s[..e + |EXT|] == name;
  }

  lemma HexRunOf(digest: string, rest: string)
    requires forall c :: c in digest ==> IsHex(c)
    requires rest == [] || !IsHex(rest[0])
    ensures HexRun(digest + rest) == |digest|
  {
    var s := digest + rest;
    assert forall k :: 0 <= k < |digest| ==> s[k] == digest[k] && digest[k] in digest;
    assert |digest| == |s| || s[|digest|] == rest[0];
  }
}
