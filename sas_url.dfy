/**
 * The pre-signed ("SAS") blob URL parser of the storage blob service: the
 * pattern `storageBlobUrlRegex` and the function `_parseSasUrl` that applies it.
 *
 * The pattern is `^(https://[\w._-]+)/([\w-_]+)/([\w-_.]+)\?(.*)$` with the
 * `i` flag and without the `u` and `s` flags. In that mode of JavaScript
 * regular expressions:
 *   - `\w` is exactly the ASCII class [A-Za-z0-9_], and the case-insensitive
 *     flag adds nothing to it or to `.`, `_` and `-`;
 *   - the letters of "https" match either ASCII case and nothing else (no
 *     non-ASCII character folds onto an ASCII letter);
 *   - `.` matches every character except the line terminators LF, CR,
 *     U+2028 and U+2029, and `$` only matches at the end of the input.
 * The parser below is a hand-written matcher for that pattern, and
 * `IsMatch` is the pattern's meaning stated declaratively.
 */
module SasUrl {
  import opened Wrappers

  /** The four capture groups of a successful match. */
  datatype CreateBlobParams = CreateBlobParams(
    accountUrl: string,
    container: string,
    blob: string,
    sasToken: string)

  /**
   * What `_parseSasUrl` throws.
   * MatchIsNull: `exec` returned null and reading `match.length` threw a
   * TypeError. InvalidSasUrl: the named error of the source, with its message.
   */
  datatype ParseError = MatchIsNull | InvalidSasUrl(message: string)

  /** `\w` without the `u` flag. */
  predicate IsWordChar(c: char) {
    ('a' <= c <= 'z') || ('A' <= c <= 'Z') || ('0' <= c <= '9') || c == '_'
  }

  /** The class `[\w._-]` of the host group, which is also the blob group's `[\w-_.]`. */
  predicate IsNameChar(c: char) {
    IsWordChar(c) || c == '.' || c == '-'
  }

  /** The class `[\w-_]` of the container group. */
  predicate IsContainerChar(c: char) {
    IsWordChar(c) || c == '-'
  }

  /** The characters `.` does not match when the `s` flag is absent. */
  predicate IsLineTerminator(c: char) {
    c == '\n' || c == '\r' || c == '\U{2028}' || c == '\U{2029}'
  }

  /** The character classes the matcher scans with. */
  datatype CharClass = Name | Container | AnyButLineTerminator

  predicate InClass(cls: CharClass, c: char) {
    match cls
    case Name => IsNameChar(c)
    case Container => IsContainerChar(c)
    case AnyButLineTerminator => !IsLineTerminator(c)
  }

  predicate AllInClass(cls: CharClass, s: string) {
    forall i :: 0 <= i < |s| ==> InClass(cls, s[i])
  }

  /** ASCII lower-casing, the only case folding that reaches "https" without the `u` flag. */
  function AsciiLower(c: char): char {
    if 'A' <= c <= 'Z' then (c as int + 32) as char else c
  }

  /** `s` is "https://" up to the case of its five letters. */
  predicate IsHttpsScheme(s: string) {
    && |s| == 8
    && AsciiLower(s[0]) == 'h' && AsciiLower(s[1]) == 't' && AsciiLower(s[2]) == 't'
    && AsciiLower(s[3]) == 'p' && AsciiLower(s[4]) == 's'
    && s[5] == ':' && s[6] == '/' && s[7] == '/'
  }

  /** The account URL group `https://[\w._-]+`. */
  predicate IsAccountUrl(a: string) {
    |a| > 8 && IsHttpsScheme(a[..8]) && AllInClass(Name, a[8..])
  }

  /** The four groups in the order and with the separators of the pattern. */
  function Format(p: CreateBlobParams): string {
    p.accountUrl + ("/" + (p.container + ("/" + (p.blob + ("?" + p.sasToken)))))
  }

  /** Every group matches its sub-pattern. */
  predicate GroupsMatch(p: CreateBlobParams) {
    && IsAccountUrl(p.accountUrl)
    && |p.container| > 0 && AllInClass(Container, p.container)
    && |p.blob| > 0 && AllInClass(Name, p.blob)
    && AllInClass(AnyButLineTerminator, p.sasToken)
  }

  /** The pattern matches `u` with capture groups `p`. */
  predicate IsMatch(u: string, p: CreateBlobParams) {
    GroupsMatch(p) && u == Format(p)
  }

  /** The end of the longest run of `cls` characters in `s` starting at `i`. */
  function SpanEnd(s: string, i: nat, cls: CharClass): (j: nat)
    requires i <= |s|
    ensures i <= j <= |s|
    ensures forall k :: i <= k < j ==> InClass(cls, s[k])
    ensures j < |s| ==> !InClass(cls, s[j])
    decreases |s| - i
  {
    if i == |s| || !InClass(cls, s[i]) then i else SpanEnd(s, i + 1, cls)
  }

  /**
   * `_parseSasUrl` as written. Every group is the longest run of its class,
   * since no shorter run can be followed by the separator the pattern needs
   * next. When the pattern does not match, `exec` returns null and the
   * `match.length < 5` test throws a TypeError: the InvalidSasUrlError branch
   * can never be reached, since a match always has five entries.
   */
  function ParseSasUrl(u: string): (r: Result<CreateBlobParams, ParseError>)
    ensures r.Err? ==> r.error == MatchIsNull
    ensures r.Ok? ==> |u| >= 8 && IsHttpsScheme(u[..8]) && r == AfterHost(u, SpanEnd(u, 8, Name))
  {
    if |u| < 8 || !IsHttpsScheme(u[..8]) then Err(MatchIsNull)
    else AfterHost(u, SpanEnd(u, 8, Name))
  }

  /** The rest of the match once the host run ends at `h`. */
  function AfterHost(u: string, h: nat): (r: Result<CreateBlobParams, ParseError>)
    requires 8 <= h <= |u|
    ensures r.Err? ==> r.error == MatchIsNull
    ensures r.Ok? ==> 8 < h < |u| && u[h] == '/' && r == AfterContainer(u, h, SpanEnd(u, h + 1, Container))
  {
    if h == 8 || h == |u| || u[h] != '/' then Err(MatchIsNull)
    else AfterContainer(u, h, SpanEnd(u, h + 1, Container))
  }

  /** The rest of the match once the container run ends at `c`. */
  function AfterContainer(u: string, h: nat, c: nat): (r: Result<CreateBlobParams, ParseError>)
    requires 8 < h < c <= |u|
    ensures r.Err? ==> r.error == MatchIsNull
    ensures r.Ok? ==> h + 1 < c < |u| && u[c] == '/' && r == AfterBlob(u, h, c, SpanEnd(u, c + 1, Name))
  {
    if c == h + 1 || c == |u| || u[c] != '/' then Err(MatchIsNull)
    else AfterBlob(u, h, c, SpanEnd(u, c + 1, Name))
  }

  /** The rest of the match once the blob run ends at `b`: a "?" and a token up to the end. */
  function AfterBlob(u: string, h: nat, c: nat, b: nat): (r: Result<CreateBlobParams, ParseError>)
    requires 8 < h < c < b <= |u|
    ensures r.Err? ==> r.error == MatchIsNull
    ensures r.Ok? ==> c + 1 < b < |u| && u[b] == '?' && SpanEnd(u, b + 1, AnyButLineTerminator) == |u|
    ensures r.Ok? ==> r.value == CreateBlobParams(u[..h], u[h + 1..c], u[c + 1..b], u[b + 1..])
  {
    if b == c + 1 || b == |u| || u[b] != '?' then Err(MatchIsNull)
    else if SpanEnd(u, b + 1, AnyButLineTerminator) != |u| then Err(MatchIsNull)
    else Ok(CreateBlobParams(u[..h], u[h + 1..c], u[c + 1..b], u[b + 1..]))
  }

  /** The message the source gives its InvalidSasUrlError. */
  function InvalidSasUrlMessage(u: string): string {
    "Invalid sas url \"" + u + "\""
  }

  /**
   * `_parseSasUrl` as evidently intended: a URL the pattern does not match
   * raises InvalidSasUrlError instead of a TypeError.
   */
  function ParseSasUrlChecked(u: string): (r: Result<CreateBlobParams, ParseError>)
    ensures r.Err? <==> forall p :: !IsMatch(u, p)
    ensures r.Err? ==> r.error == InvalidSasUrl(InvalidSasUrlMessage(u))
    ensures r.Ok? ==> IsMatch(u, r.value)
  {
    match ParseSasUrl(u)
    case Ok(p) =>
      ParseSound(u);
      Ok(p)
    case Err(_) =>
      ParseErrIffNoMatch(u);
      Err(InvalidSasUrl(InvalidSasUrlMessage(u)))
  }

  // ---------------------------------------------------------------------------
  // Lemmas

  /** A run of `cls` characters from `i` that stops at `j` is the longest one. */
  lemma {:induction false} SpanEndUnique(s: string, i: nat, j: nat, cls: CharClass)
    requires i <= j <= |s|
    requires forall k :: i <= k < j ==> InClass(cls, s[k])
    requires j < |s| ==> !InClass(cls, s[j])
    ensures SpanEnd(s, i, cls) == j
    decreases j - i
  {
    if i < j {
      SpanEndUnique(s, i + 1, j, cls);
    }
  }

  /** Cutting a string at its separators and formatting the pieces gives it back. */
  lemma {:induction false} FormatCuts(u: string, h: nat, c: nat, b: nat)
    requires h < c < b < |u|
    requires u[h] == '/' && u[c] == '/' && u[b] == '?'
    ensures Format(CreateBlobParams(u[..h], u[h + 1..c], u[c + 1..b], u[b + 1..])) == u
  {
    assert u[c + 1..] == u[c + 1..b] + ("?" + u[b + 1..]);
    assert u[h + 1..] == u[h + 1..c] + ("/" + u[c + 1..]);
    assert u == u[..h] + ("/" + u[h + 1..]);
  }

  /** Where the groups and separators of a formatted URL sit. */
  lemma {:induction false} FormatPositions(p: CreateBlobParams)
    ensures var u, h := Format(p), |p.accountUrl|;
      var c := h + 1 + |p.container|;
      var b := c + 1 + |p.blob|;
      && |u| == b + 1 + |p.sasToken|
      && u[..h] == p.accountUrl && u[h] == '/'
      && u[h + 1..c] == p.container && u[c] == '/'
      && u[c + 1..b] == p.blob && u[b] == '?'
      && u[b + 1..] == p.sasToken
  {
    var u, h := Format(p), |p.accountUrl|;
    var c := h + 1 + |p.container|;
    var b := c + 1 + |p.blob|;
    var r2 := p.blob + ("?" + p.sasToken);
    var r1 := p.container + ("/" + r2);
    assert u == p.accountUrl + ("/" + r1);
    assert u[h + 1..] == r1;
    assert u[c + 1..] == r2;
    assert u[h + 1..c] == r1[..|p.container|];
    assert u[c + 1..b] == r2[..|p.blob|];
  }

  /** A slice all of whose characters are in `cls`. */
  lemma SliceInClass(u: string, i: nat, j: nat, cls: CharClass)
    requires i <= j <= |u|
    requires forall k :: i <= k < j ==> InClass(cls, u[k])
    ensures AllInClass(cls, u[i..j])
  {
    forall k | 0 <= k < j - i ensures InClass(cls, u[i..j][k]) {
      assert u[i..j][k] == u[i + k];
    }
  }

  /** A slice of `cls` characters followed by a character outside `cls` is a longest run. */
  lemma SliceIsSpan(u: string, i: nat, j: nat, cls: CharClass)
    requires i <= j <= |u|
    requires AllInClass(cls, u[i..j])
    requires j < |u| ==> !InClass(cls, u[j])
    ensures SpanEnd(u, i, cls) == j
  {
    forall k | i <= k < j ensures InClass(cls, u[k]) {
      assert u[k] == u[i..j][k - i];
    }
    SpanEndUnique(u, i, j, cls);
  }

  /** The parser's answer once the ends of the runs are known. */
  lemma ParseAt(u: string, h: nat, c: nat, b: nat)
    requires 8 < h && h + 1 < c && c + 1 < b < |u|
    requires IsHttpsScheme(u[..8])
    requires SpanEnd(u, 8, Name) == h && u[h] == '/'
    requires SpanEnd(u, h + 1, Container) == c && u[c] == '/'
    requires SpanEnd(u, c + 1, Name) == b && u[b] == '?'
    requires SpanEnd(u, b + 1, AnyButLineTerminator) == |u|
    ensures ParseSasUrl(u) == Ok(CreateBlobParams(u[..h], u[h + 1..c], u[c + 1..b], u[b + 1..]))
  {
    assert AfterBlob(u, h, c, b) == Ok(CreateBlobParams(u[..h], u[h + 1..c], u[c + 1..b], u[b + 1..]));
    assert AfterContainer(u, h, c) == AfterBlob(u, h, c, b);
    assert AfterHost(u, h) == AfterContainer(u, h, c);
  }

  /** Where the runs of a successful parse end, and the groups they give. */
  lemma ParseOkShape(u: string) returns (h: nat, c: nat, b: nat)
    requires ParseSasUrl(u).Ok?
    ensures 8 < h && h + 1 < c && c + 1 < b < |u| && IsHttpsScheme(u[..8])
    ensures h == SpanEnd(u, 8, Name) && u[h] == '/'
    ensures c == SpanEnd(u, h + 1, Container) && u[c] == '/'
    ensures b == SpanEnd(u, c + 1, Name) && u[b] == '?'
    ensures SpanEnd(u, b + 1, AnyButLineTerminator) == |u|
    ensures ParseSasUrl(u).value == CreateBlobParams(u[..h], u[h + 1..c], u[c + 1..b], u[b + 1..])
  {
    h := SpanEnd(u, 8, Name);
    c := SpanEnd(u, h + 1, Container);
    b := SpanEnd(u, c + 1, Name);
  }

  /**
   * The separators "/", "/" and "?" sit at `h`, `c` and `b`, and the pieces
   * between them are non-empty and fit the classes of their groups.
   */
  predicate CutsOk(u: string, h: nat, c: nat, b: nat) {
    && 8 < h && h + 1 < c && c + 1 < b < |u| && IsHttpsScheme(u[..8])
    && u[h] == '/' && u[c] == '/' && u[b] == '?'
    && AllInClass(Name, u[8..h]) && AllInClass(Container, u[h + 1..c])
    && AllInClass(Name, u[c + 1..b]) && AllInClass(AnyButLineTerminator, u[b + 1..])
  }

  /** Cuts at the separators whose pieces fit their classes are a match. */
  lemma CutsMatch(u: string, h: nat, c: nat, b: nat)
    requires CutsOk(u, h, c, b)
    ensures IsMatch(u, CreateBlobParams(u[..h], u[h + 1..c], u[c + 1..b], u[b + 1..]))
  {
    FormatCuts(u, h, c, b);
    assert u[..h][..8] == u[..8];
    assert u[..h][8..] == u[8..h];
  }

  /** Soundness: whatever the parser returns is a match of the pattern. */
  lemma ParseSound(u: string)
    requires ParseSasUrl(u).Ok?
    ensures IsMatch(u, ParseSasUrl(u).value)
  {
    var h, c, b := ParseOkShape(u);
    assert CutsOk(u, h, c, b) by {
      SliceInClass(u, 8, h, Name);
      SliceInClass(u, h + 1, c, Container);
      SliceInClass(u, c + 1, b, Name);
      SliceInClass(u, b + 1, |u|, AnyButLineTerminator);
      assert u[b + 1..|u|] == u[b + 1..];
    }
    CutsMatch(u, h, c, b);
  }

  /** The pieces of a match, as slices of the matched string. */
  lemma MatchCuts(u: string, p: CreateBlobParams)
    requires IsMatch(u, p)
    ensures var h := |p.accountUrl|;
      var c := h + 1 + |p.container|;
      var b := c + 1 + |p.blob|;
      && CutsOk(u, h, c, b)
      && p == CreateBlobParams(u[..h], u[h + 1..c], u[c + 1..b], u[b + 1..])
  {
    FormatPositions(p);
    var h := |p.accountUrl|;
    assert u[..8] == p.accountUrl[..8];
    assert u[8..h] == p.accountUrl[8..];
  }

  /** Cuts at the separators whose pieces fit their classes are what the parser finds. */
  lemma CutsParse(u: string, h: nat, c: nat, b: nat)
    requires CutsOk(u, h, c, b)
    ensures ParseSasUrl(u) == Ok(CreateBlobParams(u[..h], u[h + 1..c], u[c + 1..b], u[b + 1..]))
  {
    SliceIsSpan(u, 8, h, Name);
    SliceIsSpan(u, h + 1, c, Container);
    SliceIsSpan(u, c + 1, b, Name);
    assert u[b + 1..|u|] == u[b + 1..];
    SliceIsSpan(u, b + 1, |u|, AnyButLineTerminator);
    ParseAt(u, h, c, b);
  }

  /** Completeness: every match of the pattern is found, with the same groups. */
  lemma ParseComplete(u: string, p: CreateBlobParams)
    requires IsMatch(u, p)
    ensures ParseSasUrl(u) == Ok(p)
  {
    var h := |p.accountUrl|;
    var c := h + 1 + |p.container|;
    var b := c + 1 + |p.blob|;
    assert p == CreateBlobParams(u[..h], u[h + 1..c], u[c + 1..b], u[b + 1..]) && CutsOk(u, h, c, b) by {
      MatchCuts(u, p);
    }
    CutsParse(u, h, c, b);
  }

  /** The parser fails exactly on the strings the pattern does not match. */
  lemma ParseErrIffNoMatch(u: string)
    ensures ParseSasUrl(u).Err? <==> forall p :: !IsMatch(u, p)
  {
    if ParseSasUrl(u).Ok? {
      ParseSound(u);
    } else {
      forall p | GroupsMatch(p) ensures u != Format(p) {
        ParseComplete(Format(p), p);
      }
    }
  }

  /** A match decomposes its string in one way only. */
  lemma MatchIsUnique(u: string, p: CreateBlobParams, q: CreateBlobParams)
    requires IsMatch(u, p) && IsMatch(u, q)
    ensures p == q
  {
    ParseComplete(u, p);
    ParseComplete(u, q);
  }

  /** The other round trip: groups that fit their alphabets are recovered from their URL. */
  lemma FormatRoundTrip(p: CreateBlobParams)
    requires GroupsMatch(p)
    ensures ParseSasUrl(Format(p)) == Ok(p)
  {
    ParseComplete(Format(p), p);
  }

  /** No parsed container or blob holds a "/", and no parsed blob a "?". */
  lemma ParsedNamesHaveNoSeparators(u: string)
    requires ParseSasUrl(u).Ok?
    ensures '/' !in ParseSasUrl(u).value.container
    ensures '/' !in ParseSasUrl(u).value.blob && '?' !in ParseSasUrl(u).value.blob
  {
    ParseSound(u);
    var p := ParseSasUrl(u).value;
    forall i | 0 <= i < |p.container| ensures p.container[i] != '/' {
      assert InClass(Container, p.container[i]);
    }
    forall i | 0 <= i < |p.blob| ensures p.blob[i] != '/' && p.blob[i] != '?' {
      assert InClass(Name, p.blob[i]);
    }
  }

  /** A URL of the expected shape is split into its four parts. */
  lemma ParseExample()
    ensures ParseSasUrl("HTTPS://a/c/b?t=1") == Ok(CreateBlobParams("HTTPS://a", "c", "b", "t=1"))
  {
    var u := "HTTPS://a/c/b?t=1";
    assert IsHttpsScheme(u[..8]);
    assert u[..9] == "HTTPS://a" && u[8..9] == "a" && u[10..11] == "c" && u[12..13] == "b";
    assert u[14..] == "t=1";
    CutsParse(u, 9, 11, 13);
  }

  /**
   * A blob path with a "/" in it is not matched: the blob group stops at the
   * first "/", where the pattern needs the "?". This holds whatever the rest
   * of the blob path and the token are, as long as the blob path is made of
   * name characters and "/" (a blob path such as "x?z/y" does match, with the
   * token "z/y").
   */
  lemma MultiSegmentBlobRejected(p: CreateBlobParams, m: nat)
    requires IsAccountUrl(p.accountUrl)
    requires |p.container| > 0 && AllInClass(Container, p.container)
    requires forall i :: 0 <= i < |p.blob| ==> InClass(Name, p.blob[i]) || p.blob[i] == '/'
    requires m < |p.blob| && p.blob[m] == '/'
    ensures ParseSasUrl(Format(p)).Err?
  {
    var u, h := Format(p), |p.accountUrl|;
    var c := h + 1 + |p.container|;
    var b := c + 1 + |p.blob|;
    FormatPositions(p);
    forall k | c + 1 <= k < b ensures InClass(Name, u[k]) || u[k] == '/' {
      assert u[k] == u[c + 1..b][k - c - 1];
    }
    assert u[c + 1 + m] == u[c + 1..b][m];
    SlashInBlobRejected(u, h, c, b, c + 1 + m);
  }

  /** The parser fails on a string whose blob part, made of name characters and "/", holds a "/". */
  lemma SlashInBlobRejected(u: string, h: nat, c: nat, b: nat, m: nat)
    requires h < c < b <= |u|
    requires IsAccountUrl(u[..h]) && u[h] == '/'
    requires c > h + 1 && AllInClass(Container, u[h + 1..c]) && u[c] == '/'
    requires forall k :: c + 1 <= k < b ==> InClass(Name, u[k]) || u[k] == '/'
    requires c + 1 <= m < b && u[m] == '/'
    ensures ParseSasUrl(u).Err?
  {
    var j := SpanEnd(u, c + 1, Name);
    assert j <= m && u[j] == '/';
    HostAndContainerRuns(u, h, c);
    ParseUpToBlob(u, h, c, j);
  }

  /** Where the host and container runs of `u` end, when an account URL and a container sit at the front. */
  lemma HostAndContainerRuns(u: string, h: nat, c: nat)
    requires h < c < |u|
    requires IsAccountUrl(u[..h]) && u[h] == '/'
    requires c > h + 1 && AllInClass(Container, u[h + 1..c]) && u[c] == '/'
    ensures 8 < h && IsHttpsScheme(u[..8])
    ensures SpanEnd(u, 8, Name) == h && SpanEnd(u, h + 1, Container) == c
  {
    assert u[..8] == u[..h][..8];
    assert u[8..h] == u[..h][8..];
    SliceIsSpan(u, 8, h, Name);
    SliceIsSpan(u, h + 1, c, Container);
  }

  /** Once the host and container runs are known, the parse is decided by the blob stage. */
  lemma ParseUpToBlob(u: string, h: nat, c: nat, b: nat)
    requires 8 < h && h + 1 < c && c < b <= |u|
    requires |u| >= 8 && IsHttpsScheme(u[..8])
    requires SpanEnd(u, 8, Name) == h && u[h] == '/'
    requires SpanEnd(u, h + 1, Container) == c && u[c] == '/'
    requires SpanEnd(u, c + 1, Name) == b
    ensures ParseSasUrl(u) == AfterBlob(u, h, c, b)
  {
    assert AfterContainer(u, h, c) == AfterBlob(u, h, c, b);
    assert AfterHost(u, h) == AfterContainer(u, h, c);
  }

  /** A string that is not a URL makes the source throw a TypeError, not InvalidSasUrlError. */
  lemma NotAUrlThrowsTypeError()
    ensures ParseSasUrl("not-a-url") == Err(MatchIsNull)
    ensures ParseSasUrlChecked("not-a-url") == Err(InvalidSasUrl("Invalid sas url \"not-a-url\""))
  {
    assert !IsHttpsScheme("not-a-url"[..8]) by {
      assert AsciiLower("not-a-url"[0]) != "https://"[0];
    }
    assert InvalidSasUrlMessage("not-a-url") == "Invalid sas url \"not-a-url\"";
  }

  /** A line terminator at the end of the token defeats the match, since `.` does not match it. */
  lemma LineTerminatorInTokenRejected(p: CreateBlobParams)
    requires GroupsMatch(p)
    ensures ParseSasUrl(Format(p) + "\n").Err?
  {
    var u := Format(p) + "\n";
    forall q | GroupsMatch(q) ensures u != Format(q) {
      var f := Format(q);
      FormatPositions(q);
      if |q.sasToken| == 0 {
        assert f[|f| - 1] == '?';
      } else {
        assert f[|f| - 1] == q.sasToken[|q.sasToken| - 1];
        assert InClass(AnyButLineTerminator, q.sasToken[|q.sasToken| - 1]);
      }
      assert u[|u| - 1] == '\n';
    }
    ParseErrIffNoMatch(u);
  }
}
