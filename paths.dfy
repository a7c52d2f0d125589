/**
 * File names and URLs the server derives: the public URL of a catalog
 * texture (`urlFromLocalPath`), the `path.extname` rule, and the name and
 * URL an uploaded plan is stored under.
 */
module Paths {
  import opened Wrappers
  import opened JsText

  // ---------------------------------------------------------------- urlFromLocalPath

  /**
   * The separator rewrite as written: the regular expression literal
   * `/\\\\/g` matches a PAIR of backslashes, so each "\\" pair becomes one
   * '/' and a single backslash is left alone. A path with no backslash is
   * returned as it is.
   */
  function CollapseBackslashPairs(s: string): (r: string)
    ensures |r| <= |s|
    ensures '\\' !in s ==> r == s
    decreases |s|
  {
    if |s| >= 2 && s[0] == '\\' && s[1] == '\\' then "/" + CollapseBackslashPairs(s[2..])
    else if s == [] then []
    else
      var rest := CollapseBackslashPairs(s[1..]);
      assert s == [s[0]] + s[1..];
      [s[0]] + rest
  }

  /** A backslash-free prefix passes through the rewrite unchanged. */
  lemma {:induction false} CollapsePrefix(x: string, y: string)
    requires '\\' !in x
    ensures CollapseBackslashPairs(x + y) == x + CollapseBackslashPairs(y)
  {
    if x == [] {
      assert x + y == y;
    } else {
      assert x[0] in x;
      PeelFirst(x, y);
      CollapsePrefix(x[1..], y);
      assert CollapseBackslashPairs(x + y) == [x[0]] + (x[1..] + CollapseBackslashPairs(y));
      assert x == [x[0]] + x[1..];
    }
  }

  /** A pair of backslashes after a backslash-free prefix becomes a single '/'. */
  lemma CollapsePair(a: string, b: string)
    requires '\\' !in a
    ensures CollapseBackslashPairs(a + "\\\\" + b) == a + "/" + CollapseBackslashPairs(b)
  {
    var pb := "\\\\" + b;
    calc {
      CollapseBackslashPairs(a + "\\\\" + b);
      { assert a + "\\\\" + b == a + pb; }
      CollapseBackslashPairs(a + pb);
      { CollapsePrefix(a, pb); }
      a + CollapseBackslashPairs(pb);
      { PairThen(b); }
      a + ("/" + CollapseBackslashPairs(b));
      a + "/" + CollapseBackslashPairs(b);
    }
  }

  lemma PairThen(b: string)
    ensures var s := "\\\\" + b; |s| >= 2 && s[0] == '\\' && s[1] == '\\' && s[2..] == b
  {
  }

  /** `a + t` starts with `a[0]`, followed by `a[1..] + t`. */
  lemma PeelFirst(a: string, t: string)
    requires a != []
    ensures (a + t)[0] == a[0] && (a + t)[1..] == a[1..] + t
  {
  }

  /** The evidently intended rewrite: every backslash becomes '/'. */
  function BackslashesToSlashes(s: string): (r: string)
    ensures |r| == |s| && '\\' !in r
    ensures forall i :: 0 <= i < |s| && s[i] != '\\' ==> r[i] == s[i]
  {
    seq(|s|, i requires 0 <= i < |s| => if s[i] == '\\' then '/' else s[i])
  }

  predicate IsSeparator(c: char)
  {
    c == '/' || c == '\\'
  }

  /** Two paths that differ at most in which separator they use at each position. */
  predicate SameUpToSeparators(a: string, b: string)
  {
    |a| == |b| && forall i :: 0 <= i < |a| ==> a[i] == b[i] || (IsSeparator(a[i]) && IsSeparator(b[i]))
  }

  /** The last five `/`-separated segments of a normalised path, joined again by `/`. */
  function RelativeTail(normalized: string): string
  {
    Join(LastN(Split(normalized, '/'), 5), "/")
  }

  /** Prefix the base URL, then send the first `/textures/` to `/assets/textures/`. */
  function UrlFromRelative(base: string, normalized: string): (r: string)
    ensures |r| > |base|
  {
    ReplaceFirst(base + "/" + RelativeTail(normalized), "/textures/", "/assets/textures/")
  }

  /** `urlFromLocalPath` as written, with the pair-matching separator rewrite; longer than the base. */
  function UrlFromLocalPath(base: string, local: string): (r: string)
    ensures |r| > |base|
  {
    UrlFromRelative(base, CollapseBackslashPairs(local))
  }

  /** `urlFromLocalPath` with the separator rewrite as evidently intended. */
  function UrlFromLocalPathIntended(base: string, local: string): (r: string)
    ensures |r| > |base|
  {
    UrlFromRelative(base, BackslashesToSlashes(local))
  }

  /** Only the last five segments survive; fewer survive only when the path has fewer. */
  lemma {:induction false} UrlKeepsLastFiveSegments(normalized: string)
    ensures var segments := Split(normalized, '/');
            Split(RelativeTail(normalized), '/') == LastN(segments, 5)
            && |LastN(segments, 5)| == if |segments| <= 5 then |segments| else 5
  {
    var segments := Split(normalized, '/');
    var kept := LastN(segments, 5);
    assert forall i :: 0 <= i < |kept| ==> kept[i] == segments[|segments| - |kept| + i];
    SplitJoin(kept, '/');
  }

  /**
   * The URL is the base URL followed by `/` and the kept segments, where the
   * first `/textures/` of that relative part becomes `/assets/textures/`,
   * as long as no `/textures/` starts inside the base URL itself.
   */
  lemma UrlRemapsTextures(base: string, local: string)
    requires forall j: nat :: j < |base| ==>
               !OccursAt(base + "/" + RelativeTail(CollapseBackslashPairs(local)), "/textures/", j)
    ensures UrlFromLocalPath(base, local)
            == base + ReplaceFirst("/" + RelativeTail(CollapseBackslashPairs(local)), "/textures/", "/assets/textures/")
  {
    var rel := "/" + RelativeTail(CollapseBackslashPairs(local));
    assert base + "/" + RelativeTail(CollapseBackslashPairs(local)) == base + rel;
    ReplaceAfterPrefix(base, rel, "/textures/", "/assets/textures/");
  }

  /**
   * A catalog path `textures/<rest>` of at most five segments is served
   * from `<base>/assets/textures/<rest>`.
   */
  lemma TexturePathRemap(base: string, rest: string)
    requires '\\' !in rest && |Split(rest, '/')| <= 4
    requires forall j: nat :: j < |base| ==> !OccursAt(base + "/textures/" + rest, "/textures/", j)
    ensures UrlFromLocalPath(base, "textures/" + rest) == base + "/assets/textures/" + rest
  {
    var local, pat, rep := "textures/" + rest, "/textures/", "/assets/textures/";
    TexturePathTail(rest);
    SlashTextures();
    Regroup3("/", "textures/", rest);
    assert "/" + local == pat + rest;
    Regroup3(base, "/", local);
    Regroup3(base, pat, rest);
    assert base + "/" + local == base + pat + rest;
    UrlRemapsTextures(base, local);
    ReplaceLeading(pat, rest, rep);
    Regroup3(base, rep, rest);
  }

  lemma SlashTextures()
    ensures "/" + "textures/" == "/textures/"
  {
  }

  /** For example, with base `h` the catalog path `textures/w/a.png` is served as `h/assets/textures/w/a.png`. */
  lemma TexturesExample()
    ensures UrlFromLocalPath("h", "textures/" + "w/a.png") == "h" + "/assets/textures/" + "w/a.png"
  {
    var rest := "w/a.png";
    assert rest == "w" + ['/'] + "a.png";
    SplitAtSeparator("w", '/', "a.png");
    SplitWithoutSeparator("a.png", '/');
    assert ("h" + "/textures/" + rest)[0] != "/textures/"[0];
    TexturePathRemap("h", rest);
  }

  /** `textures/<rest>` is left alone by the rewrite and kept whole by `slice(-5)`. */
  lemma TexturePathTail(rest: string)
    requires '\\' !in rest && |Split(rest, '/')| <= 4
    ensures RelativeTail(CollapseBackslashPairs("textures/" + rest)) == "textures/" + rest
  {
    var local := "textures/" + rest;
    TexturesNoBackslash(rest);
    TexturesSplit(rest);
    ShortTail(local);
  }

  lemma TexturesNoBackslash(rest: string)
    requires '\\' !in rest
    ensures CollapseBackslashPairs("textures/" + rest) == "textures/" + rest
  {
    var local := "textures/" + rest;
    forall i | 0 <= i < |local|
      ensures local[i] != '\\'
    {
      if i >= 9 {
        assert local[i] == rest[i - 9];
      }
    }
  }

  lemma TexturesSplit(rest: string)
    ensures Split("textures/" + rest, '/') == ["textures"] + Split(rest, '/')
  {
    assert "textures/" + rest == "textures" + ['/'] + rest;
    SplitAtSeparator("textures", '/', rest);
  }

  /** A pattern that starts the string is the occurrence `replace` rewrites. */
  lemma ReplaceLeading(pat: string, rest: string, rep: string)
    ensures ReplaceFirst(pat + rest, pat, rep) == rep + rest
  {
    var s := pat + rest;
    assert s[..|pat|] == pat;
    FirstOccurrence(s, pat, 0);
    assert s[|pat|..] == rest;
  }

  /**
   * A path of at most five segments that the rewrite leaves alone is kept
   * whole: the URL is the base, a slash and the path, when no `/textures/`
   * occurs in it.
   */
  lemma UrlOfShortPath(base: string, local: string)
    requires CollapseBackslashPairs(local) == local && |Split(local, '/')| <= 5
    requires forall j: nat :: !OccursAt(base + "/" + local, "/textures/", j)
    ensures UrlFromLocalPath(base, local) == base + "/" + local
  {
    ShortTail(local);
  }

  /** The intended rewrite makes the URL independent of the separator style of the local path. */
  lemma UrlSeparatorInsensitive(base: string, a: string, b: string)
    requires SameUpToSeparators(a, b)
    ensures UrlFromLocalPathIntended(base, a) == UrlFromLocalPathIntended(base, b)
  {
    assert BackslashesToSlashes(a) == BackslashesToSlashes(b);
  }

  /** A normalised path of at most five segments is its own relative tail. */
  lemma ShortTail(normalized: string)
    requires |Split(normalized, '/')| <= 5
    ensures RelativeTail(normalized) == normalized
  {
    JoinSplit(normalized, '/');
  }

  /** As written, a single backslash survives: "a\\b" is one segment and is kept verbatim. */
  lemma AsWrittenKeepsBackslash()
    ensures UrlFromLocalPath("h", "a\\b") == "h" + "/" + "a\\b"
  {
    var win := "a\\b";
    assert CollapseBackslashPairs("b") == "b";
    assert CollapseBackslashPairs("\\b") == "\\b";
    assert CollapseBackslashPairs(win) == win;
    SplitWithoutSeparator(win, '/');
    UrlOfShortPath("h", win);
  }

  lemma AsWrittenForwardSlash()
    ensures UrlFromLocalPath("h", "a/b") == "h" + "/" + "a/b"
  {
    var posix := "a/b";
    SplitWithoutSeparator("b", '/');
    SplitAtSeparator("a", '/', "b");
    assert posix == "a" + ['/'] + "b";
    UrlOfShortPath("h", posix);
  }

  /** As written, a doubled backslash is a separator: "a\\\\b" gives the same URL as "a/b". */
  lemma AsWrittenCollapsesPair()
    ensures UrlFromLocalPath("h", "a\\\\b") == UrlFromLocalPath("h", "a/b")
  {
    CollapsePair("a", "b");
    assert "a\\\\b" == "a" + "\\\\" + "b";
  }

  /**
   * As written, the same path with one Windows separator yields a different
   * URL from its forward-slash form.
   */
  lemma AsWrittenSeparatorSensitive()
    ensures SameUpToSeparators("a\\b", "a/b")
    ensures UrlFromLocalPath("h", "a\\b") != UrlFromLocalPath("h", "a/b")
  {
    SeparatorVariants();
    AsWrittenKeepsBackslash();
    AsWrittenForwardSlash();
    DifferentUrls();
  }

  lemma SeparatorVariants()
    ensures SameUpToSeparators("a\\b", "a/b")
  {
  }

  lemma DifferentUrls()
    ensures "h" + "/" + "a\\b" != "h" + "/" + "a/b"
  {
    assert ("h" + "/" + "a\\b")[3] != ("h" + "/" + "a/b")[3];
  }

  // ---------------------------------------------------------------- path.extname

  /** The last index of `c` in `s`, if any. */
  function LastIndexOf(s: string, c: char): (r: Option<nat>)
    ensures r.None? <==> c !in s
    ensures r.Some? ==> r.value < |s| && s[r.value] == c && c !in s[r.value + 1..]
  {
    if s == [] then None
    else if s[|s| - 1] == c then Some(|s| - 1)
    else
      assert s == s[..|s| - 1] + [s[|s| - 1]];
      var r := LastIndexOf(s[..|s| - 1], c);
      assert r.Some? ==> s[r.value + 1..] == s[..|s| - 1][r.value + 1..] + [s[|s| - 1]];
      r
  }

  /** Drops exactly the run of '/' that ends `s`. */
  function StripTrailingSlashes(s: string): (r: string)
    ensures |r| <= |s| && r == s[..|r|]
    ensures r == [] || r[|r| - 1] != '/'
    ensures forall k :: |r| <= k < |s| ==> s[k] == '/'
  {
    if s != [] && s[|s| - 1] == '/' then StripTrailingSlashes(s[..|s| - 1]) else s
  }

  /** The last path component, trailing slashes ignored. */
  function BaseName(path: string): (r: string)
    ensures '/' !in r
  {
    var t := StripTrailingSlashes(path);
    match LastIndexOf(t, '/')
    case None => t
    case Some(i) => t[i + 1..]
  }

  /**
   * `path.extname(p)` on POSIX: from the last '.' of the last component to
   * its end; empty when that component has no '.', starts with its only
   * leading '.', or is "..".
   */
  function ExtName(path: string): (r: string)
    ensures r == "" || (r[0] == '.' && '.' !in r[1..] && '/' !in r)
  {
    var b := BaseName(path);
    match LastIndexOf(b, '.')
    case None => ""
    case Some(d) => if d == 0 || b == ".." then "" else b[d..]
  }

  lemma {:induction false} LastIndexOfBefore(a: string, c: char, b: string)
    requires c !in b
    ensures LastIndexOf(a + [c] + b, c) == Some(|a|)
  {
    var s := a + [c] + b;
    if b == [] {
      assert s[|s| - 1] == c;
    } else {
      var init := b[..|b| - 1];
      LastIndexOfBefore(a, c, init);
      assert b[|b| - 1] in b;
      assert s[|s| - 1] == b[|b| - 1] != c;
      assert s[..|s| - 1] == a + [c] + init;
    }
  }

  lemma BaseNameOfName(name: string)
    requires '/' !in name
    ensures BaseName(name) == name
  {
    if name != [] {
      assert name[|name| - 1] in name;
    }
  }

  /** A plain file name `stem.ext` has extension `.ext`; a name with no '.' has none. */
  lemma ExtNameOfFileName(stem: string, ext: string)
    requires '/' !in stem && '/' !in ext && '.' !in ext
    requires stem != "" && stem[0] != '.'
    ensures ExtName(stem + "." + ext) == "." + ext
    ensures '.' !in stem ==> ExtName(stem) == ""
  {
    var name := stem + "." + ext;
    BaseNameOfName(name);
    BaseNameOfName(stem);
    LastIndexOfBefore(stem, '.', ext);
    assert name[0] == stem[0];
    assert name[|stem|..] == "." + ext;
  }

  // ---------------------------------------------------------------- uploads

  /** The extension an upload is stored with: `path.extname(originalname) || '.png'`. */
  function UploadExt(originalName: string): (r: string)
    ensures |r| >= 1 && r[0] == '.'
    ensures ExtName(originalName) == "" ==> r == ".png"
    ensures ExtName(originalName) != "" ==> r == ExtName(originalName)
  {
    StrOr(ExtName(originalName), ".png")
  }


  /** The parts a stored plan's file name is made of. */
  datatype PlanName = PlanName(timestamp: nat, ext: string)

  /** The length of the run of digits that starts `s`. */
  function DigitRun(s: string): (n: nat)
    ensures n <= |s| && AllDigits(s[..n])
    ensures n < |s| ==> !IsDigit(s[n])
  {
    if s != [] && IsDigit(s[0]) then
      var n := 1 + DigitRun(s[1..]);
      assert s[..n] == [s[0]] + s[1..][..n - 1];
      n
    else 0
  }

  /** Reads a stored plan's name back into its timestamp and extension. */
  function ParsePlanFileName(name: string): Option<PlanName>
  {
    if |name| < 5 || name[..5] != "plan_" then None
    else
      var rest := name[5..];
      var n := DigitRun(rest);
      if n == 0 then None else Some(PlanName(ParseDecimal(rest[..n]), rest[n..]))
  }

  lemma {:induction false} DigitRunOfDigits(d: string, e: string)
    requires AllDigits(d)
    requires e == [] || !IsDigit(e[0])
    ensures DigitRun(d + e) == |d|
  {
    if d != [] {
      DigitRunOfDigits(d[1..], e);
      assert (d + e)[1..] == d[1..] + e;
    }
  }

  /**
   * A stored plan's name determines the upload's timestamp and extension:
   * parsing `plan_<now><ext>` gives back `now` and `ext`, where `ext` is
   * the original extension or ".png".
   */
  lemma ParsePlanFileNameOfParts(digits: string, ext: string)
    requires |digits| >= 1 && AllDigits(digits)
    requires |ext| >= 1 && ext[0] == '.'
    ensures ParsePlanFileName("plan_" + digits + ext) == Some(PlanName(ParseDecimal(digits), ext))
  {
    var name, rest := "plan_" + digits + ext, digits + ext;
    assert name == "plan_" + rest;
    PlanPrefix(rest);
    DigitsThenExt(digits, ext);
    assert name[5..] == rest && DigitRun(rest) == |digits|;
    assert ParsePlanFileName(name) == Some(PlanName(ParseDecimal(rest[..|digits|]), rest[|digits|..]));
  }

  lemma PlanPrefix(rest: string)
    ensures |"plan_" + rest| >= 5 && ("plan_" + rest)[..5] == "plan_" && ("plan_" + rest)[5..] == rest
  {
  }

  /** The digit run of `digits + ext` is exactly `digits`, and `ext` follows it. */
  lemma DigitsThenExt(digits: string, ext: string)
    requires AllDigits(digits) && |ext| >= 1 && ext[0] == '.'
    ensures DigitRun(digits + ext) == |digits|
    ensures (digits + ext)[..|digits|] == digits && (digits + ext)[|digits|..] == ext
  {
    DigitRunOfDigits(digits, ext);
  }

  /**
   * The multer `filename` rule: `plan_<now><ext>`, `now` being the upload's
   * millisecond timestamp. A stored name determines the timestamp and the
   * extension it was made from.
   */
  function PlanFileName(now: nat, originalName: string): (r: string)
    ensures |r| > 5 && r[..5] == "plan_"
    ensures ParsePlanFileName(r) == Some(PlanName(now, UploadExt(originalName)))
  {
    ParsePlanFileNameOfParts(Decimal(now), UploadExt(originalName));
    ParseDecimalOfDecimal(now);
    "plan_" + Decimal(now) + UploadExt(originalName)
  }

  /**
   * The response of the upload endpoint: the base URL, `/uploads/`, then a
   * name that parses back to the upload's timestamp and extension.
   */
  function UploadUrl(base: string, now: nat, originalName: string): (url: string)
    ensures |url| > |base| + 9 && url[..|base| + 9] == base + "/uploads/"
    ensures ParsePlanFileName(url[|base| + 9..]) == Some(PlanName(now, UploadExt(originalName)))
  {
    var name := PlanFileName(now, originalName);
    var url := base + "/uploads/" + name;
    assert url[|base| + 9..] == name;
    url
  }
}
