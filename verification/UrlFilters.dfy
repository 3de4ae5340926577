/**
 * The two tests that decide which URLs are JavaScript files:
 * src/gateway/is-cacheable.js and JSDOMSixteenResourceLoader.fetch. Both regular expressions are
 * literals evaluated on every call, so the `g` flag never carries a position from one call to the next.
 */
module UrlFilters {
  import opened Common
  import opened Regex

  /** The common part of both patterns. */
  const QUERY := Cat(Char('?'), Star(Dot))
  const EXTENSION := Cat(Literal(".js"), Optional(QUERY))
  const JS_FILE := Cat(Star(Dot), EXTENSION)

  /** The pattern of is-cacheable.js, anchored at both ends. */
  predicate CacheableByDefault(url: string) {
    Matches(JS_FILE, url)
  }

  /** The pattern of the resource loader, anchored only at the start. */
  predicate LoaderAccepts(url: string) {
    exists k :: 0 <= k <= |url| && Matches(JS_FILE, url[..k])
  }

  /** `overrideFn` may be absent, and may decline by returning a nullish value. */
  predicate IsCacheable(url: string, overrideFn: Option<string -> Option<bool>>) {
    var override := if overrideFn.Some? then overrideFn.value(url) else None;
    if override.Some? then override.value else CacheableByDefault(url)
  }

  ghost predicate ContainsAt(s: string, part: string, i: int) {
    0 <= i && i + |part| <= |s| && s[i..i + |part|] == part
  }

  ghost predicate Contains(s: string, part: string) {
    exists i :: ContainsAt(s, part, i)
  }

  ghost predicate EndsIn(s: string, part: string) {
    |part| <= |s| && s[|s| - |part|..] == part
  }

  ghost predicate IsQuery(t: string) {
    t != "" && t[0] == '?' && OneLine(t[1..])
  }

  ghost predicate IsExtension(t: string) {
    3 <= |t| && t[..3] == ".js" && (t[3..] == "" || IsQuery(t[3..]))
  }

  lemma MatchesQuery(t: string)
    ensures Matches(QUERY, t) <==> IsQuery(t)
  {
    if Matches(QUERY, t) {
      var n :| 0 <= n <= |t| && Matches(Char('?'), t[..n]) && Matches(Star(Dot), t[n..]);
      MatchesAnything(t[n..]);
    }
    if IsQuery(t) {
      MatchesAnything(t[1..]);
      assert t[..1] == "?";
    }
  }

  lemma MatchesExtension(t: string)
    ensures Matches(EXTENSION, t) <==> IsExtension(t)
  {
    if Matches(EXTENSION, t) {
      var m :| 0 <= m <= |t| && Matches(Literal(".js"), t[..m]) && Matches(Optional(QUERY), t[m..]);
      MatchesLiteral(".js", t[..m]);
      MatchesQuery(t[m..]);
    }
    if IsExtension(t) {
      MatchesLiteral(".js", t[..3]);
      MatchesQuery(t[3..]);
      assert Matches(Optional(QUERY), t[3..]);
    }
  }

  ghost predicate ExtensionFrom(url: string, k: int) {
    0 <= k <= |url| && OneLine(url[..k]) && IsExtension(url[k..])
  }

  lemma SplitsAtExtension(url: string)
    ensures CacheableByDefault(url) <==> exists k :: ExtensionFrom(url, k)
  {
    if CacheableByDefault(url) {
      var k :| 0 <= k <= |url| && Matches(Star(Dot), url[..k]) && Matches(EXTENSION, url[k..]);
      MatchesAnything(url[..k]);
      MatchesExtension(url[k..]);
      assert ExtensionFrom(url, k);
    }
    if k :| ExtensionFrom(url, k) {
      MatchesAnything(url[..k]);
      MatchesExtension(url[k..]);
    }
  }

  lemma ExtensionInWords(url: string, k: int)
    requires ExtensionFrom(url, k)
    ensures OneLine(url) && (EndsIn(url, ".js") || Contains(url, ".js?"))
  {
    var t := url[k..];
    assert url == url[..k] + t && t == ".js" + t[3..];
    if t[3..] == "" {
      assert t == url[|url| - 3..];
    } else {
      assert t[3..] == "?" + t[3..][1..];
      assert url[k..k + 4] == ".js?";
      assert ContainsAt(url, ".js?", k);
    }
  }

  lemma QueryFollows(url: string, k: int)
    requires OneLine(url) && ContainsAt(url, ".js?", k)
    ensures IsExtension(url[k..])
  {
    var t := url[k..];
    assert ".js?"[..3] == ".js" && ".js?"[3] == '?';
    assert t[..3] == url[k..k + 4][..3];
    assert t[3] == url[k..k + 4][3];
    assert OneLine(t[3..][1..]);
  }

  lemma WordsGiveExtension(url: string)
    requires OneLine(url) && (EndsIn(url, ".js") || Contains(url, ".js?"))
    ensures exists k :: ExtensionFrom(url, k)
  {
    if EndsIn(url, ".js") {
      assert ExtensionFrom(url, |url| - 3);
    } else {
      var k :| ContainsAt(url, ".js?", k);
      QueryFollows(url, k);
      assert ExtensionFrom(url, k);
    }
  }

  /** The default policy in plain words. */
  lemma CacheableByDefaultIff(url: string)
    ensures CacheableByDefault(url) <==> OneLine(url) && (EndsIn(url, ".js") || Contains(url, ".js?"))
  {
    SplitsAtExtension(url);
    if k :| ExtensionFrom(url, k) { ExtensionInWords(url, k); }
    if OneLine(url) && (EndsIn(url, ".js") || Contains(url, ".js?")) { WordsGiveExtension(url); }
  }

  lemma ExtensionOfPrefix(url: string, k: nat, i: int)
    requires k <= |url| && ExtensionFrom(url[..k], i)
    ensures ContainsAt(url, ".js", i) && OneLine(url[..i])
  {
    var prefix := url[..k];
    assert |prefix[i..]| == k - i >= 3;
    assert url[i..i + 3] == prefix[i..][..3];
    assert url[..i] == prefix[..i];
  }

  lemma PrefixWithExtension(url: string, i: int)
    requires ContainsAt(url, ".js", i) && OneLine(url[..i])
    ensures ExtensionFrom(url[..i + 3], i)
  {
    var prefix := url[..i + 3];
    assert prefix[..i] == url[..i];
    assert prefix[i..] == url[i..i + 3];
    assert prefix[i..][..3] == prefix[i..] && prefix[i..][3..] == "";
  }

  /** The loader's test in plain words: ".js" comes before any line terminator. */
  lemma LoaderAcceptsIff(url: string)
    ensures LoaderAccepts(url) <==> exists i :: ContainsAt(url, ".js", i) && OneLine(url[..i])
  {
    if LoaderAccepts(url) {
      var k :| 0 <= k <= |url| && Matches(JS_FILE, url[..k]);
      SplitsAtExtension(url[..k]);
      var i :| ExtensionFrom(url[..k], i);
      ExtensionOfPrefix(url, k, i);
    }
    if i :| ContainsAt(url, ".js", i) && OneLine(url[..i]) {
      PrefixWithExtension(url, i);
      SplitsAtExtension(url[..i + 3]);
      assert CacheableByDefault(url[..i + 3]);
    }
  }

  /** Whatever the default policy caches, an active loader fetches. */
  lemma CacheableIsFetched(url: string)
    requires IsCacheable(url, None)
    ensures LoaderAccepts(url)
  {
    assert url[..|url|] == url;
  }

  /** The converse fails: the loader's pattern also accepts what only contains ".js". */
  lemma FetchedNeedNotBeCacheable()
    ensures LoaderAccepts("a.json") && !IsCacheable("a.json", None)
  {
    var url := "a.json";
    assert url[1..4] == ".js" && ContainsAt(url, ".js", 1);
    LoaderAcceptsIff(url);
    CacheableByDefaultIff(url);
    assert url[|url| - 3..] == "son";
    forall i ensures !ContainsAt(url, ".js?", i) {
      assert 0 <= i && i + 4 <= |url| ==> url[i..i + 4][3] == url[i + 3];
    }
  }

  /** One pass over the URL. `matched` is how much of ".js" the text read so far ends in. */
  datatype Scan = Scan(matched: nat, query: bool, terminated: bool)

  const SCAN_START := Scan(0, false, false)

  function ScanNext(t: Scan, c: char): Scan {
    if t.terminated || IsTerminator(c) then t.(terminated := true)
    else if t.query || (t.matched == 3 && c == '?') then t.(query := true)
    else if c == '.' then t.(matched := 1)
    else if t.matched == 1 && c == 'j' then t.(matched := 2)
    else if t.matched == 2 && c == 's' then t.(matched := 3)
    else t.(matched := 0)
  }

  function ScanAll(s: string): Scan {
    if s == "" then SCAN_START else ScanNext(ScanAll(s[..|s| - 1]), s[|s| - 1])
  }

  predicate ScanCacheable(url: string) {
    var t := ScanAll(url);
    !t.terminated && (t.matched == 3 || t.query)
  }

  lemma ContainsBeforeLast(u: string, c: char)
    requires Contains(u + [c], ".js?")
    ensures Contains(u, ".js?") || (EndsIn(u, ".js") && c == '?')
  {
    var s := u + [c];
    var i :| ContainsAt(s, ".js?", i);
    if i + 4 <= |u| {
      assert u[i..i + 4] == s[i..i + 4];
      assert ContainsAt(u, ".js?", i);
    } else {
      assert i == |u| - 3;
      assert s[i..i + 4] == u[i..] + [c];
      assert ".js?" == ".js" + ['?'];
      assert u[i..] == (u[i..] + [c])[..3] && ".js" == (".js" + ['?'])[..3];
      assert c == (u[i..] + [c])[3];
    }
  }

  lemma ContainsSnoc(u: string, c: char)
    ensures Contains(u + [c], ".js?") <==> Contains(u, ".js?") || (EndsIn(u, ".js") && c == '?')
  {
    if Contains(u + [c], ".js?") { ContainsBeforeLast(u, c); }
    if i :| ContainsAt(u, ".js?", i) {
      assert (u + [c])[i..i + 4] == u[i..i + 4];
      assert ContainsAt(u + [c], ".js?", i);
    }
    if EndsIn(u, ".js") && c == '?' {
      var i := |u| - 3;
      assert (u + [c])[i..i + 4] == u[i..] + [c];
      assert ".js" + "?" == ".js?";
      assert ContainsAt(u + [c], ".js?", i);
    }
  }

  /** A text ends in `part` and one more character if and only if it is so without its last one. */
  lemma EndsInOneMore(u: string, c: char, part: string, last: char)
    ensures EndsIn(u + [c], part + [last]) <==> EndsIn(u, part) && c == last
  {
    var s, longer := u + [c], part + [last];
    if |part| <= |u| {
      assert s[|s| - |longer|..] == u[|u| - |part|..] + [c];
      assert longer[..|part|] == part && longer[|part|] == last;
      assert (u[|u| - |part|..] + [c])[..|part|] == u[|u| - |part|..];
      assert (u[|u| - |part|..] + [c])[|part|] == c;
    }
  }

  lemma EndsDiffer(u: string, part: string, other: string)
    requires part != "" && other != "" && part[|part| - 1] != other[|other| - 1]
    ensures !(EndsIn(u, part) && EndsIn(u, other))
  {
    if EndsIn(u, part) { assert u[|u| - 1] == u[|u| - |part|..][|part| - 1]; }
    if EndsIn(u, other) { assert u[|u| - 1] == u[|u| - |other|..][|other| - 1]; }
  }

  lemma EndsInDot(u: string, c: char)
    ensures EndsIn(u + [c], ".") <==> c == '.'
  {
    assert "" + ['.'] == ".";
    EndsInOneMore(u, c, "", '.');
  }

  lemma EndsInDotJ(u: string, c: char)
    ensures EndsIn(u + [c], ".j") <==> EndsIn(u, ".") && c == 'j'
  {
    assert "." + ['j'] == ".j";
    EndsInOneMore(u, c, ".", 'j');
  }

  lemma EndsInDotJs(u: string, c: char)
    ensures EndsIn(u + [c], ".js") <==> EndsIn(u, ".j") && c == 's'
  {
    assert ".j" + ['s'] == ".js";
    EndsInOneMore(u, c, ".j", 's');
  }

  lemma EndsInSnoc(u: string, c: char)
    ensures EndsIn(u + [c], ".") <==> c == '.'
    ensures EndsIn(u + [c], ".j") <==> EndsIn(u, ".") && c == 'j'
    ensures EndsIn(u + [c], ".js") <==> EndsIn(u, ".j") && c == 's'
    ensures !(EndsIn(u, ".") && EndsIn(u, ".j")) && !(EndsIn(u, ".") && EndsIn(u, ".js"))
    ensures !(EndsIn(u, ".j") && EndsIn(u, ".js"))
  {
    EndsInDot(u, c);
    EndsInDotJ(u, c);
    EndsInDotJs(u, c);
    EndsDiffer(u, ".", ".j");
    EndsDiffer(u, ".", ".js");
    EndsDiffer(u, ".j", ".js");
  }

  lemma {:induction false} ScanMeaning(s: string)
    ensures ScanAll(s).terminated <==> !OneLine(s)
    ensures OneLine(s) ==> (ScanAll(s).query <==> Contains(s, ".js?"))
    ensures OneLine(s) && !Contains(s, ".js?") ==>
              && (ScanAll(s).matched == 1 <==> EndsIn(s, "."))
              && (ScanAll(s).matched == 2 <==> EndsIn(s, ".j"))
              && (ScanAll(s).matched == 3 <==> EndsIn(s, ".js"))
    decreases |s|
  {
    if s == "" {
    } else {
      var u, c := s[..|s| - 1], s[|s| - 1];
      ScanMeaning(u);
      assert OneLine(s) <==> OneLine(u) && !IsTerminator(c);
      ContainsSnoc(u, c);
      EndsInSnoc(u, c);
      assert s == u + [c];
    }
  }

  /** The pattern agrees with one pass over the URL. */
  lemma ScanAgreesWithPattern(url: string)
    ensures CacheableByDefault(url) <==> ScanCacheable(url)
  {
    CacheableByDefaultIff(url);
    ScanMeaning(url);
  }

  /** The loader's test stops as soon as the text read so far would do. */
  predicate ScanAccepts(url: string) {
    ScanCacheable(url) || (url != "" && ScanAccepts(url[..|url| - 1]))
  }

  lemma {:induction false} LoaderScanAgreesWithPattern(url: string)
    ensures LoaderAccepts(url) <==> ScanAccepts(url)
    decreases |url|
  {
    ScanAgreesWithPattern(url);
    assert url[..|url|] == url;
    if url != "" {
      var u := url[..|url| - 1];
      LoaderScanAgreesWithPattern(u);
      assert forall k :: 0 <= k <= |u| ==> u[..k] == url[..k];
    }
  }
}
