/**
 * `getExportsFrom` of tools/build-flow-types.js: collecting file names with a regular expression
 * that is global to the module and carries its position from one `exec` to the next.
 *
 * The engine is a parameter: any one that finds the leftmost match. How much white space it puts into
 * a match is left open, since the names do not depend on it.
 */
module BuildFlowTypes {
  import opened Common
  import opened Regex

  /** What `[./\-\w]` stands for. */
  const FILE_CHARS := set c: char |
    c == '.' || c == '/' || c == '-' || c == '_' || 'a' <= c <= 'z' || 'A' <= c <= 'Z' || '0' <= c <= '9' :: c

  /** White space, as `\s` has it. */
  const SPACES := {' ', '\t', '\n', '\r', '\U{000B}', '\U{000C}', '\U{00A0}', '\U{FEFF}', '\U{1680}', '\U{2000}',
    '\U{2001}', '\U{2002}', '\U{2003}', '\U{2004}', '\U{2005}', '\U{2006}', '\U{2007}', '\U{2008}', '\U{2009}',
    '\U{200A}', '\U{2028}', '\U{2029}', '\U{202F}', '\U{205F}', '\U{3000}'}

  const FILE_NAME := Plus(Class(FILE_CHARS))
  const BLANK := Star(Class(SPACES))

  /** The body of `regexExtractFile`, between its anchors. */
  const EXTRACT_FILE := Chain(BLANK, Star(Dot), Char('"'), FILE_NAME, Literal("\","), BLANK)

  lemma ShortestLine()
    ensures MinLength(EXTRACT_FILE) == 4
  {
    assert MinLength(FILE_NAME) == 1;
    var quoteComma := Literal("\",");
    assert "\","[1..] == "," && ","[1..] == "";
    assert quoteComma == Cat(Char('"'), Literal(",")) && Literal(",") == Cat(Char(','), Literal(""));
    assert MinLength(quoteComma) == 2;
    var end := Cat(quoteComma, BLANK);
    assert MinLength(end) == 2;
    var name := Cat(FILE_NAME, end);
    assert MinLength(name) == 3;
    var quoted := Cat(Char('"'), name);
    assert MinLength(quoted) == 4;
    var line := Cat(Star(Dot), quoted);
    assert MinLength(line) == 4;
  }

  // ----- Matching -----

  /** Where `^` and `$` match in a text of several lines. */
  predicate LineStart(s: string, i: nat)
    requires i <= |s|
  {
    i == 0 || IsTerminator(s[i - 1])
  }

  predicate LineEnd(s: string, i: nat)
    requires i <= |s|
  {
    i == |s| || IsTerminator(s[i])
  }

  /** The parts that a match consists of, `name` being the captured one. */
  ghost predicate Groups(text: string, blank: string, line: string, name: string, rest: string) {
    && text == blank + line + "\"" + name + "\"," + rest
    && Matches(BLANK, blank) && Matches(Star(Dot), line) && Matches(FILE_NAME, name) && Matches(BLANK, rest)
  }

  ghost predicate Captures(text: string, name: string) {
    exists blank, line, rest :: Groups(text, blank, line, name, rest)
  }

  /** The expression with its anchors. */
  ghost predicate IsMatch(s: string, i: nat, j: nat) {
    i <= j <= |s| && LineStart(s, i) && LineEnd(s, j) && Matches(EXTRACT_FILE, s[i..j])
  }

  datatype Hit = Hit(start: nat, end: nat, capture: Option<string>)

  /** What an engine finds in a text, at or after a position. */
  type Finder = (string, nat) -> Option<Hit>

  ghost predicate NoMatch(s: string, from: nat, to: nat) {
    forall i: nat, j: nat :: from <= i < to ==> !IsMatch(s, i, j)
  }

  /** A hit is the leftmost match, with what its group matched. */
  ghost predicate IsHit(s: string, from: nat, hit: Hit) {
    && from <= hit.start && IsMatch(s, hit.start, hit.end) && NoMatch(s, from, hit.start)
    && hit.capture.Some? && Captures(s[hit.start..hit.end], hit.capture.value)
  }

  /** The engine misses nothing and makes nothing up. */
  ghost predicate Finds(find: Finder) {
    forall s: string, from: nat :: from <= |s| ==>
      match find(s, from)
      case None => NoMatch(s, from, |s| + 1)
      case Some(hit) => IsHit(s, from, hit)
  }

  lemma Regroup(blank: string, line: string, name: string, rest: string)
    ensures blank + (line + ("\"" + (name + ("\"," + rest)))) == blank + line + "\"" + name + "\"," + rest
  {
  }

  /** The parts make a match. */
  lemma GroupsMatch(text: string, blank: string, line: string, name: string, rest: string)
    requires Groups(text, blank, line, name, rest)
    ensures Matches(EXTRACT_FILE, text)
  {
    MatchesLiteral("\",", "\",");
    MatchesChain(BLANK, Star(Dot), Char('"'), FILE_NAME, Literal("\","), BLANK, blank, line, "\"", name, "\",", rest);
    Regroup(blank, line, name, rest);
  }

  /** Every match has such parts. */
  lemma MatchHasGroups(text: string)
    requires Matches(EXTRACT_FILE, text)
    ensures exists name :: Captures(text, name)
  {
    var blank, line, quote, name, comma, rest :=
      PartsOfChain(BLANK, Star(Dot), Char('"'), FILE_NAME, Literal("\","), BLANK, text);
    MatchesLiteral("\",", comma);
    Regroup(blank, line, name, rest);
    assert quote == "\"";
    assert Groups(text, blank, line, name, rest);
    assert Captures(text, name);
  }

  lemma NoHitNoMatch(s: string, from: nat)
    requires from <= |s| && !exists hit :: IsHit(s, from, hit) && hit.start == from
    ensures NoMatch(s, from, from + 1)
  {
    if j: nat :| IsMatch(s, from, j) {
      MatchHasGroups(s[from..j]);
      var name :| Captures(s[from..j], name);
      assert IsHit(s, from, Hit(from, j, Some(name)));
    }
  }

  /** An engine of this kind, to show that there is one. */
  ghost function Search(s: string, from: nat): (r: Option<Hit>)
    requires from <= |s|
    ensures r.None? ==> NoMatch(s, from, |s| + 1)
    ensures r.Some? ==> IsHit(s, from, r.value)
    decreases |s| - from
  {
    if hit :| IsHit(s, from, hit) && hit.start == from then Some(hit)
    else
      NoHitNoMatch(s, from);
      if from == |s| then None else Search(s, from + 1)
  }

  lemma SomeEngineFinds()
    ensures exists find: Finder :: Finds(find)
  {
    ghost var find: Finder := (s: string, from: nat) => if from <= |s| then Search(s, from) else None;
    assert Finds(find);
  }

  // ----- Lines -----

  /** The end of the line that a position is in. */
  function EndOfLine(s: string, i: nat): (j: nat)
    requires i <= |s|
    ensures i <= j <= |s| && LineEnd(s, j)
    ensures forall k :: i <= k < j ==> !IsTerminator(s[k])
    decreases |s| - i
  {
    if LineEnd(s, i) then i else EndOfLine(s, i + 1)
  }

  /** And its start. */
  function StartOfLine(s: string, i: nat): (j: nat)
    requires i <= |s|
    ensures j <= i && LineStart(s, j)
    ensures forall k :: j <= k < i ==> !IsTerminator(s[k])
  {
    if LineStart(s, i) then i else StartOfLine(s, i - 1)
  }

  function TrimEnd(t: string): string {
    if t != "" && t[|t| - 1] in SPACES then TrimEnd(t[..|t| - 1]) else t
  }

  /** How many characters at the end of a text can be part of a file name. */
  function NameLength(t: string): (n: nat)
    ensures n <= |t|
  {
    if t != "" && t[|t| - 1] in FILE_CHARS then 1 + NameLength(t[..|t| - 1]) else 0
  }

  /** The name that a line lists: it is the last thing in the line, in quotes and with a comma. */
  function NameIn(line: string): Option<string> {
    var t := TrimEnd(line);
    if |t| >= 2 && t[|t| - 2..] == "\"," then
      var u := t[..|t| - 2];
      var n := NameLength(u);
      if 0 < n < |u| && u[|u| - n - 1] == '"' then Some(u[|u| - n..]) else None
    else None
  }

  predicate IsListing(s: string, i: nat)
    requires i <= |s|
  {
    LineStart(s, i) && NameIn(s[i..EndOfLine(s, i)]).Some?
  }

  /** What the line that starts at a position lists, if one does and if it does. */
  function ListedAt(s: string, i: nat): seq<string> {
    if i <= |s| && IsListing(s, i) then [NameIn(s[i..EndOfLine(s, i)]).value] else []
  }

  function NamesAt(s: string): nat -> seq<string> { (i: nat) => ListedAt(s, i) }

  /** What `at` gives for the numbers from `from` up to `to`, one after the other. */
  function Gather(at: nat -> seq<string>, from: nat, to: nat): seq<string>
    decreases to - from
  {
    if from >= to then [] else at(from) + Gather(at, from + 1, to)
  }

  lemma {:induction false} GatherSkips(at: nat -> seq<string>, from: nat, mid: nat, to: nat)
    requires from <= mid <= to && forall i: nat :: from <= i < mid ==> at(i) == []
    ensures Gather(at, from, to) == Gather(at, mid, to)
    decreases mid - from
  {
    if from < mid { GatherSkips(at, from + 1, mid, to); }
  }

  /** The names listed by the lines that start at or after a position, one line after the other. */
  function Listed(s: string, from: nat): seq<string> { Gather(NamesAt(s), from, |s| + 1) }

  lemma {:induction false} TrimEndIs(t: string, rest: string)
    requires t != "" && t[|t| - 1] !in SPACES && AllIn(rest, SPACES)
    ensures TrimEnd(t + rest) == t
    decreases |rest|
  {
    if rest == "" {
      assert t + rest == t;
    } else {
      var shorter := rest[..|rest| - 1];
      assert (t + rest)[..|t + rest| - 1] == t + shorter;
      TrimEndIs(t, shorter);
    }
  }

  lemma {:induction false} TrimEndLeaves(t: string)
    ensures TrimEnd(t) <= t && AllIn(t[|TrimEnd(t)|..], SPACES)
  {
    if t != "" && t[|t| - 1] in SPACES {
      var u := t[..|t| - 1];
      TrimEndLeaves(u);
      forall i | |TrimEnd(u)| <= i < |t| ensures t[i] in SPACES {
        if i < |u| { assert u[|TrimEnd(u)|..][i - |TrimEnd(u)|] == t[i]; }
      }
    }
  }

  lemma {:induction false} NameLengthIs(t: string, name: string)
    requires t != "" && t[|t| - 1] !in FILE_CHARS && AllIn(name, FILE_CHARS)
    ensures NameLength(t + name) == |name|
    decreases |name|
  {
    if name == "" {
      assert t + name == t;
    } else {
      var shorter := name[..|name| - 1];
      assert (t + name)[..|t + name| - 1] == t + shorter;
      NameLengthIs(t, shorter);
    }
  }

  lemma {:induction false} NameLengthMeans(t: string)
    ensures AllIn(t[|t| - NameLength(t)..], FILE_CHARS)
  {
    if t != "" && t[|t| - 1] in FILE_CHARS {
      var u := t[..|t| - 1];
      NameLengthMeans(u);
      var n := NameLength(u);
      assert t[|t| - NameLength(t)..] == u[|u| - n..] + [t[|t| - 1]];
    }
  }

  /** A text that ends in a quoted name, a comma and white space lists that name, and no other. */
  lemma NameInIs(line: string, name: string, rest: string)
    requires name != "" && AllIn(name, FILE_CHARS) && AllIn(rest, SPACES)
    ensures NameIn(line + "\"" + name + "\"," + rest) == Some(name)
  {
    var u := line + "\"" + name;
    var t := u + "\",";
    assert t[|t| - 1] == ',';
    TrimEndIs(t, rest);
    assert t[|t| - 2..] == "\"," && t[..|t| - 2] == u;
    assert (line + "\"")[|line|] == '"';
    NameLengthIs(line + "\"", name);
    assert u[|u| - |name| - 1] == '"' && u[|u| - |name|..] == name;
  }

  /** And a text that lists a name is of that form. */
  lemma NameInMeans(text: string) returns (line: string, rest: string)
    requires NameIn(text).Some?
    ensures var name := NameIn(text).value;
            && name != "" && AllIn(name, FILE_CHARS) && AllIn(rest, SPACES)
            && text == line + "\"" + name + "\"," + rest
  {
    var t := TrimEnd(text);
    TrimEndLeaves(text);
    var u := t[..|t| - 2];
    var n := NameLength(u);
    NameLengthMeans(u);
    line, rest := u[..|u| - n - 1], text[|t|..];
    assert u == line + "\"" + u[|u| - n..];
    assert t == u + "\",";
  }

  /** A line that lists a name is matched. */
  lemma ListingMatches(s: string, i: nat)
    requires i <= |s| && IsListing(s, i)
    ensures IsMatch(s, i, EndOfLine(s, i))
  {
    var text := s[i..EndOfLine(s, i)];
    var line, rest := NameInMeans(text);
    var name := NameIn(text).value;
    MatchesClasses(SPACES, "");
    MatchesClasses(SPACES, rest);
    MatchesSomeClasses(FILE_CHARS, name);
    forall k | 0 <= k < |line| ensures !IsTerminator(line[k]) { assert line[k] == text[k] == s[i + k]; }
    MatchesAnything(line);
    assert text == "" + line + "\"" + name + "\"," + rest;
    GroupsMatch(text, "", line, name, rest);
  }

  lemma ListedIsQuoted(text: string) returns (k: nat)
    requires NameIn(text).Some?
    ensures k < |text| && text[k] !in SPACES
  {
    var line, rest := NameInMeans(text);
    k := |line|;
    assert text[k] == '"';
  }

  /** Lines of white space list nothing. */
  lemma BlankListsNothing(s: string, from: nat, to: nat, i: nat)
    requires from <= i < to <= |s| && AllIn(s[from..to], SPACES)
    requires LineEnd(s, to) || LineStart(s, to)
    ensures !IsListing(s, i)
  {
    var e := EndOfLine(s, i);
    assert e <= to;
    forall k | i <= k < e ensures s[k] in SPACES { assert s[k] == s[from..to][k - from]; }
    if NameIn(s[i..e]).Some? { var k := ListedIsQuoted(s[i..e]); }
  }

  // ----- What a hit says about the lines -----

  lemma ThreeSlices(s: string, a: nat, b: nat, c: nat, d: nat)
    requires a <= b <= c <= d <= |s|
    ensures s[a..d] == s[a..b] + s[b..c] + s[c..d]
  {
  }

  /** The line that a position is in lists what is quoted at that position, when only white space follows. */
  lemma QuotedIsListed(s: string, quote: nat, name: string, end: nat, to: nat) returns (p: nat)
    requires name != "" && AllIn(name, FILE_CHARS)
    requires end == quote + |name| + 3 && end <= to <= |s| && LineEnd(s, to)
    requires s[quote..end] == "\"" + name + "\"," && AllIn(s[end..to], SPACES)
    ensures p == StartOfLine(s, quote) && end <= EndOfLine(s, p) <= to
    ensures NameIn(s[p..EndOfLine(s, p)]) == Some(name) && AllIn(s[EndOfLine(s, p)..to], SPACES)
  {
    p := StartOfLine(s, quote);
    forall k | quote <= k < end ensures !IsTerminator(s[k]) {
      assert s[k] == ("\"" + name + "\",")[k - quote];
    }
    var e := EndOfLine(s, p);
    assert end <= e <= to;
    ThreeSlices(s, p, quote, end, e);
    assert s[p..e] == s[p..quote] + "\"" + name + "\"," + s[end..e];
    forall k | end <= k < to ensures s[k] in SPACES { assert s[k] == s[end..to][k - end]; }
    NameInIs(s[p..quote], name, s[end..e]);
  }

  /** Before the part of a line that is in a hit there is only white space. */
  lemma LineInHit(s: string, from: nat, lineAt: nat, quote: nat)
    requires from <= lineAt <= quote <= |s| && LineStart(s, from)
    requires AllIn(s[from..lineAt], SPACES) && OneLine(s[lineAt..quote])
    ensures from <= StartOfLine(s, quote) <= lineAt && AllIn(s[from..StartOfLine(s, quote)], SPACES)
  {
    var p := StartOfLine(s, quote);
    assert forall k :: lineAt <= k < quote ==> s[k] == s[lineAt..quote][k - lineAt];
    assert s[from..p] == s[from..lineAt][..p - from];
  }

  lemma SliceOf(s: string, at: nat, text: string, left: string, right: string)
    requires at + |text| <= |s| && s[at..at + |text|] == text && text == left + right
    ensures s[at..at + |left|] == left && s[at + |left|..at + |text|] == right
  {
    assert s[at..at + |left|] == text[..|left|];
    assert s[at + |left|..at + |text|] == text[|left|..];
  }

  /** Where the parts of a match are in the text. */
  lemma Slices(s: string, from: nat, to: nat, blank: string, line: string, name: string, rest: string)
    requires from <= to <= |s| && s[from..to] == blank + line + "\"" + name + "\"," + rest
    ensures var lineAt := from + |blank|;
            var quote := lineAt + |line|;
            var end := quote + |name| + 3;
            && end <= to
            && s[from..lineAt] == blank && s[lineAt..quote] == line
            && s[quote..end] == "\"" + name + "\"," && s[end..to] == rest
  {
    var quoted := "\"" + name + "\",";
    var tail := quoted + rest;
    assert |quoted| == |name| + 3;
    assert blank + line + "\"" + name + "\"," + rest == blank + (line + tail);
    SliceOf(s, from, s[from..to], blank, line + tail);
    SliceOf(s, from + |blank|, line + tail, line, tail);
    SliceOf(s, from + |blank| + |line|, tail, quoted, rest);
  }

  lemma HitLine(s: string, hit: Hit, blank: string, line: string, name: string, rest: string) returns (p: nat)
    requires hit.start <= hit.end <= |s| && LineStart(s, hit.start) && LineEnd(s, hit.end)
    requires s[hit.start..hit.end] == blank + line + "\"" + name + "\"," + rest
    requires AllIn(blank, SPACES) && OneLine(line) && name != "" && AllIn(name, FILE_CHARS) && AllIn(rest, SPACES)
    ensures hit.start <= p <= |s| && p < EndOfLine(s, p) <= hit.end && IsListing(s, p)
    ensures NameIn(s[p..EndOfLine(s, p)]) == Some(name)
    ensures AllIn(s[hit.start..p], SPACES) && AllIn(s[EndOfLine(s, p)..hit.end], SPACES)
  {
    var lineAt := hit.start + |blank|;
    var quote := lineAt + |line|;
    var end := quote + |name| + 3;
    Slices(s, hit.start, hit.end, blank, line, name, rest);
    LineInHit(s, hit.start, lineAt, quote);
    p := QuotedIsListed(s, quote, name, end, hit.end);
  }

  /** A hit is one line that lists a name, with blank lines around it. */
  lemma HitIsListing(s: string, from: nat, hit: Hit) returns (p: nat)
    requires from <= |s| && IsHit(s, from, hit)
    ensures hit.start <= p <= |s| && p < EndOfLine(s, p) <= hit.end && IsListing(s, p)
    ensures hit.capture == NameIn(s[p..EndOfLine(s, p)])
    ensures AllIn(s[hit.start..p], SPACES) && AllIn(s[EndOfLine(s, p)..hit.end], SPACES)
  {
    var text, name := s[hit.start..hit.end], hit.capture.value;
    var blank, line, rest :| Groups(text, blank, line, name, rest);
    MatchesClasses(SPACES, blank);
    MatchesClasses(SPACES, rest);
    MatchesSomeClasses(FILE_CHARS, name);
    MatchesAnything(line);
    p := HitLine(s, hit, blank, line, name, rest);
  }

  lemma NothingListed(s: string, from: nat, to: nat)
    requires from <= to <= |s| + 1 && forall i: nat :: from <= i < to ==> i <= |s| && !IsListing(s, i)
    ensures Listed(s, from) == Listed(s, to)
  {
    forall i: nat | from <= i < to ensures NamesAt(s)(i) == [] { assert !IsListing(s, i); }
    GatherSkips(NamesAt(s), from, to, |s| + 1);
  }

  lemma OneListed(s: string, p: nat)
    requires p <= |s| && IsListing(s, p)
    ensures Listed(s, p) == [NameIn(s[p..EndOfLine(s, p)]).value] + Listed(s, p + 1)
  {
    assert NamesAt(s)(p) == [NameIn(s[p..EndOfLine(s, p)]).value];
  }

  /** Up to the end of a hit, exactly its own line lists anything. */
  lemma HitListsOne(s: string, from: nat, hit: Hit)
    requires from <= |s| && IsHit(s, from, hit)
    ensures Listed(s, from) == [hit.capture.value] + Listed(s, hit.end)
  {
    var p := HitIsListing(s, from, hit);
    var e := EndOfLine(s, p);
    forall i | from <= i < p ensures !IsListing(s, i) {
      if i < hit.start {
        if IsListing(s, i) { ListingMatches(s, i); }
      } else {
        BlankListsNothing(s, hit.start, p, i);
      }
    }
    NothingListed(s, from, p);
    forall i | p < i < hit.end ensures !IsListing(s, i) {
      if i > e { BlankListsNothing(s, e, hit.end, i); }
    }
    NothingListed(s, p + 1, hit.end);
    OneListed(s, p);
  }

  // ----- All matches -----

  lemma HitsAreNotEmpty(find: Finder, s: string, from: nat)
    requires Finds(find) && from <= |s| && find(s, from).Some?
    ensures var hit := find(s, from).value;
            from <= hit.start && hit.start + 4 <= hit.end <= |s|
  {
    var hit := find(s, from).value;
    ShortestLine();
    MatchesAtLeastMinLength(EXTRACT_FILE, s[hit.start..hit.end]);
  }

  /** Every match from a position on, each found after the one before it. */
  function AllHits(find: Finder, s: string, from: nat): seq<Hit>
    requires Finds(find) && from <= |s|
    decreases |s| - from
  {
    match find(s, from)
    case None => []
    case Some(hit) =>
      HitsAreNotEmpty(find, s, from);
      [hit] + AllHits(find, s, hit.end)
  }

  /** What the matches captured. */
  function Names(hits: seq<Hit>): seq<string> {
    if hits == [] then [] else (if hits[0].capture.Some? then [hits[0].capture.value] else []) + Names(hits[1..])
  }

  /** The matches do not overlap, come in order, and leave no position where a later search starts earlier. */
  lemma {:induction false} HitsAreInOrder(find: Finder, s: string, from: nat)
    requires Finds(find) && from <= |s|
    ensures var hits := AllHits(find, s, from);
            && (forall i :: 0 <= i < |hits| ==> from <= hits[i].start && hits[i].start + 4 <= hits[i].end <= |s|)
            && (forall i, j :: 0 <= i < j < |hits| ==> hits[i].end <= hits[j].start)
            && 4 * |hits| <= |s| - from
            && find(s, if hits == [] then from else hits[|hits| - 1].end).None?
    decreases |s| - from
  {
    match find(s, from) {
      case None =>
      case Some(hit) =>
        HitsAreNotEmpty(find, s, from);
        HitsAreInOrder(find, s, hit.end);
        var hits, rest := AllHits(find, s, from), AllHits(find, s, hit.end);
        assert forall i :: 0 < i < |hits| ==> hits[i] == rest[i - 1];
    }
  }

  /** A regular expression object with the `g` flag. */
  class GlobalRegex {
    const find: Finder
    var lastIndex: nat

    constructor (find: Finder)
      ensures this.find == find && lastIndex == 0
    {
      this.find := find;
      lastIndex := 0;
    }

    /** RegExpBuiltinExec (ECMA-262, 6th edition, section 21.2.5.2.2) for a global expression. */
    method Exec(s: string) returns (r: Option<Hit>)
      modifies this
      ensures lastIndex == if r.Some? then r.value.end else 0
      ensures r == if old(lastIndex) <= |s| then find(s, old(lastIndex)) else None
    {
      r := if lastIndex <= |s| then find(s, lastIndex) else None;
      lastIndex := if r.Some? then r.value.end else 0;
    }
  }

  /** The file as read, or what reading it threw; `block` is what the first expression captures, if it matches. */
  datatype Source = Unreadable(error: string) | Readable(block: Option<string>)

  /** What is exported, as a function of the file alone. */
  function ExportsOf(find: Finder, baseName: string, source: Source): Outcome<seq<string>, string>
    requires Finds(find)
  {
    match source
    case Unreadable(error) => Threw(error)
    case Readable(None) => Returned([baseName])
    case Readable(Some(block)) => Returned([baseName] + Names(AllHits(find, block, 0)))
  }

  lemma CapturesStep(hit: Hit, rest: seq<Hit>)
    ensures Names([hit] + rest) == (if hit.capture.Some? then [hit.capture.value] else []) + Names(rest)
  {
    assert ([hit] + rest)[0] == hit && ([hit] + rest)[1..] == rest;
  }

  /** One turn of the loop: the next match, and its name if it captured one. */
  method ExecAndPush(regex: GlobalRegex, block: string, files: seq<string>) returns (found: bool, more: seq<string>)
    requires Finds(regex.find) && regex.lastIndex <= |block|
    modifies regex
    ensures found ==> old(regex.lastIndex) < regex.lastIndex <= |block|
    ensures !found ==> regex.lastIndex == 0
    ensures files + Names(AllHits(regex.find, block, old(regex.lastIndex)))
         == more + if found then Names(AllHits(regex.find, block, regex.lastIndex)) else []
  {
    ghost var from := regex.lastIndex;
    var hit := regex.Exec(block);
    found, more := hit.Some?, files;
    if hit.Some? {
      HitsAreNotEmpty(regex.find, block, from);
      ghost var rest := AllHits(regex.find, block, hit.value.end);
      CapturesStep(hit.value, rest);
      assert AllHits(regex.find, block, from) == [hit.value] + rest;
      if hit.value.capture.Some? { more := files + [hit.value.capture.value]; }
    }
  }

  method GetExportsFrom(regex: GlobalRegex, baseName: string, source: Source)
    returns (r: Outcome<seq<string>, string>)
    requires Finds(regex.find) && regex.lastIndex == 0
    modifies regex
    ensures regex.lastIndex == 0
    ensures r == ExportsOf(regex.find, baseName, source)
  {
    var files := [baseName];
    match source {
      case Unreadable(error) => return Threw(error);
      case Readable(None) =>
      case Readable(Some(block)) =>
        ghost var exports := files + Names(AllHits(regex.find, block, 0));
        var found := true;
        while found
          invariant regex.lastIndex <= |block|
          invariant found ==> files + Names(AllHits(regex.find, block, regex.lastIndex)) == exports
          invariant !found ==> files == exports && regex.lastIndex == 0
          decreases found, |block| - regex.lastIndex
        {
          found, files := ExecAndPush(regex, block, files);
        }
    }
    return Returned(files);
  }

  /** What the matches captured is what the lines list, from the same position on. */
  lemma {:induction false} NamesAreListed(find: Finder, s: string, from: nat)
    requires Finds(find) && from <= |s|
    ensures Names(AllHits(find, s, from)) == Listed(s, from)
    decreases |s| - from
  {
    match find(s, from) {
      case None =>
        forall i | from <= i <= |s| ensures !IsListing(s, i) {
          if IsListing(s, i) { ListingMatches(s, i); }
        }
        NothingListed(s, from, |s| + 1);
      case Some(hit) =>
        HitsAreNotEmpty(find, s, from);
        NamesAreListed(find, s, hit.end);
        HitListsOne(s, from, hit);
        CapturesStep(hit, AllHits(find, s, hit.end));
    }
  }

  /**
   * With any engine: a file with a block exports its own name, and then the name that each line of the
   * block lists, in order and missing none.
   */
  lemma ExportsAreListed(find: Finder, baseName: string, block: string)
    requires Finds(find)
    ensures ExportsOf(find, baseName, Readable(Some(block))) == Returned([baseName] + Listed(block, 0))
  {
    NamesAreListed(find, block, 0);
  }

  /** A file without a block exports exactly its own name, and one that cannot be read fails. */
  lemma ExportsWithoutBlock(find: Finder, baseName: string, error: string)
    requires Finds(find)
    ensures ExportsOf(find, baseName, Readable(None)) == Returned([baseName])
    ensures ExportsOf(find, baseName, Unreadable(error)) == Threw(error)
  {
  }

  /** A block of one line: anything, a quoted name of letters, digits and four other characters, a comma and blanks. */
  lemma OneLineIsListed(line: string, name: string, rest: string)
    requires OneLine(line) && OneLine(rest) && AllIn(rest, SPACES) && name != ""
    requires forall i :: 0 <= i < |name| ==>
               var c := name[i];
               'a' <= c <= 'z' || 'A' <= c <= 'Z' || '0' <= c <= '9' || c == '_' || c == '.' || c == '/' || c == '-'
    ensures Listed(line + "\"" + name + "\"," + rest, 0) == [name]
  {
    var text := line + "\"" + name + "\"," + rest;
    NameInIs(line, name, rest);
    var e := EndOfLine(text, 0);
    forall k | 0 <= k < |text| ensures !IsTerminator(text[k]) {
      if k < |line| { assert text[k] == line[k]; }
      else if |line| < k <= |line| + |name| { assert text[k] == name[k - |line| - 1]; }
      else if k >= |line| + |name| + 3 { assert text[k] == rest[k - |line| - |name| - 3]; }
      else { assert text[k] == '"' || text[k] == ','; }
    }
    assert e == |text| && text[0..|text|] == text;
    OneListed(text, 0);
    NothingListed(text, 1, |text| + 1);
  }

  /** One expression for many files: each result is what the file alone gives, whatever came before it. */
  method ExportsOfAll(regex: GlobalRegex, files: seq<(string, Source)>)
      returns (results: seq<Outcome<seq<string>, string>>)
    requires Finds(regex.find) && regex.lastIndex == 0
    modifies regex
    ensures |results| == |files| && forall i :: 0 <= i < |files| ==>
        results[i] == ExportsOf(regex.find, files[i].0, files[i].1)
    ensures regex.lastIndex == 0
  {
    results := [];
    for i := 0 to |files|
      invariant |results| == i && forall j :: 0 <= j < i ==> results[j] == ExportsOf(regex.find, files[j].0, files[j].1)
      invariant regex.lastIndex == 0
    {
      var r := GetExportsFrom(regex, files[i].0, files[i].1);
      results := results + [r];
    }
  }
}
