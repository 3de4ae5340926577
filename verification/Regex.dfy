/** The part of regular expressions that the repository's patterns use, by what they match. */
module Regex {

  datatype Regex =
    | Empty
    | Char(c: char)
    | Dot
    | Class(chars: set<char>)
    | Cat(first: Regex, second: Regex)
    | Star(body: Regex)
    | Optional(body: Regex)

  /** What `.` does not match: the line terminators of ECMA-262. */
  predicate IsTerminator(c: char) {
    c == '\n' || c == '\r' || c == '\U{2028}' || c == '\U{2029}'
  }

  /** The whole of `s` is in the language of `r`. */
  predicate Matches(r: Regex, s: string)
    decreases r, |s|
  {
    match r
    case Empty => s == ""
    case Char(c) => s == [c]
    case Dot => |s| == 1 && !IsTerminator(s[0])
    case Class(chars) => |s| == 1 && s[0] in chars
    case Cat(first, second) => exists k :: 0 <= k <= |s| && Matches(first, s[..k]) && Matches(second, s[k..])
    case Star(body) => s == "" || exists k :: 0 < k <= |s| && Matches(body, s[..k]) && Matches(r, s[k..])
    case Optional(body) => s == "" || Matches(body, s)
  }

  function Literal(s: string): Regex {
    if s == "" then Empty else Cat(Char(s[0]), Literal(s[1..]))
  }

  function Plus(body: Regex): Regex { Cat(body, Star(body)) }

  /** The length of the shortest match. */
  function MinLength(r: Regex): nat {
    match r
    case Empty => 0
    case Char(_) => 1
    case Dot => 1
    case Class(_) => 1
    case Cat(first, second) => MinLength(first) + MinLength(second)
    case Star(_) => 0
    case Optional(_) => 0
  }

  lemma {:induction false} MatchesAtLeastMinLength(r: Regex, s: string)
    requires Matches(r, s)
    ensures |s| >= MinLength(r)
  {
    if r.Cat? {
      var k :| 0 <= k <= |s| && Matches(r.first, s[..k]) && Matches(r.second, s[k..]);
      MatchesAtLeastMinLength(r.first, s[..k]);
      MatchesAtLeastMinLength(r.second, s[k..]);
    }
  }

  /** One way to match two expressions after each other. */
  lemma MatchesCat(first: Regex, second: Regex, s: string, t: string)
    requires Matches(first, s) && Matches(second, t)
    ensures Matches(Cat(first, second), s + t)
  {
    assert (s + t)[..|s|] == s && (s + t)[|s|..] == t;
  }

  lemma PartsOfCat(first: Regex, second: Regex, s: string) returns (t: string, u: string)
    requires Matches(Cat(first, second), s)
    ensures s == t + u && Matches(first, t) && Matches(second, u)
  {
    var k :| 0 <= k <= |s| && Matches(first, s[..k]) && Matches(second, s[k..]);
    t, u := s[..k], s[k..];
  }

  lemma {:induction false} MatchesLiteral(p: string, s: string)
    ensures Matches(Literal(p), s) <==> s == p
  {
    if p != "" {
      if Matches(Literal(p), s) {
        var first, rest := PartsOfCat(Char(p[0]), Literal(p[1..]), s);
        MatchesLiteral(p[1..], rest);
        assert p == [p[0]] + p[1..];
      }
      if s == p {
        MatchesLiteral(p[1..], s[1..]);
        assert s == [p[0]] + s[1..];
        MatchesCat(Char(p[0]), Literal(p[1..]), [p[0]], s[1..]);
      }
    }
  }

  lemma MatchesMore(body: Regex, s: string, k: nat)
    requires 0 < k <= |s| && Matches(body, s[..k]) && Matches(Star(body), s[k..])
    ensures Matches(Star(body), s)
  {
  }

  ghost predicate OneLine(s: string) {
    forall i :: 0 <= i < |s| ==> !IsTerminator(s[i])
  }

  lemma {:induction false} MatchesAnything(s: string)
    ensures Matches(Star(Dot), s) <==> OneLine(s)
    decreases |s|
  {
    if s != "" {
      MatchesAnything(s[1..]);
      if Matches(Star(Dot), s) {
        var k :| 0 < k <= |s| && Matches(Dot, s[..k]) && Matches(Star(Dot), s[k..]);
        assert k == 1 && s == [s[0]] + s[1..];
      }
      if OneLine(s) && OneLine(s[1..]) {
        MatchesMore(Dot, s, 1);
      }
    }
  }

  ghost predicate AllIn(s: string, chars: set<char>) {
    forall i :: 0 <= i < |s| ==> s[i] in chars
  }

  lemma {:induction false} MatchesClasses(chars: set<char>, s: string)
    ensures Matches(Star(Class(chars)), s) <==> AllIn(s, chars)
    decreases |s|
  {
    if s != "" {
      MatchesClasses(chars, s[1..]);
      if Matches(Star(Class(chars)), s) {
        var k :| 0 < k <= |s| && Matches(Class(chars), s[..k]) && Matches(Star(Class(chars)), s[k..]);
        assert k == 1 && s == [s[0]] + s[1..];
      }
      if AllIn(s, chars) {
        assert AllIn(s[1..], chars);
        MatchesMore(Class(chars), s, 1);
      }
    }
  }

  lemma MatchesSomeClasses(chars: set<char>, s: string)
    ensures Matches(Plus(Class(chars)), s) <==> s != "" && AllIn(s, chars)
  {
    if Matches(Plus(Class(chars)), s) {
      var k :| 0 <= k <= |s| && Matches(Class(chars), s[..k]) && Matches(Star(Class(chars)), s[k..]);
      MatchesClasses(chars, s[k..]);
      assert s == [s[0]] + s[1..];
    }
    if s != "" && AllIn(s, chars) {
      MatchesClasses(chars, s[1..]);
      assert Matches(Class(chars), s[..1]);
    }
  }

  /** Six expressions one after the other. */
  function Chain(a: Regex, b: Regex, c: Regex, d: Regex, e: Regex, f: Regex): Regex {
    Cat(a, Cat(b, Cat(c, Cat(d, Cat(e, f)))))
  }

  lemma MatchesChain(
    a: Regex, b: Regex, c: Regex, d: Regex, e: Regex, f: Regex,
    s: string, t: string, u: string, v: string, w: string, x: string
  )
    requires Matches(a, s) && Matches(b, t) && Matches(c, u) && Matches(d, v) && Matches(e, w) && Matches(f, x)
    ensures Matches(Chain(a, b, c, d, e, f), s + (t + (u + (v + (w + x)))))
  {
    MatchesCat(e, f, w, x);
    MatchesCat(d, Cat(e, f), v, w + x);
    MatchesCat(c, Cat(d, Cat(e, f)), u, v + (w + x));
    MatchesCat(b, Cat(c, Cat(d, Cat(e, f))), t, u + (v + (w + x)));
    MatchesCat(a, Cat(b, Cat(c, Cat(d, Cat(e, f)))), s, t + (u + (v + (w + x))));
  }

  lemma PartsOfChain(a: Regex, b: Regex, c: Regex, d: Regex, e: Regex, f: Regex, text: string)
    returns (s: string, t: string, u: string, v: string, w: string, x: string)
    requires Matches(Chain(a, b, c, d, e, f), text)
    ensures text == s + (t + (u + (v + (w + x))))
    ensures Matches(a, s) && Matches(b, t) && Matches(c, u) && Matches(d, v) && Matches(e, w) && Matches(f, x)
  {
    var rest;
    s, rest := PartsOfCat(a, Cat(b, Cat(c, Cat(d, Cat(e, f)))), text);
    t, rest := PartsOfCat(b, Cat(c, Cat(d, Cat(e, f))), rest);
    u, rest := PartsOfCat(c, Cat(d, Cat(e, f)), rest);
    v, rest := PartsOfCat(d, Cat(e, f), rest);
    w, x := PartsOfCat(e, f, rest);
  }
}
