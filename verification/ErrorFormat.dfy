/**
 * src/gateway/format-error.js: putting an error's JSON into an error page.
 *
 * The JSON text itself comes from a library and is a parameter here. What the source adds is a
 * `String.prototype.replace` whose replacement text is not taken literally: ECMA-262, 6th edition,
 * section 21.1.3.14.1 gives some two-character sequences that start with a dollar sign a meaning.
 */
module ErrorFormat {
  import opened Common

  const PLACEHOLDER := "{error}"

  predicate OccursAt(s: string, pattern: string, i: nat) {
    i + |pattern| <= |s| && s[i..i + |pattern|] == pattern
  }

  /** The position of the first occurrence at or after `from`. */
  function IndexOf(s: string, pattern: string, from: nat): (r: Option<nat>)
    requires from <= |s|
    ensures r.Some? ==> from <= r.value && OccursAt(s, pattern, r.value)
    ensures r.Some? ==> forall j: nat :: from <= j < r.value ==> !OccursAt(s, pattern, j)
    ensures r.None? ==> forall j: nat :: from <= j ==> !OccursAt(s, pattern, j)
    decreases |s| - from
  {
    if OccursAt(s, pattern, from) then Some(from)
    else if from == |s| then None
    else IndexOf(s, pattern, from + 1)
  }

  /** GetSubstitution for a pattern that is a string, so that there are no captures. */
  function Expand(replacement: string, matched: string, before: string, after: string): string {
    if |replacement| < 2 || replacement[0] != '$' then
      if replacement == "" then "" else [replacement[0]] + Expand(replacement[1..], matched, before, after)
    else match replacement[1]
      case '$' => "$" + Expand(replacement[2..], matched, before, after)
      case '&' => matched + Expand(replacement[2..], matched, before, after)
      case '`' => before + Expand(replacement[2..], matched, before, after)
      case '\'' => after + Expand(replacement[2..], matched, before, after)
      case _ => "$" + Expand(replacement[1..], matched, before, after)
  }

  function ReplaceFirst(s: string, pattern: string, replacement: string): string {
    match IndexOf(s, pattern, 0)
    case None => s
    case Some(i) =>
      var before, after := s[..i], s[i + |pattern|..];
      before + Expand(replacement, pattern, before, after) + after
  }

  function FormatError(errorFormat: Option<string>, formattedMetadata: string): string {
    match errorFormat
    case None => formattedMetadata
    case Some(format) => ReplaceFirst(format, PLACEHOLDER, formattedMetadata)
  }

  /** The piece of replacement text at a position, read by the table of section 21.1.3.14.1. */
  datatype Token = Plain(c: char) | Dollar | Matched | Before | After

  function Spelling(token: Token): string {
    match token
    case Plain(c) => [c]
    case Dollar => "$$"
    case Matched => "$&"
    case Before => "$`"
    case After => "$'"
  }

  function Value(token: Token, matched: string, before: string, after: string): string {
    match token
    case Plain(c) => [c]
    case Dollar => "$"
    case Matched => matched
    case Before => before
    case After => after
  }

  function Source(tokens: seq<Token>): string {
    if tokens == [] then "" else Spelling(tokens[0]) + Source(tokens[1..])
  }

  function Meaning(tokens: seq<Token>, matched: string, before: string, after: string): string {
    if tokens == [] then "" else Value(tokens[0], matched, before, after) + Meaning(tokens[1..], matched, before, after)
  }

  predicate IsSpecial(c: char) { c == '$' || c == '&' || c == '`' || c == '\'' }

  /** No plain dollar sign is followed by a character that would have made the two a token. */
  predicate Greedy(tokens: seq<Token>) {
    forall i :: 0 <= i < |tokens| - 1 && tokens[i] == Plain('$') ==>
      match tokens[i + 1] case Plain(c) => !IsSpecial(c) case _ => false
  }

  /** The special pairs of a text: a dollar sign and one of four characters after it. */
  predicate HasPair(s: string) {
    exists i :: 0 <= i < |s| - 1 && s[i] == '$' && IsSpecial(s[i + 1])
  }

  /** One token of replacement text, when what follows does not make it a different token. */
  lemma ExpandToken(token: Token, rest: string, matched: string, before: string, after: string)
    requires token == Plain('$') && rest != "" ==> !IsSpecial(rest[0])
    ensures Expand(Spelling(token) + rest, matched, before, after)
         == Value(token, matched, before, after) + Expand(rest, matched, before, after)
  {
    var s := Spelling(token) + rest;
    if token.Plain? {
      assert s[0] == token.c && s[1..] == rest;
    } else {
      assert s[0] == '$' && s[1] == Spelling(token)[1] && s[2..] == rest;
    }
  }

  /** Every reading of the replacement text as tokens, left to right, gives the same expansion. */
  lemma {:induction false} ExpandIsMeaning(tokens: seq<Token>, matched: string, before: string, after: string)
    requires Greedy(tokens)
    ensures Expand(Source(tokens), matched, before, after) == Meaning(tokens, matched, before, after)
  {
    if tokens != [] {
      var rest := tokens[1..];
      assert forall i :: 0 <= i < |rest| ==> rest[i] == tokens[i + 1];
      ExpandIsMeaning(rest, matched, before, after);
      if rest != [] && tokens[0] == Plain('$') {
        assert rest[0].Plain? && !IsSpecial(rest[0].c);
        assert Source(rest)[0] == rest[0].c;
      }
      ExpandToken(tokens[0], Source(rest), matched, before, after);
    }
  }

  lemma SourceCons(first: Token, rest: seq<Token>)
    requires Greedy(rest)
    ensures Source([first] + rest) == Spelling(first) + Source(rest)
    ensures Greedy([first] + rest) <==>
              (first == Plain('$') && rest != [] ==> rest[0].Plain? && !IsSpecial(rest[0].c))
  {
    var tokens := [first] + rest;
    assert tokens[0] == first && tokens[1..] == rest;
    assert forall i :: 0 < i < |tokens| ==> tokens[i] == rest[i - 1];
  }

  /** The token that a dollar sign and a special character make. */
  function PairToken(c: char): (token: Token)
    requires IsSpecial(c)
    ensures !token.Plain? && Spelling(token) == ['$', c]
  {
    match c case '$' => Dollar case '&' => Matched case '`' => Before case _ => After
  }

  /** Every text has such a reading. */
  lemma {:induction false} Reading(s: string) returns (tokens: seq<Token>)
    ensures Source(tokens) == s && Greedy(tokens)
    ensures s != "" ==> tokens != [] && s[0] == if tokens[0].Plain? then tokens[0].c else '$'
    decreases |s|
  {
    if s == "" {
      tokens := [];
    } else if |s| >= 2 && s[0] == '$' && IsSpecial(s[1]) {
      var rest := Reading(s[2..]);
      tokens := [PairToken(s[1])] + rest;
      SourceCons(PairToken(s[1]), rest);
      assert s == Spelling(PairToken(s[1])) + s[2..];
    } else {
      var rest := Reading(s[1..]);
      tokens := [Plain(s[0])] + rest;
      SourceCons(Plain(s[0]), rest);
      assert s == Spelling(Plain(s[0])) + s[1..];
    }
  }

  /** A format without the placeholder is the whole answer; without a format the JSON is. */
  lemma FormatWithoutPlaceholder(format: string, formattedMetadata: string)
    requires forall i: nat :: !OccursAt(format, PLACEHOLDER, i)
    ensures FormatError(Some(format), formattedMetadata) == format
    ensures FormatError(None, formattedMetadata) == formattedMetadata
  {
    var i := IndexOf(format, PLACEHOLDER, 0);
  }

  /** Only the first placeholder is replaced, whatever the text before and after it is. */
  lemma FormatAtFirstPlaceholder(before: string, after: string, formattedMetadata: string)
    requires forall i: nat :: i < |before| ==> !OccursAt(before + PLACEHOLDER + after, PLACEHOLDER, i)
    ensures FormatError(Some(before + PLACEHOLDER + after), formattedMetadata)
         == before + Expand(formattedMetadata, PLACEHOLDER, before, after) + after
  {
    var format := before + PLACEHOLDER + after;
    assert format[|before|..|before| + |PLACEHOLDER|] == PLACEHOLDER;
    assert OccursAt(format, PLACEHOLDER, |before|);
    var i := IndexOf(format, PLACEHOLDER, 0);
    assert i == Some(|before|);
    assert format[..|before|] == before && format[|before| + |PLACEHOLDER|..] == after;
  }

  /** The whole answer in terms of the tokens of the JSON text. */
  lemma FormatSubstitutesTokens(before: string, after: string, tokens: seq<Token>)
    requires forall i: nat :: i < |before| ==> !OccursAt(before + PLACEHOLDER + after, PLACEHOLDER, i)
    requires Greedy(tokens)
    ensures FormatError(Some(before + PLACEHOLDER + after), Source(tokens))
         == before + Meaning(tokens, PLACEHOLDER, before, after) + after
  {
    FormatAtFirstPlaceholder(before, after, Source(tokens));
    ExpandIsMeaning(tokens, PLACEHOLDER, before, after);
  }

  lemma {:induction false} ExpandWithoutPairs(s: string, matched: string, before: string, after: string)
    requires !HasPair(s)
    ensures Expand(s, matched, before, after) == s
  {
    if s != "" {
      assert forall i :: 0 <= i < |s| - 1 ==> s[1..][i] == s[i + 1];
      assert !HasPair(s[1..]);
      ExpandWithoutPairs(s[1..], matched, before, after);
      if |s| >= 2 && s[0] == '$' { assert !IsSpecial(s[1]); }
      assert s == [s[0]] + s[1..];
    }
  }

  function Dollars(n: nat): string { if n == 0 then "" else "$" + Dollars(n - 1) }

  lemma {:induction false} DollarsConcat(n: nat, s: string)
    ensures "$" + (Dollars(n) + s) == Dollars(n + 1) + s
    ensures Dollars(n) + ("$" + s) == Dollars(n + 1) + s
  {
    if n > 0 {
      DollarsConcat(n - 1, s);
      assert Dollars(n) + ("$" + s) == "$" + (Dollars(n - 1) + ("$" + s));
      assert Dollars(n + 1) + s == "$" + (Dollars(n) + s);
    }
  }

  predicate Visible(s: string) { s != "" && s[0] != '$' }

  /** Expansion never puts extra dollar signs in front of a text. */
  lemma {:induction false} NeverGainsDollars(s: string, k: nat, matched: string, before: string, after: string)
    requires k > 0
    requires Visible(matched) && Visible(before) && Visible(after)
    ensures Expand(s, matched, before, after) != Dollars(k) + s
    decreases |s|
  {
    DollarsConcat(k - 1, s);
    var e := Expand(s, matched, before, after);
    assert |Dollars(k) + s| > 0 && (Dollars(k) + s)[0] == '$';
    if |s| >= 2 && s[0] == '$' && s[1] == '$' {
      var rest := s[2..];
      NeverGainsDollars(rest, k + 1, matched, before, after);
      assert s == "$" + ("$" + rest);
      DollarsConcat(k, "$" + rest);
      DollarsConcat(k, rest);
      DollarsConcat(k + 1, rest);
      assert Dollars(k) + s == "$" + (Dollars(k + 1) + rest);
      assert e[1..] == Expand(rest, matched, before, after);
    } else if |s| >= 2 && s[0] == '$' && IsSpecial(s[1]) {
    } else if |s| >= 2 && s[0] == '$' {
      assert e[1..] == Expand(s[1..], matched, before, after);
      assert s == "$" + s[1..];
      DollarsConcat(k, s[1..]);
      DollarsConcat(k - 1, s[1..]);
      assert Dollars(k) + s == "$" + (Dollars(k) + s[1..]);
      if e == Dollars(k) + s {
        assert (Dollars(k) + s)[1..] == Dollars(k) + s[1..];
        NeverGainsDollars(s[1..], k, matched, before, after);
      }
    }
  }

  lemma {:induction false} ExpandWithPairs(s: string, matched: string, before: string, after: string)
    requires HasPair(s)
    requires Visible(matched) && Visible(before) && Visible(after)
    ensures Expand(s, matched, before, after) != s
    decreases |s|
  {
    var e := Expand(s, matched, before, after);
    if s[0] == '$' && IsSpecial(s[1]) {
      if s[1] == '$' {
        NeverGainsDollars(s[2..], 1, matched, before, after);
        assert Dollars(1) == "$";
        assert s[1..] == "$" + s[2..];
        assert e[1..] == Expand(s[2..], matched, before, after);
      }
    } else {
      assert forall i :: 0 <= i < |s| - 1 ==> s[1..][i] == s[i + 1];
      var i :| 0 <= i < |s| - 1 && s[i] == '$' && IsSpecial(s[i + 1]);
      assert s[1..][i - 1] == '$' && IsSpecial(s[1..][i]);
      ExpandWithPairs(s[1..], matched, before, after);
      assert e[1..] == Expand(s[1..], matched, before, after);
    }
  }

  /** The JSON is shown as it is, around the first placeholder of `before + "{error}" + after`. */
  ghost predicate ShownVerbatim(before: string, after: string, formattedMetadata: string) {
    (forall i: nat :: i < |before| ==> !OccursAt(before + PLACEHOLDER + after, PLACEHOLDER, i)) ==>
      FormatError(Some(before + PLACEHOLDER + after), formattedMetadata) == before + formattedMetadata + after
  }

  /** The JSON is shown as it is in every format if and only if it contains none of the pairs. */
  lemma VerbatimIffNoPairs(formattedMetadata: string)
    ensures (forall before, after :: ShownVerbatim(before, after, formattedMetadata)) <==> !HasPair(formattedMetadata)
  {
    if HasPair(formattedMetadata) {
      var format := "<" + PLACEHOLDER + ">";
      assert !OccursAt(format, PLACEHOLDER, 0) by { assert format[0..7][0] == '<'; }
      FormatAtFirstPlaceholder("<", ">", formattedMetadata);
      ExpandWithPairs(formattedMetadata, PLACEHOLDER, "<", ">");
      var expanded := Expand(formattedMetadata, PLACEHOLDER, "<", ">");
      assert forall t: string :: ("<" + t + ">")[1..|t| + 1] == t;
      assert !ShownVerbatim("<", ">", formattedMetadata);
    } else {
      forall before, after ensures ShownVerbatim(before, after, formattedMetadata) {
        ExpandWithoutPairs(formattedMetadata, PLACEHOLDER, before, after);
        if forall i: nat :: i < |before| ==> !OccursAt(before + PLACEHOLDER + after, PLACEHOLDER, i) {
          FormatAtFirstPlaceholder(before, after, formattedMetadata);
        }
      }
    }
  }

  /** A text without dollar signs stays as it is in front of any other. */
  lemma {:induction false} ExpandAfterPlain(a: string, rest: string, matched: string, before: string, after: string)
    requires '$' !in a
    ensures Expand(a + rest, matched, before, after) == a + Expand(rest, matched, before, after)
  {
    var e := Expand(rest, matched, before, after);
    if a == "" {
      assert a + rest == rest && a + e == e;
    } else {
      assert a + rest == Spelling(Plain(a[0])) + (a[1..] + rest);
      ExpandToken(Plain(a[0]), a[1..] + rest, matched, before, after);
      ExpandAfterPlain(a[1..], rest, matched, before, after);
      assert [a[0]] + (a[1..] + e) == a + e;
    }
  }

  /** What a text around a pair becomes, for each of the four pairs. */
  lemma ExpandAroundPair(a: string, c: char, b: string, matched: string, before: string, after: string)
    requires '$' !in a && !HasPair(b) && IsSpecial(c)
    ensures c == '$' ==> Expand(a + (['$', c] + b), matched, before, after) == a + ("$" + b)
    ensures c == '&' ==> Expand(a + (['$', c] + b), matched, before, after) == a + (matched + b)
    ensures c == '`' ==> Expand(a + (['$', c] + b), matched, before, after) == a + (before + b)
    ensures c == '\'' ==> Expand(a + (['$', c] + b), matched, before, after) == a + (after + b)
  {
    ExpandAfterPlain(a, ['$', c] + b, matched, before, after);
    ExpandToken(PairToken(c), b, matched, before, after);
    ExpandWithoutPairs(b, matched, before, after);
  }

  /** What `JSON.stringify` gives, indented by four, for an object with only this `error`. */
  function ErrorJson(error: string): string {
    "{\n    \"error\": \"" + error + "\"\n}"
  }

  /** An error whose message is "$&" brings the placeholder back into the page. */
  lemma DollarAmpersandIsNotVerbatim()
    ensures FormatError(Some("<{error}>"), ErrorJson("$&")) == "<" + ErrorJson("{error}") + ">"
  {
    var json := ErrorJson("$&");
    var a, b := "{\n    \"error\": \"", "\"\n}";
    assert "<{error}>" == "<" + PLACEHOLDER + ">";
    assert !OccursAt("<" + PLACEHOLDER + ">", PLACEHOLDER, 0) by { assert ("<" + PLACEHOLDER + ">")[0..7][0] == '<'; }
    FormatAtFirstPlaceholder("<", ">", json);
    assert !HasPair(b);
    assert "$&" == ['$', '&'];
    assert json == a + (['$', '&'] + b);
    ExpandAroundPair(a, '&', b, PLACEHOLDER, "<", ">");
    assert ErrorJson(PLACEHOLDER) == a + (PLACEHOLDER + b);
  }
}
