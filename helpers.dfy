/**
 * The stateless text primitives of A2LEngine/Helpers.cs: the block scanner
 * (GetFirstInstanceTextBetween), the keyword lookup (GetStringAfter),
 * Cleanup and ToEnum, together with the .NET string operations they rest on
 * (Trim, Replace, Split, int.Parse).
 */
module Helpers {
  import opened Wrappers

  // ---------------------------------------------------------------------
  // Characters
  // ---------------------------------------------------------------------

  /** White space as .NET's Trim and the regex class \s see it (ASCII part). */
  predicate IsWhitespace(c: char) {
    c == ' ' || c == '\t' || c == '\n' || c == '\r' || c == '\U{000B}' || c == '\U{000C}'
  }

  /** Case folding used by case-insensitive matching (ASCII letters). */
  function Lower(c: char): char {
    if 'A' <= c <= 'Z' then (c as int + 32) as char else c
  }

  /** Every character of s[lo..hi] is white space. */
  predicate SpaceRun(s: string, lo: int, hi: int) {
    0 <= lo <= hi <= |s| && forall k | lo <= k < hi :: IsWhitespace(s[k])
  }

  /** Equality of two strings, ignoring the case of letters. */
  predicate EqualsIgnoreCase(a: string, b: string) {
    |a| == |b| && forall k | 0 <= k < |a| :: Lower(a[k]) == Lower(b[k])
  }

  // ---------------------------------------------------------------------
  // Trim, Replace("\"", ""), Cleanup
  // ---------------------------------------------------------------------

  /** String.TrimStart(): drops the leading white space. */
  function TrimStart(s: string): (r: string)
    ensures |r| <= |s|
  {
    if |s| > 0 && IsWhitespace(s[0]) then TrimStart(s[1..]) else s
  }

  /** TrimStart(s) is a suffix of s after a run of white space, and starts with none. */
  lemma {:induction false} TrimStartSpec(s: string)
    ensures var r := TrimStart(s);
      |r| <= |s| && r == s[|s| - |r|..] && SpaceRun(s, 0, |s| - |r|) && (r == [] || !IsWhitespace(r[0]))
  {
    if |s| > 0 && IsWhitespace(s[0]) {
      TrimStartSpec(s[1..]);
    }
  }

  /** String.TrimEnd(): drops the trailing white space. */
  function TrimEnd(s: string): (r: string)
    ensures |r| <= |s|
  {
    if |s| > 0 && IsWhitespace(s[|s| - 1]) then TrimEnd(s[..|s| - 1]) else s
  }

  /** TrimEnd(s) is a prefix of s before a run of white space, and ends with none. */
  lemma {:induction false} TrimEndSpec(s: string)
    ensures var r := TrimEnd(s);
      |r| <= |s| && r == s[..|r|] && SpaceRun(s, |r|, |s|) && (r == [] || !IsWhitespace(r[|r| - 1]))
  {
    if |s| > 0 && IsWhitespace(s[|s| - 1]) {
      TrimEndSpec(s[..|s| - 1]);
    }
  }

  /** No white space at either end. */
  predicate IsTrimmed(s: string) {
    s == [] || (!IsWhitespace(s[0]) && !IsWhitespace(s[|s| - 1]))
  }

  /** Where Trim(s) starts in s. */
  function TrimOffset(s: string): nat {
    |s| - |TrimStart(s)|
  }

  /**
   * String.Trim(): the infix of `s` that is left once the white space is cut
   * from both ends.
   */
  function Trim(s: string): string {
    TrimEnd(TrimStart(s))
  }

  /** Trim(s) is the infix of s between two runs of white space, and has none at its ends. */
  lemma TrimSpec(s: string)
    ensures var r := Trim(s);
      TrimOffset(s) + |r| <= |s| && r == s[TrimOffset(s)..TrimOffset(s) + |r|]
      && SpaceRun(s, 0, TrimOffset(s)) && SpaceRun(s, TrimOffset(s) + |r|, |s|)
      && IsTrimmed(r)
  {
    var t := TrimStart(s);
    TrimStartSpec(s);
    TrimEndSpec(t);
    var i := |s| - |t|;
    assert forall k | 0 <= k < |t| :: t[k] == s[i + k];
  }

  /** Trimming a string that is already trimmed changes nothing. */
  lemma TrimTrimmed(s: string)
    requires IsTrimmed(s)
    ensures Trim(s) == s
  {
    assert TrimStart(s) == s;
    assert TrimEnd(s) == s;
  }

  /** Every character of Trim(s) is a character of s. */
  lemma TrimChars(s: string, c: char)
    requires c in Trim(s)
    ensures c in s
  {
    var r := Trim(s);
    TrimSpec(s);
    var k :| 0 <= k < |r| && r[k] == c;
    assert s[TrimOffset(s) + k] == c;
  }

  /** A character absent from s is absent from Trim(s). */
  lemma TrimKeepsOut(s: string, c: char)
    requires c !in s
    ensures c !in Trim(s)
  {
    if c in Trim(s) {
      TrimChars(s, c);
    }
  }

  /** String.Replace("\"", ""): drops every double quote. */
  function RemoveQuotes(s: string): string {
    if s == [] then []
    else (if s[0] == '"' then [] else [s[0]]) + RemoveQuotes(s[1..])
  }

  /** A string without quotes comes back unchanged. */
  lemma {:induction false} RemoveQuotesQuoteFree(s: string)
    ensures '"' !in s ==> RemoveQuotes(s) == s
  {
    if s != [] && '"' !in s {
      assert s[0] != '"' && '"' !in s[1..];
      RemoveQuotesQuoteFree(s[1..]);
    }
  }

  /**
   * Replace drops the quotes and keeps every other character, however often
   * it occurs and in its order: the text before any cut point comes out
   * before the text after it.
   */
  lemma RemoveQuotesSpec(s: string)
    ensures var r := RemoveQuotes(s);
      '"' !in r && |r| <= |s| && multiset(r) == multiset(s)['"' := 0]
    ensures forall k | 0 <= k <= |s| :: RemoveQuotes(s) == RemoveQuotes(s[..k]) + RemoveQuotes(s[k..])
  {
    RemoveQuotesCount(s);
    forall k | 0 <= k <= |s| ensures RemoveQuotes(s) == RemoveQuotes(s[..k]) + RemoveQuotes(s[k..]) {
      RemoveQuotesCut(s, k);
    }
  }

  lemma {:induction false} RemoveQuotesCount(s: string)
    ensures var r := RemoveQuotes(s);
      '"' !in r && |r| <= |s| && multiset(r) == multiset(s)['"' := 0]
  {
    if s != [] {
      RemoveQuotesCount(s[1..]);
      assert s == [s[0]] + s[1..];
    }
  }

  lemma {:induction false} RemoveQuotesCut(s: string, k: nat)
    requires k <= |s|
    ensures RemoveQuotes(s) == RemoveQuotes(s[..k]) + RemoveQuotes(s[k..])
  {
    if k == 0 {
      assert s[..k] == [] && s[k..] == s;
    } else {
      var head := if s[0] == '"' then [] else [s[0]];
      RemoveQuotesCut(s[1..], k - 1);
      assert s[..k][0] == s[0] && s[..k][1..] == s[1..][..k - 1] && s[1..][k - 1..] == s[k..];
      assert RemoveQuotes(s[..k]) == head + RemoveQuotes(s[1..][..k - 1]);
    }
  }


  /** Replace works piecewise: the quotes of a concatenation are dropped from each part. */
  lemma {:induction false} RemoveQuotesAppend(a: string, b: string)
    ensures RemoveQuotes(a + b) == RemoveQuotes(a) + RemoveQuotes(b)
  {
    if a == [] {
      assert a + b == b;
    } else {
      var head := if a[0] == '"' then [] else [a[0]];
      calc {
        RemoveQuotes(a + b);
        { assert (a + b)[0] == a[0] && (a + b)[1..] == a[1..] + b; }
        head + RemoveQuotes(a[1..] + b);
        { RemoveQuotesAppend(a[1..], b); }
        head + (RemoveQuotes(a[1..]) + RemoveQuotes(b));
        (head + RemoveQuotes(a[1..])) + RemoveQuotes(b);
      }
    }
  }

  /**
   * Cleanup: trim, then strip every double quote (A2LEngine/Helpers.cs:35-38).
   * The result holds no quote, and text that is already clean comes back as it is.
   */
  function Cleanup(value: string): (r: string)
    ensures '"' !in r && |r| <= |value|
    ensures '"' !in value && IsTrimmed(value) ==> r == value
  {
    RemoveQuotesCount(Trim(value));
    RemoveQuotesQuoteFree(Trim(value));
    TrimIdle(value);
    RemoveQuotes(Trim(value))
  }

  lemma TrimIdle(s: string)
    ensures IsTrimmed(s) ==> Trim(s) == s
  {
    if IsTrimmed(s) {
      TrimTrimmed(s);
    }
  }

  /** Cleanup leaves no quote and exactly the trimmed text's other characters. */
  lemma CleanupSpec(value: string)
    ensures var r := Cleanup(value);
      '"' !in r && |r| <= |value| && multiset(r) == multiset(Trim(value))['"' := 0]
  {
    RemoveQuotesSpec(Trim(value));
    TrimSpec(value);
  }

  /** On text without quotes Cleanup is idempotent. */
  lemma CleanupIdempotentQuoteFree(s: string)
    requires '"' !in s
    ensures Cleanup(Cleanup(s)) == Cleanup(s)
  {
    var t := Trim(s);
    TrimSpec(s);
    TrimKeepsOut(s, '"');
    RemoveQuotesQuoteFree(t);
    assert Cleanup(s) == t;
  }

  /** In general it is not: the quotes shield the inner space from Trim. */
  lemma CleanupNotIdempotent()
    ensures Cleanup(['"', ' ', 'a', '"']) == [' ', 'a']
    ensures Cleanup([' ', 'a']) == ['a']
  {
    QuotedSpaceExample();
    LeadingSpaceExample();
  }

  lemma QuotedSpaceExample()
    ensures Cleanup(['"', ' ', 'a', '"']) == [' ', 'a']
  {
    var s := ['"', ' ', 'a', '"'];
    assert !IsWhitespace('"');
    TrimTrimmed(s);
    assert s[1..] == [' ', 'a', '"'] && s[2..] == ['a', '"'] && s[3..] == ['"'] && s[4..] == [];
    assert RemoveQuotes(s[3..]) == [];
    assert RemoveQuotes(s[2..]) == ['a'];
    assert RemoveQuotes(s[1..]) == [' ', 'a'];
  }

  lemma LeadingSpaceExample()
    ensures Cleanup([' ', 'a']) == ['a']
  {
    var t := [' ', 'a'];
    assert !IsWhitespace('a') && IsWhitespace(t[0]) && t[1..] == ['a'];
    assert TrimStart(['a']) == ['a'];
    assert TrimStart(t) == ['a'];
    assert TrimEnd(['a']) == ['a'];
    assert Trim(t) == ['a'];
  }

  // ---------------------------------------------------------------------
  // Split(char)
  // ---------------------------------------------------------------------

  /** String.Split(sep): every piece, empty ones included. */
  function Split(s: string, sep: char): (r: seq<string>)
    ensures |r| >= 1
    ensures forall i | 0 <= i < |r| :: sep !in r[i]
  {
    if s == [] then [""]
    else
      var rest := Split(s[1..], sep);
      if s[0] == sep then [""] + rest
      else [[s[0]] + rest[0]] + rest[1..]
  }

  /** String.Join(sep, parts), the inverse of Split. */
  function Join(parts: seq<string>, sep: char): string
    requires |parts| >= 1
  {
    if |parts| == 1 then parts[0] else parts[0] + [sep] + Join(parts[1..], sep)
  }

  /** Joining the pieces with the separator gives back the text. */
  lemma {:induction false} JoinSplit(s: string, sep: char)
    ensures Join(Split(s, sep), sep) == s
  {
    if s != [] {
      var rest := Split(s[1..], sep);
      JoinSplit(s[1..], sep);
      if s[0] == sep {
        assert Split(s, sep)[1..] == rest;
      } else {
        var r := Split(s, sep);
        if |rest| == 1 {
          assert r == [[s[0]] + rest[0]];
        } else {
          assert r[1..] == rest[1..];
          assert Join(rest, sep) == rest[0] + [sep] + Join(rest[1..], sep);
        }
      }
    }
  }

  // ---------------------------------------------------------------------
  // Block scanner: GetFirstInstanceTextBetween (A2LEngine/Helpers.cs:10-23)
  // ---------------------------------------------------------------------

  /**
   * A marker pattern `lead(\s*)word`, matched ignoring case: the literal
   * lead, any run of white space (possibly none), the literal word.
   */
  datatype Marker = Marker(lead: string, word: string)

  /** A match of the scanner: the body is source[start..stop]. */
  datatype Span = Span(start: nat, stop: nat)

  /** `lit` occurs at position i of s, ignoring case. */
  predicate MatchesAt(s: string, i: int, lit: string) {
    0 <= i && i + |lit| <= |s| && forall k | 0 <= k < |lit| :: Lower(s[i + k]) == Lower(lit[k])
  }

  /** s[k..p] is one occurrence of the marker. */
  predicate MarkerSpan(s: string, m: Marker, k: int, p: int) {
    MatchesAt(s, k, m.lead) && SpaceRun(s, k + |m.lead|, p - |m.word|) && MatchesAt(s, p - |m.word|, m.word)
  }

  /** The lookbehind (?<=marker) holds at p: an occurrence ends at p. */
  predicate MarkerEndsAt(s: string, m: Marker, p: int) {
    exists k | 0 <= k <= p :: MarkerSpan(s, m, k, p)
  }

  /** The lookahead (?=marker) holds at q: an occurrence starts at q. */
  predicate MarkerStartsAt(s: string, m: Marker, q: int) {
    exists p | q <= p <= |s| :: MarkerSpan(s, m, q, p)
  }

  predicate NoBeginIn(s: string, b: Marker, lo: int, hi: int) {
    forall p | lo <= p < hi :: !MarkerEndsAt(s, b, p)
  }

  predicate NoEndIn(s: string, e: Marker, lo: int, hi: int) {
    forall q | lo <= q < hi :: !MarkerStartsAt(s, e, q)
  }

  /** The least p >= from where the begin marker ends. */
  function FirstBegin(s: string, b: Marker, from: nat): (r: Option<nat>)
    decreases |s| + 1 - from
    ensures r.Some? ==> from <= r.value <= |s| && MarkerEndsAt(s, b, r.value) && NoBeginIn(s, b, from, r.value)
    ensures r.None? ==> NoBeginIn(s, b, from, |s| + 1)
  {
    if from > |s| then None
    else if MarkerEndsAt(s, b, from) then Some(from)
    else FirstBegin(s, b, from + 1)
  }

  /** The least q >= from where the end marker starts. */
  function FirstEnd(s: string, e: Marker, from: nat): (r: Option<nat>)
    decreases |s| + 1 - from
    ensures r.Some? ==> from <= r.value <= |s| && MarkerStartsAt(s, e, r.value) && NoEndIn(s, e, from, r.value)
    ensures r.None? ==> NoEndIn(s, e, from, |s| + 1)
  {
    if from > |s| then None
    else if MarkerStartsAt(s, e, from) then Some(from)
    else FirstEnd(s, e, from + 1)
  }

  /** The span lies strictly between a begin marker and the nearest end marker after it. */
  predicate IsBlock(s: string, b: Marker, e: Marker, sp: Span) {
    sp.start <= sp.stop <= |s| && MarkerEndsAt(s, b, sp.start) && MarkerStartsAt(s, e, sp.stop)
    && NoEndIn(s, e, sp.start, sp.stop)
  }

  /** Where the regex resumes after a match: past an empty match, at its end otherwise. */
  function Resume(sp: Span): nat {
    if sp.start == sp.stop then sp.stop + 1 else sp.stop
  }

  /** No begin marker at or after `lo` has an end marker after it. */
  predicate Unclosed(s: string, b: Marker, e: Marker, lo: int) {
    forall p | lo <= p <= |s| :: MarkerEndsAt(s, b, p) ==> NoEndIn(s, e, p, |s| + 1)
  }

  /**
   * The matches of (?<=b)(.*?)(?=e), IgnoreCase | Singleline, from `from` on,
   * as spans of `s`. SpansAreBlocks, SpansInOrder and SpansComplete state
   * what they are.
   */
  function Spans(s: string, b: Marker, e: Marker, from: nat): (r: seq<Span>)
    decreases |s| + 1 - from
    ensures forall i | 0 <= i < |r| :: from <= r[i].start <= r[i].stop <= |s|
  {
    match FirstBegin(s, b, from)
    case None => []
    case Some(p) =>
      match FirstEnd(s, e, p)
      case None => []
      case Some(q) => [Span(p, q)] + Spans(s, b, e, Resume(Span(p, q)))
  }

  /**
   * Each body starts where a begin marker ends and stops where the nearest
   * end marker after it starts: no end marker starts inside a body.
   */
  lemma {:induction false} SpansAreBlocks(s: string, b: Marker, e: Marker, from: nat)
    decreases |s| + 1 - from
    ensures forall sp | sp in Spans(s, b, e, from) :: IsBlock(s, b, e, sp)
  {
    match FirstBegin(s, b, from)
    case None =>
    case Some(p) =>
      match FirstEnd(s, e, p)
      case None =>
      case Some(q) =>
        SpansAreBlocks(s, b, e, Resume(Span(p, q)));
  }

  /**
   * Bodies come left to right without overlapping, and the only begin
   * markers passed over lie inside a body.
   */
  lemma {:induction false} SpansInOrder(s: string, b: Marker, e: Marker, from: nat)
    decreases |s| + 1 - from
    ensures var r := Spans(s, b, e, from);
      (|r| > 0 ==> NoBeginIn(s, b, from, r[0].start))
      && (forall i | 0 <= i < |r| - 1 :: Resume(r[i]) <= r[i + 1].start)
      && (forall i | 0 <= i < |r| - 1 :: NoBeginIn(s, b, Resume(r[i]), r[i + 1].start))
  {
    match FirstBegin(s, b, from)
    case None =>
    case Some(p) =>
      match FirstEnd(s, e, p)
      case None =>
      case Some(q) =>
        var next := Resume(Span(p, q));
        var rest := Spans(s, b, e, next);
        SpansInOrder(s, b, e, next);
        var r := Spans(s, b, e, from);
        assert r == [Span(p, q)] + rest;
        assert forall i | 1 <= i < |r| :: r[i] == rest[i - 1];
  }

  /** After the last body, no begin marker has an end marker after it. */
  lemma {:induction false} SpansComplete(s: string, b: Marker, e: Marker, from: nat)
    decreases |s| + 1 - from
    ensures var r := Spans(s, b, e, from);
      Unclosed(s, b, e, if |r| == 0 then from else Resume(r[|r| - 1]))
  {
    match FirstBegin(s, b, from)
    case None =>
    case Some(p) =>
      match FirstEnd(s, e, p)
      case None =>
        forall x | from <= x <= |s| && MarkerEndsAt(s, b, x) ensures NoEndIn(s, e, x, |s| + 1) {
          assert x >= p;
        }
      case Some(q) =>
        var next := Resume(Span(p, q));
        SpansComplete(s, b, e, next);
        var rest := Spans(s, b, e, next);
        var r := Spans(s, b, e, from);
        assert r == [Span(p, q)] + rest;
        if |rest| == 0 {
          assert r[|r| - 1] == Span(p, q);
        } else {
          assert r[|r| - 1] == rest[|rest| - 1];
        }
  }

  // ---------------------------------------------------------------------
  // Marker matching ignores case
  // ---------------------------------------------------------------------

  /** Characters equal ignoring case are both white space or both not. */
  lemma WhitespaceIgnoresCase(a: char, b: char)
    requires Lower(a) == Lower(b)
    ensures IsWhitespace(a) <==> IsWhitespace(b)
  {
  }

  lemma MarkerIgnoresCase(s: string, t: string, m: Marker, k: int, p: int)
    requires EqualsIgnoreCase(s, t)
    ensures MarkerSpan(s, m, k, p) <==> MarkerSpan(t, m, k, p)
  {
    forall x | 0 <= x < |s| ensures IsWhitespace(s[x]) <==> IsWhitespace(t[x]) {
      WhitespaceIgnoresCase(s[x], t[x]);
    }
  }

  lemma {:induction false} FirstBeginIgnoresCase(s: string, t: string, b: Marker, from: nat)
    requires EqualsIgnoreCase(s, t)
    decreases |s| + 1 - from
    ensures FirstBegin(s, b, from) == FirstBegin(t, b, from)
  {
    if from <= |s| {
      forall k | 0 <= k <= from ensures MarkerSpan(s, b, k, from) <==> MarkerSpan(t, b, k, from) {
        MarkerIgnoresCase(s, t, b, k, from);
      }
      FirstBeginIgnoresCase(s, t, b, from + 1);
    }
  }

  lemma {:induction false} FirstEndIgnoresCase(s: string, t: string, e: Marker, from: nat)
    requires EqualsIgnoreCase(s, t)
    decreases |s| + 1 - from
    ensures FirstEnd(s, e, from) == FirstEnd(t, e, from)
  {
    if from <= |s| {
      forall p | from <= p <= |s| ensures MarkerSpan(s, e, from, p) <==> MarkerSpan(t, e, from, p) {
        MarkerIgnoresCase(s, t, e, from, p);
      }
      FirstEndIgnoresCase(s, t, e, from + 1);
    }
  }

  /**
   * The scanner matches its markers ignoring case: changing the case of the
   * source's letters moves no block boundary.
   */
  lemma {:induction false} SpansIgnoreCase(s: string, t: string, b: Marker, e: Marker, from: nat)
    requires EqualsIgnoreCase(s, t)
    decreases |s| + 1 - from
    ensures Spans(s, b, e, from) == Spans(t, b, e, from)
  {
    FirstBeginIgnoresCase(s, t, b, from);
    match FirstBegin(s, b, from)
    case None =>
    case Some(p) =>
      FirstEndIgnoresCase(s, t, e, p);
      match FirstEnd(s, e, p)
      case None =>
      case Some(q) =>
        SpansIgnoreCase(s, t, b, e, Resume(Span(p, q)));
  }

  /** The text of each span. */
  function Texts(s: string, spans: seq<Span>): (r: seq<string>)
    requires forall i | 0 <= i < |spans| :: spans[i].start <= spans[i].stop <= |s|
    ensures |r| == |spans|
    ensures forall i | 0 <= i < |r| :: r[i] == s[spans[i].start..spans[i].stop]
  {
    seq(|spans|, i requires 0 <= i < |spans| => s[spans[i].start..spans[i].stop])
  }

  /** GetFirstInstanceTextBetween(source, leftWord, rightWord): the bodies of all blocks. */
  function GetFirstInstanceTextBetween(source: string, leftWord: Marker, rightWord: Marker): (r: seq<string>)
    ensures var sp := Spans(source, leftWord, rightWord, 0);
      |r| == |sp| && forall i | 0 <= i < |r| ::
        IsBlock(source, leftWord, rightWord, sp[i]) && r[i] == source[sp[i].start..sp[i].stop]
  {
    SpansAreBlocks(source, leftWord, rightWord, 0);
    Texts(source, Spans(source, leftWord, rightWord, 0))
  }

  /** A block closed right after its begin marker yields the empty body. */
  lemma ImmediatelyClosed(s: string, b: Marker, e: Marker, from: nat, p: nat)
    requires from <= p <= |s| && MarkerEndsAt(s, b, p) && NoBeginIn(s, b, from, p)
    requires MarkerStartsAt(s, e, p)
    ensures var r := Spans(s, b, e, from); |r| > 0 && r[0] == Span(p, p)
  {
    var r := Spans(s, b, e, from);
    SpansInOrder(s, b, e, from);
    SpansComplete(s, b, e, from);
    assert !NoEndIn(s, e, p, |s| + 1);
    SpansAreBlocks(s, b, e, from);
    assert r[0] in r;
    assert !NoEndIn(s, e, p, r[0].stop + 1);
  }

  // ---------------------------------------------------------------------
  // Keyword lookup: GetStringAfter (A2LEngine/Helpers.cs:25-32)
  // ---------------------------------------------------------------------

  /** The lookbehind (?<=keyword) holds at p, ignoring case. */
  predicate KeywordEndsAt(s: string, keyword: string, p: int) {
    MatchesAt(s, p - |keyword|, keyword)
  }

  /** The least p >= from where the keyword ends. */
  function FirstKeyword(s: string, keyword: string, from: nat): (r: Option<nat>)
    decreases |s| + 1 - from
    ensures r.Some? ==> from <= r.value <= |s| && KeywordEndsAt(s, keyword, r.value)
    ensures r.Some? ==> forall x | from <= x < r.value :: !KeywordEndsAt(s, keyword, x)
    ensures r.None? ==> forall x | from <= x <= |s| :: !KeywordEndsAt(s, keyword, x)
  {
    if from > |s| then None
    else if KeywordEndsAt(s, keyword, from) then Some(from)
    else FirstKeyword(s, keyword, from + 1)
  }

  /** The least q >= from holding a line break. */
  function FirstNewline(s: string, from: nat): (r: Option<nat>)
    decreases |s| - from
    ensures r.Some? ==> from <= r.value < |s| && s[r.value] == '\n'
    ensures r.Some? ==> forall x | from <= x < r.value :: s[x] != '\n'
    ensures r.None? ==> forall x | from <= x < |s| :: s[x] != '\n'
  {
    if from >= |s| then None
    else if s[from] == '\n' then Some(from)
    else FirstNewline(s, from + 1)
  }

  /**
   * The first match of (?<=leftWord)(.*?)(?=\n), trimmed, or "" when there is
   * no match.
   */
  function GetStringAfter(source: string, leftWord: string): (r: string)
    ensures '\n' !in r
    ensures IsTrimmed(r)
  {
    match FirstKeyword(source, leftWord, 0)
    case None => ""
    case Some(p) =>
      match FirstNewline(source, p)
      case None => ""
      case Some(q) => TrimmedLine(source, p, q)
  }

  /** The trimmed text of source[p..q], which holds no line break. */
  function TrimmedLine(source: string, p: nat, q: nat): (r: string)
    requires p <= q <= |source| && forall x | p <= x < q :: source[x] != '\n'
    ensures '\n' !in r
    ensures IsTrimmed(r)
  {
    var t := source[p..q];
    assert '\n' !in t by {
      forall k | 0 <= k < |t| ensures t[k] != '\n' {
        assert t[k] == source[p + k];
      }
    }
    TrimKeepsOut(t, '\n');
    TrimSpec(t);
    Trim(t)
  }

  /** Without an occurrence of the keyword the result is empty. */
  lemma GetStringAfterAbsent(source: string, leftWord: string)
    requires forall p | 0 <= p <= |source| :: !KeywordEndsAt(source, leftWord, p)
    ensures GetStringAfter(source, leftWord) == ""
  {
  }

  /** When no line break follows the first occurrence of the keyword, the result is empty. */
  lemma GetStringAfterNoLineBreak(source: string, leftWord: string, p: nat)
    requires p <= |source| && KeywordEndsAt(source, leftWord, p)
    requires forall x | 0 <= x < p :: !KeywordEndsAt(source, leftWord, x)
    requires '\n' !in source[p..]
    ensures GetStringAfter(source, leftWord) == ""
  {
    assert FirstKeyword(source, leftWord, 0) == Some(p);
  }

  /**
   * With the first occurrence of the keyword ending at p and the first line
   * break after it at q, the result is the trimmed text source[p..q].
   */
  lemma GetStringAfterLine(source: string, leftWord: string, p: nat, q: nat)
    requires p <= q < |source| && KeywordEndsAt(source, leftWord, p)
    requires forall x | 0 <= x < p :: !KeywordEndsAt(source, leftWord, x)
    requires source[q] == '\n' && '\n' !in source[p..q]
    ensures GetStringAfter(source, leftWord) == Trim(source[p..q])
  {
    assert FirstKeyword(source, leftWord, 0) == Some(p);
    var g := FirstNewline(source, p);
    assert g == Some(q);
    assert GetStringAfter(source, leftWord) == TrimmedLine(source, p, q);
  }

  // ---------------------------------------------------------------------
  // int.Parse (NumberStyles.Integer: [ws][sign]digits[ws], 32-bit range)
  // ---------------------------------------------------------------------

  const INT32_MIN: int := -0x8000_0000
  const INT32_MAX: int := 0x7FFF_FFFF

  predicate IsDigit(c: char) {
    '0' <= c <= '9'
  }

  predicate AllDigits(s: string) {
    forall k | 0 <= k < |s| :: IsDigit(s[k])
  }

  /** The value of a string of decimal digits. */
  function DigitsValue(ds: string): nat
    requires AllDigits(ds)
  {
    if ds == [] then 0 else DigitsValue(ds[..|ds| - 1]) * 10 + (ds[|ds| - 1] as int - '0' as int)
  }

  /**
   * int.Parse: None stands for a FormatException or an OverflowException.
   * Plain decimal text, with or without a minus or plus sign, reads as its
   * value when that fits in 32 bits and fails otherwise; any other text,
   * once trimmed, fails.
   */
  function ParseInt32(s: string): (r: Option<int>)
    ensures r.Some? ==> INT32_MIN <= r.value <= INT32_MAX
    ensures s != [] && AllDigits(s) ==>
      r == (if DigitsValue(s) <= INT32_MAX then Some(DigitsValue(s) as int) else None)
    ensures |s| > 1 && s[0] == '-' && AllDigits(s[1..]) ==>
      r == (if DigitsValue(s[1..]) <= -INT32_MIN then Some(-(DigitsValue(s[1..]) as int)) else None)
    ensures |s| > 1 && s[0] == '+' && AllDigits(s[1..]) ==>
      r == (if DigitsValue(s[1..]) <= INT32_MAX then Some(DigitsValue(s[1..]) as int) else None)
    ensures r.Some? ==> var t := Trim(s);
      (t != [] && AllDigits(t)) || (|t| > 1 && (t[0] == '-' || t[0] == '+') && AllDigits(t[1..]))
  {
    DecimalTrimmed(s);
    var t := Trim(s);
    var signed := |t| > 0 && (t[0] == '-' || t[0] == '+');
    var ds := if signed then t[1..] else t;
    if ds == [] || !AllDigits(ds) then None
    else
      var v: int := if signed && t[0] == '-' then -(DigitsValue(ds) as int) else DigitsValue(ds);
      if INT32_MIN <= v <= INT32_MAX then Some(v) else None
  }

  /** White space around the number is ignored, as NumberStyles.Integer allows it. */
  lemma ParseInt32Padded(s: string)
    ensures ParseInt32(s) == ParseInt32(Trim(s))
  {
    TrimSpec(s);
    TrimTrimmed(Trim(s));
  }

  /** Decimal text, signed or not, has no white space at its ends. */
  lemma DecimalTrimmed(s: string)
    ensures (s != [] && AllDigits(s)) || (|s| > 1 && (s[0] == '-' || s[0] == '+') && AllDigits(s[1..])) ==> Trim(s) == s
  {
    if (s != [] && AllDigits(s)) || (|s| > 1 && (s[0] == '-' || s[0] == '+') && AllDigits(s[1..])) {
      assert IsDigit(s[|s| - 1]) by {
        if !AllDigits(s) {
          assert s[|s| - 1] == s[1..][|s| - 2];
        }
      }
      TrimTrimmed(s);
    }
  }

  /** Decimal text of a natural number. */
  function FormatNat(n: nat): (r: string)
    ensures |r| > 0 && AllDigits(r)
  {
    var d := [(n % 10 + '0' as int) as char];
    if n < 10 then d else FormatNat(n / 10) + d
  }

  /** Decimal text of an integer, as Int32.ToString() writes it. */
  function FormatInt(n: int): (r: string)
    ensures |r| > 0 && IsTrimmed(r)
  {
    if n < 0 then "-" + FormatNat(-n) else FormatNat(n)
  }

  lemma {:induction false} DigitsOfFormatNat(n: nat)
    ensures DigitsValue(FormatNat(n)) == n
  {
    var r := FormatNat(n);
    if n >= 10 {
      DigitsOfFormatNat(n / 10);
      assert r[..|r| - 1] == FormatNat(n / 10);
    }
  }

  /**
   * int.Parse reads back every 32-bit integer from its decimal text, and
   * throws on the text of any integer outside that range.
   */
  lemma ParseFormatInt(n: int)
    ensures ParseInt32(FormatInt(n)) == if INT32_MIN <= n <= INT32_MAX then Some(n) else None
  {
    var s := FormatInt(n);
    if n < 0 {
      DigitsOfFormatNat(-n);
      assert s[1..] == FormatNat(-n);
    } else {
      DigitsOfFormatNat(n);
    }
  }

  // ---------------------------------------------------------------------
  // ToEnum (A2LEngine/Helpers.cs:40-43)
  // ---------------------------------------------------------------------

  /**
   * Enum.Parse(typeof(T), value, ignoreCase: true) over the members of an
   * enum and their names: None stands for the ArgumentException. Blank space
   * around the name is ignored, as Enum.Parse allows it before and after a name.
   */
  function ToEnum<T(==)>(value: string, members: seq<T>, name: T -> string): (r: Option<T>)
    ensures r.Some? ==> r.value in members && EqualsIgnoreCase(name(r.value), Trim(value))
    ensures r.None? ==> forall i | 0 <= i < |members| :: !EqualsIgnoreCase(name(members[i]), Trim(value))
  {
    FirstNamed(Trim(value), members, name)
  }

  /** The first member whose name equals key ignoring case. */
  function FirstNamed<T(==)>(key: string, members: seq<T>, name: T -> string): (r: Option<T>)
    ensures r.Some? ==> r.value in members && EqualsIgnoreCase(name(r.value), key)
    ensures r.None? ==> forall i | 0 <= i < |members| :: !EqualsIgnoreCase(name(members[i]), key)
  {
    if members == [] then None
    else if EqualsIgnoreCase(name(members[0]), key) then Some(members[0])
    else FirstNamed(key, members[1..], name)
  }

  /** Padding a name with blank space does not change what it parses to. */
  lemma ToEnumPadded<T>(value: string, members: seq<T>, name: T -> string)
    ensures ToEnum(value, members, name) == ToEnum(Trim(value), members, name)
  {
    TrimSpec(value);
    TrimTrimmed(Trim(value));
  }

  /** No lower-case ASCII letter occurs in s. */
  predicate NoLowercase(s: string) {
    forall k | 0 <= k < |s| :: !('a' <= s[k] <= 'z')
  }

  /** Ignoring case identifies two strings only by case, so upper-case names equal ignoring case are equal. */
  lemma EqualsIgnoreCaseUpper(a: string, b: string)
    requires NoLowercase(a) && NoLowercase(b) && EqualsIgnoreCase(a, b)
    ensures a == b
  {
    forall k | 0 <= k < |a| ensures a[k] == b[k] {
      assert Lower(a[k]) == Lower(b[k]);
    }
  }

  /**
   * When no other member's name equals x's ignoring case, parsing x's name
   * gives x back (a C# identifier, the name has no blank space at its ends).
   */
  lemma ToEnumName<T>(x: T, members: seq<T>, name: T -> string)
    requires x in members && IsTrimmed(name(x))
    requires forall y | y in members && EqualsIgnoreCase(name(y), name(x)) :: y == x
    ensures ToEnum(name(x), members, name) == Some(x)
  {
    TrimTrimmed(name(x));
  }
}
