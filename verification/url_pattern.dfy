/** The suspicious-link pattern `https?://[\w.-]+`, compiled with
    IGNORECASE, and Python's `findall` over it. `\w` is modelled for Basic
    Latin and Latin-1; other characters count as non-word characters. */
module UrlPattern {
  import opened Text
  import opened Wrappers

  /** Python's `\w` on Basic Latin and Latin-1: letters, digits, numeric signs and `_`. */
  predicate IsWordChar(c: char) {
    || ('a' <= c <= 'z') || ('A' <= c <= 'Z') || ('0' <= c <= '9') || c == '_'
    || c == '\U{AA}' || c == '\U{B2}' || c == '\U{B3}' || c == '\U{B5}'
    || c == '\U{B9}' || c == '\U{BA}' || ('\U{BC}' <= c <= '\U{BE}')
    || ('\U{C0}' <= c <= '\U{FF}' && c != '\U{D7}' && c != '\U{F7}')
  }

  /** The character class `[\w.-]`. */
  predicate IsHostChar(c: char) {
    IsWordChar(c) || c == '.' || c == '-'
  }

  /** A text character matches a lower-case ASCII pattern letter under
      IGNORECASE: the letter itself, its upper case, and for 's' also the
      long s U+017F, which Python's regex engine folds with it. No other
      character folds with 'h', 't' or 'p'. */
  predicate CiEq(c: char, p: char) {
    c == p || c == UpperChar(p) || (p == 's' && c == '\U{17F}')
  }

  /** `s` starts with `http` in any letter case. */
  predicate HttpAt(s: string, i: nat) {
    i + 4 <= |s| && CiEq(s[i], 'h') && CiEq(s[i + 1], 't') && CiEq(s[i + 2], 't') && CiEq(s[i + 3], 'p')
  }

  /** Index just past `http://` or `https://` starting at `i`, trying the
      optional `s` first as the regex engine does. */
  function SchemeEnd(t: string, i: nat): (r: Option<nat>)
    ensures r.Some? ==> i + 7 <= r.value <= |t| && HttpAt(t, i) && t[r.value - 3..r.value] == "://"
    ensures r.Some? && r.value == i + 8 ==> CiEq(t[i + 4], 's')
    ensures r.Some? ==> r.value == i + 7 || r.value == i + 8
    ensures HttpAt(t, i) && i + 8 <= |t| && CiEq(t[i + 4], 's') && t[i + 5..i + 8] == "://" ==> r == Some(i + 8)
    ensures HttpAt(t, i) && i + 7 <= |t| && t[i + 4..i + 7] == "://" ==> r == Some(i + 7)
  {
    if !HttpAt(t, i) then None
    else if i + 8 <= |t| && CiEq(t[i + 4], 's') && t[i + 5..i + 8] == "://" then Some(i + 8)
    else if i + 7 <= |t| && t[i + 4..i + 7] == "://" then Some(i + 7)
    else None
  }

  /** End of the maximal run of host characters starting at `j` (the greedy `[\w.-]+`). */
  function HostRunEnd(t: string, j: nat): (k: nat)
    requires j <= |t|
    ensures j <= k <= |t|
    ensures forall m :: j <= m < k ==> IsHostChar(t[m])
    ensures k < |t| ==> !IsHostChar(t[k])
    decreases |t| - j
  {
    if j == |t| || !IsHostChar(t[j]) then j else HostRunEnd(t, j + 1)
  }

  /** The scheme of a match: `http://` or `https://`, letters in any case. */
  predicate IsScheme(s: string) {
    || (|s| == 7 && HttpAt(s, 0) && s[4..] == "://")
    || (|s| == 8 && HttpAt(s, 0) && CiEq(s[4], 's') && s[5..] == "://")
  }

  /** What the pattern can match: a scheme followed by one or more host characters. */
  predicate IsUrlShape(u: string) {
    exists n | 7 <= n <= 8 :: n < |u| && IsScheme(u[..n]) && forall m :: n <= m < |u| ==> IsHostChar(u[m])
  }

  /** The pattern can match exactly `t[p..q]`. */
  predicate MatchesBetween(t: string, p: nat, q: nat) {
    p < q <= |t| && IsUrlShape(t[p..q])
  }

  /** Some match of the pattern starts at `p`. */
  predicate UrlStartsAt(t: string, p: nat) {
    exists q | p < q <= |t| :: MatchesBetween(t, p, q)
  }

  /** `t[p..q]` is a match that no host character follows, so `[\w.-]+`
      cannot extend it. */
  predicate GreedyMatch(t: string, p: nat, q: nat) {
    MatchesBetween(t, p, q) && (q == |t| || !IsHostChar(t[q]))
  }

  /** No match of the pattern starts in `[a, b)`. */
  predicate NoMatchIn(t: string, a: nat, b: nat) {
    forall p :: a <= p < b ==> !UrlStartsAt(t, p)
  }

  /** A scheme at `i` and a run of host characters after it form a match. */
  lemma SchemeThenHost(t: string, i: nat, j: nat, e: nat)
    requires SchemeEnd(t, i) == Some(j) && j < e <= |t|
    requires forall m :: j <= m < e ==> IsHostChar(t[m])
    ensures MatchesBetween(t, i, e)
  {
    var u := t[i..e];
    var n := j - i;
    assert u[..n] == t[i..j];
    assert IsScheme(u[..n]) by {
      if n == 7 {
        assert u[..n][4..] == t[j - 3..j];
      } else {
        assert u[..n][5..] == t[j - 3..j];
        assert u[..n][4] == t[i + 4];
      }
    }
    forall m | n <= m < |u| ensures IsHostChar(u[m]) {
      assert u[m] == t[i + m];
    }
  }

  /** Every match at `p` begins with the scheme `SchemeEnd` finds, followed only
      by host characters. */
  lemma MatchHasScheme(t: string, p: nat, q: nat)
    requires MatchesBetween(t, p, q)
    ensures SchemeEnd(t, p).Some? && SchemeEnd(t, p).value < q
    ensures forall m :: SchemeEnd(t, p).value <= m < q ==> IsHostChar(t[m])
  {
    var u := t[p..q];
    var n :| 7 <= n <= 8 && n < |u| && IsScheme(u[..n]) && forall m :: n <= m < |u| ==> IsHostChar(u[m]);
    assert HttpAt(t, p) by {
      assert u[..n][0] == t[p] && u[..n][1] == t[p + 1] && u[..n][2] == t[p + 2] && u[..n][3] == t[p + 3];
    }
    assert u[..n] == t[p..p + n];
    if n == 7 {
      assert t[p..p + 7][4..] == t[p + 4..p + 7];
      assert SchemeEnd(t, p) == Some(p + 7);
    } else {
      assert t[p..p + 8][5..] == t[p + 5..p + 8];
      assert t[p..p + 8][4] == t[p + 4];
      assert SchemeEnd(t, p) == Some(p + 8);
    }
    forall m | p + n <= m < q ensures IsHostChar(t[m]) {
      assert t[m] == u[m - p];
    }
  }

  /** End of the match of the whole pattern at `i`, if it matches there: the
      scheme, then the greedy run of host characters. */
  function MatchEnd(t: string, i: nat): (r: Option<nat>)
    ensures r.Some? ==> GreedyMatch(t, i, r.value)
  {
    match SchemeEnd(t, i)
    case None => None
    case Some(j) =>
      if j < |t| && IsHostChar(t[j]) then
        var e := HostRunEnd(t, j);
        SchemeThenHost(t, i, j, e);
        Some(e)
      else None
  }

  /** The pattern matches at `p` exactly when `MatchEnd` finds a match there,
      and that match is the longest one starting at `p`. */
  lemma MatchEndIff(t: string, p: nat)
    ensures MatchEnd(t, p).Some? <==> UrlStartsAt(t, p)
    ensures MatchEnd(t, p).Some? ==> forall q: nat :: MatchesBetween(t, p, q) ==> q <= MatchEnd(t, p).value
  {
    if UrlStartsAt(t, p) {
      var q :| MatchesBetween(t, p, q);
      MatchHasScheme(t, p, q);
    }
    if MatchEnd(t, p).Some? {
      var e := MatchEnd(t, p).value;
      assert MatchesBetween(t, p, e);
      forall q: nat | MatchesBetween(t, p, q) ensures q <= e {
        MatchHasScheme(t, p, q);
      }
    }
  }

  /** Start and end of each match Python's `findall` reports when scanning
      from `i`: at each position, take the greedy match there and resume at
      its end, or move one character on. */
  function SpansFrom(t: string, i: nat): seq<(nat, nat)>
    requires i <= |t|
    decreases |t| - i
  {
    if i == |t| then []
    else
      match MatchEnd(t, i)
      case Some(e) => [(i, e)] + SpansFrom(t, e)
      case None => SpansFrom(t, i + 1)
  }

  /** Every span of `r` starts at or after `i` and is the greedy match at its start. */
  predicate AllGreedy(t: string, r: seq<(nat, nat)>, i: nat) {
    forall k :: 0 <= k < |r| ==> i <= r[k].0 && GreedyMatch(t, r[k].0, r[k].1)
  }

  /** The spans of `r` are in order without overlap. */
  predicate InOrder(r: seq<(nat, nat)>) {
    forall k :: 0 < k < |r| ==> r[k - 1].1 <= r[k].0
  }

  lemma GreedyCons(t: string, i: nat, e: nat, rest: seq<(nat, nat)>)
    requires i < e && GreedyMatch(t, i, e)
    requires AllGreedy(t, rest, e) && InOrder(rest)
    ensures AllGreedy(t, [(i, e)] + rest, i) && InOrder([(i, e)] + rest)
  {
    var r := [(i, e)] + rest;
    assert forall k :: 0 < k < |r| ==> r[k] == rest[k - 1];
  }

  /** Each span is the greedy match at its start, and the spans are in order
      without overlap. */
  lemma {:induction false} SpansFromGreedy(t: string, i: nat)
    requires i <= |t|
    ensures AllGreedy(t, SpansFrom(t, i), i) && InOrder(SpansFrom(t, i))
    decreases |t| - i
  {
    if i < |t| {
      match MatchEnd(t, i)
      case Some(e) =>
        var rest := SpansFrom(t, e);
        assert SpansFrom(t, i) == [(i, e)] + rest;
        SpansFromGreedy(t, e);
        GreedyCons(t, i, e, rest);
      case None =>
        SpansFromGreedy(t, i + 1);
        var r := SpansFrom(t, i);
        assert forall k :: 0 <= k < |r| ==> i + 1 <= r[k].0;
    }
  }

  /** No match starts at the positions a scan steps over. */
  lemma NoMatchStep(t: string, i: nat, b: nat)
    requires i < |t| && MatchEnd(t, i).None? && NoMatchIn(t, i + 1, b)
    ensures NoMatchIn(t, i, b)
  {
    MatchEndIff(t, i);
  }

  /** The first span starts at the leftmost match from `i`. */
  lemma {:induction false} SpansFromFirst(t: string, i: nat)
    requires i <= |t|
    ensures SpansFrom(t, i) != [] ==> NoMatchIn(t, i, SpansFrom(t, i)[0].0)
    decreases |t| - i
  {
    if i < |t| && MatchEnd(t, i).None? && SpansFrom(t, i) != [] {
      SpansFromFirst(t, i + 1);
      NoMatchStep(t, i, SpansFrom(t, i)[0].0);
    }
  }

  /** Where a scan from `i` that reported the spans `r` resumed last. */
  function LastEnd(r: seq<(nat, nat)>, i: nat): nat {
    if r == [] then i else r[|r| - 1].1
  }

  lemma LastEndCons(x: (nat, nat), rest: seq<(nat, nat)>, i: nat)
    ensures LastEnd([x] + rest, i) == LastEnd(rest, x.1)
  {
    if rest != [] {
      assert ([x] + rest)[|rest|] == rest[|rest| - 1];
    }
  }

  /** No match starts after the last span. */
  lemma {:induction false} SpansFromLast(t: string, i: nat)
    requires i <= |t|
    ensures NoMatchIn(t, LastEnd(SpansFrom(t, i), i), |t|)
    decreases |t| - i
  {
    if i < |t| {
      match MatchEnd(t, i)
      case Some(e) =>
        SpansFromLast(t, e);
        LastEndCons((i, e), SpansFrom(t, e), i);
      case None =>
        SpansFromLast(t, i + 1);
        if SpansFrom(t, i) == [] {
          NoMatchStep(t, i, |t|);
        }
    }
  }

  /** Between consecutive spans of `r` no match starts. */
  predicate NoSkips(t: string, r: seq<(nat, nat)>) {
    forall k :: 0 < k < |r| ==> NoMatchIn(t, r[k - 1].1, r[k].0)
  }

  lemma NoSkipsCons(t: string, x: (nat, nat), rest: seq<(nat, nat)>)
    requires NoSkips(t, rest)
    requires rest != [] ==> NoMatchIn(t, x.1, rest[0].0)
    ensures NoSkips(t, [x] + rest)
  {
    var r := [x] + rest;
    forall k | 0 < k < |r| ensures NoMatchIn(t, r[k - 1].1, r[k].0) {
      if k > 1 {
        assert r[k - 1] == rest[k - 2] && r[k] == rest[k - 1];
      }
    }
  }

  /** Each span after the first starts at the leftmost match after the previous one. */
  lemma {:induction false} SpansFromNext(t: string, i: nat)
    requires i <= |t|
    ensures NoSkips(t, SpansFrom(t, i))
    decreases |t| - i
  {
    if i < |t| {
      match MatchEnd(t, i)
      case Some(e) =>
        var rest := SpansFrom(t, e);
        assert SpansFrom(t, i) == [(i, e)] + rest;
        SpansFromNext(t, e);
        SpansFromFirst(t, e);
        NoSkipsCons(t, (i, e), rest);
      case None =>
        SpansFromNext(t, i + 1);
    }
  }

  /** The spans of `SUSPICIOUS_URL_PATTERN.findall(t)`. */
  function Spans(t: string): (r: seq<(nat, nat)>)
    ensures forall k :: 0 <= k < |r| ==> GreedyMatch(t, r[k].0, r[k].1)
    ensures forall k :: 0 < k < |r| ==> r[k - 1].1 <= r[k].0
    ensures r != [] ==> NoMatchIn(t, 0, r[0].0)
    ensures forall k :: 0 < k < |r| ==> NoMatchIn(t, r[k - 1].1, r[k].0)
    ensures NoMatchIn(t, if r == [] then 0 else r[|r| - 1].1, |t|)
  {
    SpansFromGreedy(t, 0);
    SpansFromFirst(t, 0);
    SpansFromNext(t, 0);
    SpansFromLast(t, 0);
    assert LastEnd(SpansFrom(t, 0), 0) == if SpansFrom(t, 0) == [] then 0 else SpansFrom(t, 0)[|SpansFrom(t, 0)| - 1].1;
    SpansFrom(t, 0)
  }

  /** `findall` finds something exactly when the pattern matches somewhere. */
  lemma SpansNonEmptyIff(t: string)
    ensures Spans(t) != [] <==> exists p, q :: MatchesBetween(t, p, q)
  {
    if exists p, q :: MatchesBetween(t, p, q) {
      var p, q :| MatchesBetween(t, p, q);
      assert UrlStartsAt(t, p);
    }
  }

  /** The text of each span is a link shape occurring in `t`. */
  lemma SpanTexts(t: string, r: seq<string>)
    requires |r| == |Spans(t)|
    requires forall k :: 0 <= k < |r| ==> r[k] == t[Spans(t)[k].0..Spans(t)[k].1]
    ensures forall u :: u in r ==> IsUrlShape(u) && Contains(t, u)
  {
    var s := Spans(t);
    forall u | u in r ensures IsUrlShape(u) && Contains(t, u) {
      var k :| 0 <= k < |r| && r[k] == u;
      assert MatchesAt(t, u, s[k].0);
    }
  }

  /** `SUSPICIOUS_URL_PATTERN.findall(t)`: the text of each span, in order. */
  function FindAll(t: string): (r: seq<string>)
    ensures |r| == |Spans(t)|
    ensures forall k :: 0 <= k < |r| ==> r[k] == t[Spans(t)[k].0..Spans(t)[k].1]
    ensures forall u :: u in r ==> IsUrlShape(u) && Contains(t, u)
    ensures r != [] <==> exists p, q :: MatchesBetween(t, p, q)
  {
    var s := Spans(t);
    var r := seq(|s|, k requires 0 <= k < |s| => t[s[k].0..s[k].1]);
    SpanTexts(t, r);
    SpansNonEmptyIff(t);
    r
  }

  /** The long s stands for the optional `s`: `httpſ://x` is a link. */
  lemma LongSLink()
    ensures SchemeEnd("http\U{17F}://x", 0) == Some(8)
    ensures FindAll("http\U{17F}://x") == ["http\U{17F}://x"]
  {
    var t := "http\U{17F}://x";
    SchemeThenHost(t, 0, 8, 9);
    assert t[0..9] == t;
    var r := Spans(t);
    assert r != [];
    assert UrlStartsAt(t, 0);
    assert r[0].0 == 0;
    MatchEndIff(t, 0);
    assert r[0].1 == 9;
    assert |r| == 1;
  }
}
