/** The parts of Python's `str` behaviour the model relies on: `isspace`,
    `strip`, `lower`, `upper`, `in` (substring test), `startswith`,
    `find`/`rfind`, `split` on one character and `join`.
    A `char` is a Unicode scalar value. Whitespace follows Python over the
    whole Unicode range. `lower` covers Basic Latin and the Latin-1
    Supplement, `upper` covers Basic Latin only, and both leave every other
    character unchanged. */
module Text {

  /** Python's `str.isspace` for one character. */
  predicate IsSpace(c: char) {
    || ('\t' <= c <= '\r')
    || ('\U{1C}' <= c <= ' ')
    || c == '\U{85}' || c == '\U{A0}' || c == '\U{1680}'
    || ('\U{2000}' <= c <= '\U{200A}')
    || c == '\U{2028}' || c == '\U{2029}' || c == '\U{202F}' || c == '\U{205F}'
    || c == '\U{3000}'
  }

  /** Length of the whitespace run at the start of `s`. */
  function LeadingSpaces(s: string): (n: nat)
    ensures n <= |s|
    ensures forall k :: 0 <= k < n ==> IsSpace(s[k])
    ensures n < |s| ==> !IsSpace(s[n])
  {
    if |s| == 0 || !IsSpace(s[0]) then 0
    else
      var m := LeadingSpaces(s[1..]);
      assert forall k :: 1 <= k < m + 1 ==> s[k] == s[1..][k - 1];
      m + 1
  }

  /** Length of the whitespace run at the end of `s`. */
  function TrailingSpaces(s: string): (n: nat)
    ensures n <= |s|
    ensures forall k :: |s| - n <= k < |s| ==> IsSpace(s[k])
    ensures n < |s| ==> !IsSpace(s[|s| - 1 - n])
  {
    if |s| == 0 || !IsSpace(s[|s| - 1]) then 0
    else
      var m := TrailingSpaces(s[..|s| - 1]);
      assert forall k :: |s| - 1 - m <= k < |s| - 1 ==> s[k] == s[..|s| - 1][k];
      m + 1
  }

  /** `s` with the whitespace removed from both ends. */
  predicate IsStripOf(r: string, s: string, i: nat) {
    && i + |r| <= |s|
    && r == s[i..i + |r|]
    && (forall k :: 0 <= k < i ==> IsSpace(s[k]))
    && (forall k :: i + |r| <= k < |s| ==> IsSpace(s[k]))
  }

  /** Python's `str.strip()`: the longest inner slice of `s` framed by
      whitespace only, and itself not starting or ending with whitespace. */
  function Strip(s: string): (r: string)
    ensures IsStripOf(r, s, LeadingSpaces(s))
    ensures |r| > 0 ==> !IsSpace(r[0]) && !IsSpace(r[|r| - 1])
  {
    var a := LeadingSpaces(s);
    if a == |s| then ""
    else
      var b := TrailingSpaces(s);
      s[a..|s| - b]
  }

  /** `strip` leaves a string that neither starts nor ends with whitespace unchanged. */
  lemma StripUnframed(s: string)
    requires |s| > 0 && !IsSpace(s[0]) && !IsSpace(s[|s| - 1])
    ensures Strip(s) == s
  {
  }

  /** `strip` maps a string of whitespace only to the empty string. */
  lemma StripBlank(s: string)
    requires forall k :: 0 <= k < |s| ==> IsSpace(s[k])
    ensures Strip(s) == ""
  {
  }

  /** Python's `str.lower` for one character of Basic Latin or Latin-1. */
  function LowerChar(c: char): char {
    if ('A' <= c <= 'Z') || ('\U{C0}' <= c <= '\U{DE}' && c != '\U{D7}')
    then (c as int + 32) as char
    else c
  }

  /** Python's `str.upper` for one character of Basic Latin. */
  function UpperChar(c: char): char {
    if 'a' <= c <= 'z' then (c as int - 32) as char else c
  }

  function Lower(s: string): (r: string)
    ensures |r| == |s|
    ensures forall k :: 0 <= k < |s| ==> r[k] == LowerChar(s[k])
  {
    seq(|s|, k requires 0 <= k < |s| => LowerChar(s[k]))
  }

  function Upper(s: string): (r: string)
    ensures |r| == |s|
    ensures forall k :: 0 <= k < |s| ==> r[k] == UpperChar(s[k])
  {
    seq(|s|, k requires 0 <= k < |s| => UpperChar(s[k]))
  }

  /** A string that `lower` leaves unchanged. */
  predicate IsLower(s: string) {
    forall k :: 0 <= k < |s| ==> LowerChar(s[k]) == s[k]
  }

  lemma LowerIsLower(s: string)
    ensures IsLower(Lower(s))
    ensures Lower(Lower(s)) == Lower(s)
  {
  }

  lemma LowerOfLower(s: string)
    requires IsLower(s)
    ensures Lower(s) == s
  {
  }

  lemma LowerConcat(a: string, b: string)
    ensures Lower(a + b) == Lower(a) + Lower(b)
  {
  }

  /** `kw` occurs in `t` starting at index `i`. */
  predicate MatchesAt(t: string, kw: string, i: int) {
    0 <= i && i + |kw| <= |t| && t[i..i + |kw|] == kw
  }

  /** Python's `kw in t` for two strings; a keyword longer than the text
      never occurs in it. */
  predicate Contains(t: string, kw: string)
    ensures Contains(t, kw) ==> |kw| <= |t|
  {
    exists i | 0 <= i <= |t| - |kw| :: MatchesAt(t, kw, i)
  }

  lemma ContainsLeft(a: string, b: string, kw: string)
    requires Contains(a, kw)
    ensures Contains(a + b, kw)
  {
    var i :| 0 <= i <= |a| - |kw| && MatchesAt(a, kw, i);
    assert (a + b)[i..i + |kw|] == a[i..i + |kw|];
    assert MatchesAt(a + b, kw, i);
  }

  lemma ContainsRight(a: string, b: string, kw: string)
    requires Contains(b, kw)
    ensures Contains(a + b, kw)
  {
    var i :| 0 <= i <= |b| - |kw| && MatchesAt(b, kw, i);
    assert (a + b)[|a| + i..|a| + i + |kw|] == b[i..i + |kw|];
    assert MatchesAt(a + b, kw, |a| + i);
  }

  /** Python's `s.startswith(p)`. */
  predicate StartsWith(s: string, p: string) {
    |p| <= |s| && s[..|p|] == p
  }

  /** Python's `s.find(c)`: the first index of `c`, or -1. */
  function Find(s: string, c: char): (r: int)
    ensures -1 <= r < |s|
    ensures r == -1 <==> c !in s
    ensures r >= 0 ==> s[r] == c && c !in s[..r]
  {
    if |s| == 0 then -1
    else if s[0] == c then 0
    else
      var k := Find(s[1..], c);
      if k < 0 then -1
      else
        assert s[..k + 1] == [s[0]] + s[1..][..k];
        k + 1
  }

  /** The last index below `n` holding `c`, or -1. */
  function LastIndexBelow(s: string, c: char, n: nat): (r: int)
    requires n <= |s|
    ensures -1 <= r < n
    ensures r >= 0 ==> s[r] == c
    ensures forall k :: r < k < n ==> s[k] != c
  {
    if n == 0 then -1
    else if s[n - 1] == c then n - 1
    else LastIndexBelow(s, c, n - 1)
  }

  /** Python's `s.rfind(c)`: the last index of `c`, or -1. */
  function RFind(s: string, c: char): (r: int)
    ensures -1 <= r < |s|
    ensures r == -1 <==> c !in s
    ensures r >= 0 ==> s[r] == c
    ensures forall k :: r < k < |s| ==> s[k] != c
  {
    LastIndexBelow(s, c, |s|)
  }

  /** Python's `sep.join(parts)`: starts with the first part and ends with
      the last; joining one part gives it back. */
  function Join(parts: seq<string>, sep: string): (r: string)
    ensures |parts| > 0 ==> StartsWith(r, parts[0])
  {
    if |parts| == 0 then ""
    else if |parts| == 1 then parts[0]
    else parts[0] + sep + Join(parts[1..], sep)
  }

  /** Python's `s.split(sep)` for a one-character separator: the pieces
      between separators, never empty as a list, none holding `sep`, and
      joining them back with `sep` gives `s`. */
  function Split(s: string, sep: char): (r: seq<string>)
    ensures |r| >= 1
    ensures forall k :: 0 <= k < |r| ==> sep !in r[k]
    ensures Join(r, [sep]) == s
    decreases |s|
  {
    var k := Find(s, sep);
    if k < 0 then [s]
    else
      var rest := Split(s[k + 1..], sep);
      assert s == s[..k] + [sep] + s[k + 1..];
      [s[..k]] + rest
  }

  lemma FindAt(s: string, c: char, i: nat)
    requires i < |s| && s[i] == c && c !in s[..i]
    ensures Find(s, c) == i
  {
  }

  /** Splitting a join undoes it when no part holds the separator. */
  lemma {:induction false} SplitJoin(parts: seq<string>, sep: char)
    requires |parts| >= 1
    requires forall k :: 0 <= k < |parts| ==> sep !in parts[k]
    ensures Split(Join(parts, [sep]), sep) == parts
    decreases |parts|
  {
    if |parts| == 1 {
      assert Find(parts[0], sep) == -1;
    } else {
      var tail := Join(parts[1..], [sep]);
      assert Join(parts, [sep]) == parts[0] + [sep] + tail;
      SplitAppend(parts[0], tail, sep);
      SplitJoin(parts[1..], sep);
      assert parts == [parts[0]] + parts[1..];
    }
  }

  /** Splitting at a separator inside the text. */
  lemma {:induction false} SplitAppend(a: string, b: string, sep: char)
    requires sep !in a
    ensures Split(a + [sep] + b, sep) == [a] + Split(b, sep)
  {
    var s := a + [sep] + b;
    assert s[..|a|] == a;
    FindAt(s, sep, |a|);
    assert s[|a| + 1..] == b;
  }

  /** Joining two non-empty lists puts one separator between their joins. */
  lemma {:induction false} JoinConcat(xs: seq<string>, ys: seq<string>, sep: string)
    requires |xs| > 0 && |ys| > 0
    ensures Join(xs + ys, sep) == Join(xs, sep) + sep + Join(ys, sep)
    decreases |xs|
  {
    if |xs| > 1 {
      JoinConcat(xs[1..], ys, sep);
      assert (xs + ys)[1..] == xs[1..] + ys;
    }
  }

  /** Every part of a join occurs in it. */
  lemma {:induction false} JoinContainsPart(parts: seq<string>, sep: string, k: nat)
    requires k < |parts|
    ensures Contains(Join(parts, sep), parts[k])
    decreases k
  {
    if |parts| == 1 {
      assert MatchesAt(parts[0], parts[0], 0);
    } else if k == 0 {
      assert MatchesAt(parts[0], parts[0], 0);
      ContainsLeft(parts[0], sep + Join(parts[1..], sep), parts[0]);
      assert parts[0] + (sep + Join(parts[1..], sep)) == Join(parts, sep);
    } else {
      JoinContainsPart(parts[1..], sep, k - 1);
      ContainsRight(parts[0] + sep, Join(parts[1..], sep), parts[k]);
      assert parts[0] + sep + Join(parts[1..], sep) == Join(parts, sep);
    }
  }

  /** `in` is transitive. */
  lemma ContainsTrans(a: string, b: string, c: string)
    requires Contains(a, b) && Contains(b, c)
    ensures Contains(a, c)
  {
    var i :| 0 <= i <= |a| - |b| && MatchesAt(a, b, i);
    var j :| 0 <= j <= |b| - |c| && MatchesAt(b, c, j);
    assert forall m :: 0 <= m < |c| ==> a[i + j..i + j + |c|][m] == b[j + m] == c[m];
    assert MatchesAt(a, c, i + j);
  }

  /** A prefix of the stripped text occurs in the text. */
  lemma StripPrefixContained(s: string, p: string)
    requires StartsWith(Strip(s), p)
    ensures Contains(s, p)
  {
    var a := LeadingSpaces(s);
    var r := Strip(s);
    assert s[a..a + |p|] == r[..|p|];
    assert MatchesAt(s, p, a);
  }

  /** Appending a separator, a part and a separator adds that part and an
      empty one to the split. */
  lemma SplitAppendPart(s: string, part: string, sep: char)
    requires sep !in part
    ensures Split(s + [sep] + part + [sep], sep) == Split(s, sep) + [part, ""]
  {
    var all := Split(s, sep) + [part, ""];
    JoinAppendPart(s, part, sep);
    assert forall k :: 0 <= k < |all| ==> sep !in all[k];
    SplitJoin(all, sep);
  }

  lemma JoinAppendPart(s: string, part: string, sep: char)
    ensures Join(Split(s, sep) + [part, ""], [sep]) == s + [sep] + part + [sep]
  {
    JoinConcat(Split(s, sep), [part, ""], [sep]);
    assert Join([part, ""], [sep]) == part + [sep] + "";
  }

  /** A text without the separator splits into itself. */
  lemma SplitSingle(s: string, sep: char)
    requires sep !in s
    ensures Split(s, sep) == [s]
  {
  }

  /** Replacing one part of a split by a part without the separator and
      joining again splits back to the replaced list. */
  lemma SplitJoinUpdate(s: string, i: nat, part: string, sep: char)
    requires i < |Split(s, sep)| && sep !in part
    ensures Split(Join(Split(s, sep)[i := part], [sep]), sep) == Split(s, sep)[i := part]
  {
    var updated := Split(s, sep)[i := part];
    assert forall k :: 0 <= k < |updated| ==> sep !in updated[k];
    SplitJoin(updated, sep);
  }
}
