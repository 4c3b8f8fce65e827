/** The token generator script: the hexadecimal token `secrets.token_hex(16)`
    gives, the rewrite of the `.env` content that stores it, and the exit
    code of the script. The random bytes and the file are inputs. */
module GenerateToken {
  import opened Text
  import opened Wrappers
  import opened SecurityModel

  /** A value of one byte. */
  type Byte = b: int | 0 <= b < 256

  const HexDigits: string := "0123456789abcdef"

  /** `bytes.hex()`: two lower-case hex digits per byte, high nibble first. */
  function TokenHex(bytes: seq<Byte>): (t: string)
    ensures |t| == 2 * |bytes|
    ensures forall k :: 0 <= k < |bytes| ==> t[2 * k] == HexDigits[bytes[k] / 16] && t[2 * k + 1] == HexDigits[bytes[k] % 16]
  {
    if |bytes| == 0 then ""
    else
      var rest := TokenHex(bytes[1..]);
      var t := [HexDigits[bytes[0] / 16], HexDigits[bytes[0] % 16]] + rest;
      assert forall k :: 1 <= k < |bytes| ==> bytes[k] == bytes[1..][k - 1] && t[2 * k] == rest[2 * (k - 1)];
      t
  }

  /** A text without white space, as every generated token is. */
  predicate Blankless(s: string) {
    forall k :: 0 <= k < |s| ==> !IsSpace(s[k])
  }

  /** Every character of the hex of some bytes is a lower-case hex digit. */
  lemma TokenHexDigits(bytes: seq<Byte>)
    ensures forall k :: 0 <= k < |TokenHex(bytes)| ==> IsLowerHexDigit(TokenHex(bytes)[k])
  {
    var t := TokenHex(bytes);
    HexDigitsLower();
    forall k | 0 <= k < |t|
      ensures IsLowerHexDigit(t[k])
    {
      var j := k / 2;
      if k % 2 == 0 {
        assert k == 2 * j;
        assert t[k] == HexDigits[bytes[j] / 16];
      } else {
        assert k == 2 * j + 1;
        assert t[k] == HexDigits[bytes[j] % 16];
      }
    }
  }

  lemma HexDigitsLower()
    ensures forall i :: 0 <= i < |HexDigits| ==> IsLowerHexDigit(HexDigits[i])
  {
  }

  /** Sixteen random bytes give a token the script's format check accepts,
      and one without white space. */
  lemma TokenHexAccepted(bytes: seq<Byte>)
    requires |bytes| == 16
    ensures MatchesTokenPattern(TokenHex(bytes))
    ensures Blankless(TokenHex(bytes))
  {
    TokenHexDigits(bytes);
  }

  /** The key of the token line. */
  const TokenKey: string := "API_TOKEN="

  /** The line that stores `token`. */
  function TokenLine(token: string): string {
    TokenKey + token
  }

  /** `line.strip().startswith("API_TOKEN=")`. */
  predicate IsTokenLine(line: string) {
    StartsWith(Strip(line), TokenKey)
  }

  /** Index of the first token line, or -1 when there is none. */
  function FirstTokenLine(lines: seq<string>): (i: int)
    ensures -1 <= i < |lines|
    ensures i >= 0 ==> IsTokenLine(lines[i])
    ensures forall k :: 0 <= k < |lines| && (i < 0 || k < i) ==> !IsTokenLine(lines[k])
  {
    if |lines| == 0 then -1
    else if IsTokenLine(lines[0]) then 0
    else
      var j := FirstTokenLine(lines[1..]);
      assert forall k :: 1 <= k < |lines| ==> lines[k] == lines[1..][k - 1];
      if j < 0 then -1 else j + 1
  }

  /** The line found first is the first line that is a token line. */
  lemma FirstTokenLineAt(lines: seq<string>, i: nat)
    requires i < |lines| && IsTokenLine(lines[i])
    requires forall k :: 0 <= k < i ==> !IsTokenLine(lines[k])
    ensures FirstTokenLine(lines) == i
  {
  }

  /** The content `update_env_file` writes: the first token line replaced by
      the new one when "API_TOKEN=" occurs anywhere, else the new line
      appended after a line break. */
  function RewriteEnv(content: string, token: string): (r: string)
    ensures !Contains(content, TokenKey) ==> r == content + "\n" + TokenLine(token) + "\n"
    ensures Contains(content, TokenKey) && FirstTokenLine(Split(content, '\n')) < 0 ==> r == content
  {
    if Contains(content, TokenKey) then
      var lines := Split(content, '\n');
      var i := FirstTokenLine(lines);
      Join(if i >= 0 then lines[i := TokenLine(token)] else lines, "\n")
    else content + "\n" + TokenLine(token) + "\n"
  }

  /** A token without white space makes a token line without a line break. */
  lemma TokenLineShape(token: string)
    requires Blankless(token)
    ensures IsTokenLine(TokenLine(token)) && '\n' !in TokenLine(token)
  {
    var l := TokenLine(token);
    assert l[|l| - 1] == if |token| == 0 then '=' else token[|token| - 1];
    StripUnframed(l);
  }

  /** A content with a token line holds the key. */
  lemma KeyInTokenLine(content: string, k: nat)
    requires k < |Split(content, '\n')| && IsTokenLine(Split(content, '\n')[k])
    ensures Contains(content, TokenKey)
  {
    var lines := Split(content, '\n');
    StripPrefixContained(lines[k], TokenKey);
    JoinContainsPart(lines, "\n", k);
    ContainsTrans(content, lines[k], TokenKey);
  }

  /** With a token line present, the rewrite changes that line only: the
      other lines and the line count stay as they were. */
  lemma RewriteReplacesLine(content: string, token: string)
    requires Blankless(token)
    requires FirstTokenLine(Split(content, '\n')) >= 0
    ensures var lines := Split(content, '\n');
      Split(RewriteEnv(content, token), '\n') == lines[FirstTokenLine(lines) := TokenLine(token)]
  {
    var i := FirstTokenLine(Split(content, '\n'));
    KeyInTokenLine(content, i);
    TokenLineShape(token);
    SplitJoinUpdate(content, i, TokenLine(token), '\n');
  }

  /** Without the key, the rewrite adds the token line and an empty line
      after the existing lines. */
  lemma RewriteAppendsLine(content: string, token: string)
    requires Blankless(token)
    requires !Contains(content, TokenKey)
    ensures Split(RewriteEnv(content, token), '\n') == Split(content, '\n') + [TokenLine(token), ""]
  {
    TokenLineShape(token);
    SplitAppendPart(content, TokenLine(token), '\n');
  }

  /** No line of a content without the key is a token line. */
  lemma NoKeyNoTokenLine(content: string)
    requires !Contains(content, TokenKey)
    ensures forall k :: 0 <= k < |Split(content, '\n')| ==> !IsTokenLine(Split(content, '\n')[k])
  {
    forall k | 0 <= k < |Split(content, '\n')|
      ensures !IsTokenLine(Split(content, '\n')[k])
    {
      if IsTokenLine(Split(content, '\n')[k]) {
        KeyInTokenLine(content, k);
      }
    }
  }

  /** The rewrite of a content holding the key whose first token line is `i`. */
  lemma RewriteAt(content: string, token: string, lines: seq<string>, i: nat)
    requires Contains(content, TokenKey) && lines == Split(content, '\n')
    requires i < |lines| && FirstTokenLine(lines) == i
    ensures RewriteEnv(content, token) == Join(lines[i := TokenLine(token)], "\n")
  {
  }

  /** Rewriting twice with the same token writes what rewriting once does. */
  lemma RewriteIdempotent(content: string, token: string)
    requires Blankless(token)
    ensures RewriteEnv(RewriteEnv(content, token), token) == RewriteEnv(content, token)
  {
    if FirstTokenLine(Split(content, '\n')) >= 0 {
      IdempotentOnTokenLine(content, token);
    } else if !Contains(content, TokenKey) {
      IdempotentOnAppend(content, token);
    }
  }

  lemma IdempotentOnTokenLine(content: string, token: string)
    requires Blankless(token)
    requires FirstTokenLine(Split(content, '\n')) >= 0
    ensures RewriteEnv(RewriteEnv(content, token), token) == RewriteEnv(content, token)
  {
    var lines := Split(content, '\n');
    var i := FirstTokenLine(lines);
    var updated := lines[i := TokenLine(token)];
    var r := Join(updated, "\n");
    KeyInTokenLine(content, i);
    RewriteAt(content, token, lines, i);
    RewrittenLines(content, token);
    RewriteAt(r, token, updated, i);
    assert updated[i := TokenLine(token)] == updated;
  }

  /** After replacing the first token line, the result splits into the
      replaced lines, holds the key, and has its token line at the same index. */
  lemma RewrittenLines(content: string, token: string)
    requires Blankless(token)
    requires FirstTokenLine(Split(content, '\n')) >= 0
    ensures var lines := Split(content, '\n');
      var i := FirstTokenLine(lines);
      var r := Join(lines[i := TokenLine(token)], "\n");
      && Split(r, '\n') == lines[i := TokenLine(token)]
      && FirstTokenLine(Split(r, '\n')) == i
      && Contains(r, TokenKey)
  {
    var lines := Split(content, '\n');
    var i := FirstTokenLine(lines);
    var r := Join(lines[i := TokenLine(token)], "\n");
    TokenLineShape(token);
    SplitJoinUpdate(content, i, TokenLine(token), '\n');
    ReplacedStaysFirst(lines, i, TokenLine(token));
    KeyInTokenLine(r, i);
  }

  lemma IdempotentOnAppend(content: string, token: string)
    requires Blankless(token)
    requires !Contains(content, TokenKey)
    ensures RewriteEnv(RewriteEnv(content, token), token) == RewriteEnv(content, token)
  {
    var lines := Split(content, '\n');
    var all := lines + [TokenLine(token), ""];
    var r := content + "\n" + TokenLine(token) + "\n";
    TokenLineShape(token);
    SplitAppendPart(content, TokenLine(token), '\n');
    JoinAppendPart(content, TokenLine(token), '\n');
    NoKeyNoTokenLine(content);
    FirstTokenLineAt(all, |lines|);
    KeyInTokenLine(r, |lines|);
    RewriteAt(r, token, all, |lines|);
    assert all[|lines| := TokenLine(token)] == all;
  }

  /** Replacing the first token line by another token line keeps it first. */
  lemma ReplacedStaysFirst(lines: seq<string>, i: nat, l: string)
    requires i < |lines| && FirstTokenLine(lines) == i && IsTokenLine(l)
    ensures FirstTokenLine(lines[i := l]) == i
  {
    FirstTokenLineAt(lines[i := l], i);
  }

  /** `update_env_file`: a missing `.env` is reported as failure and nothing
      is written; otherwise the rewritten content is written and success
      reported. The file's content is `None` when it does not exist. */
  function UpdateEnvFile(env: Option<string>, token: string): (r: (bool, Option<string>))
    ensures r.0 <==> env.Some?
    ensures r.1.Some? <==> env.Some?
    ensures env.Some? ==> r.1.value == RewriteEnv(env.value, token)
  {
    match env
    case None => (false, None)
    case Some(content) => (true, Some(RewriteEnv(content, token)))
  }

  /** The exit code of `main`: 1 for a token of the wrong format or a failed
      update, 0 otherwise. */
  function MainExitCode(token: string, env: Option<string>): (code: int)
    ensures code == 0 <==> MatchesTokenPattern(token) && env.Some?
    ensures code == 0 || code == 1
  {
    if !MatchesTokenPattern(token) then 1
    else if UpdateEnvFile(env, token).0 then 0
    else 1
  }

  /** With a generated token, the script succeeds exactly when `.env` exists. */
  lemma GeneratedTokenExit(bytes: seq<Byte>, env: Option<string>)
    requires |bytes| == 16
    ensures MainExitCode(TokenHex(bytes), env) == (if env.Some? then 0 else 1)
  {
    TokenHexAccepted(bytes);
  }

  /** A `.env` whose only mention of the key is in the middle of a line. */
  const MidLineKeyEnv: string := "OLD_API_TOKEN=x"

  /** The key occurs in the mid-line example. */
  lemma MidLineKeyFound()
    ensures Contains(MidLineKeyEnv, TokenKey)
  {
    assert MidLineKeyEnv[4..14] == TokenKey;
    assert MatchesAt(MidLineKeyEnv, TokenKey, 4);
  }

  /** A line that neither starts nor ends with white space and does not
      start with the key is not a token line. */
  lemma PlainLineNotTokenLine(line: string)
    requires |line| > 0 && !IsSpace(line[0]) && !IsSpace(line[|line| - 1])
    requires !StartsWith(line, TokenKey)
    ensures !IsTokenLine(line)
  {
    StripUnframed(line);
  }

  /** The mid-line example is a single line, and not a token line. */
  lemma MidLineNoTokenLine()
    ensures Split(MidLineKeyEnv, '\n') == [MidLineKeyEnv]
    ensures FirstTokenLine(Split(MidLineKeyEnv, '\n')) == -1
  {
    var c := MidLineKeyEnv;
    assert '\n' !in c;
    SplitSingle(c, '\n');
    assert c[0] != TokenKey[0];
    PlainLineNotTokenLine(c);
  }

  /** As written: when the key occurs but no line is a token line, the
      content is written back unchanged, the token is not stored, and
      success is still reported. */
  lemma KeyOnlyMidLine(content: string, token: string)
    requires Blankless(token)
    requires Contains(content, TokenKey) && FirstTokenLine(Split(content, '\n')) < 0
    ensures RewriteEnv(content, token) == content
    ensures TokenLine(token) !in Split(RewriteEnv(content, token), '\n')
    ensures UpdateEnvFile(Some(content), token) == (true, Some(content))
  {
    TokenLineShape(token);
  }

  /** The mid-line example: "OLD_API_TOKEN=x" keeps no new token. */
  lemma MidLineKeyNotWritten(token: string)
    requires Blankless(token)
    ensures RewriteEnv(MidLineKeyEnv, token) == MidLineKeyEnv
    ensures TokenLine(token) !in Split(RewriteEnv(MidLineKeyEnv, token), '\n')
    ensures UpdateEnvFile(Some(MidLineKeyEnv), token) == (true, Some(MidLineKeyEnv))
  {
    MidLineKeyFound();
    MidLineNoTokenLine();
    KeyOnlyMidLine(MidLineKeyEnv, token);
  }

  /** Corrected: the first token line is replaced when there is one, and the
      token line is appended in every other case. */
  function RewriteEnvFixed(content: string, token: string): (r: string)
    ensures FirstTokenLine(Split(content, '\n')) < 0 ==> r == content + "\n" + TokenLine(token) + "\n"
  {
    var lines := Split(content, '\n');
    var i := FirstTokenLine(lines);
    if i >= 0 then Join(lines[i := TokenLine(token)], "\n") else content + "\n" + TokenLine(token) + "\n"
  }

  /** The corrected rewrite always leaves a token line holding the new token,
      and it is the first token line. */
  lemma FixedRewriteStoresToken(content: string, token: string)
    requires Blankless(token)
    ensures var lines := Split(RewriteEnvFixed(content, token), '\n');
      FirstTokenLine(lines) >= 0 && lines[FirstTokenLine(lines)] == TokenLine(token)
  {
    var lines := Split(content, '\n');
    var i := FirstTokenLine(lines);
    TokenLineShape(token);
    if i >= 0 {
      SplitJoinUpdate(content, i, TokenLine(token), '\n');
      ReplacedStaysFirst(lines, i, TokenLine(token));
    } else {
      SplitAppendPart(content, TokenLine(token), '\n');
      FirstTokenLineAt(lines + [TokenLine(token), ""], |lines|);
    }
  }

  /** The corrected rewrite differs from the original only when the key
      occurs but no line is a token line. */
  lemma FixedAgreesElsewhere(content: string, token: string)
    requires FirstTokenLine(Split(content, '\n')) >= 0 || !Contains(content, TokenKey)
    ensures RewriteEnvFixed(content, token) == RewriteEnv(content, token)
  {
    var lines := Split(content, '\n');
    var i := FirstTokenLine(lines);
    if i >= 0 {
      KeyInTokenLine(content, i);
    }
  }
}
