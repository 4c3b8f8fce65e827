/** The request and result schemas: the validated `SecurityResult` record,
    the closed set of AI providers, and the field validators of an analysis
    request (text length, `provider:model` format, 32-hex-digit token). */
module SecurityModel {
  import opened Text
  import opened Wrappers

  /** A verdict as the service returns it. */
  datatype SecurityResult = SecurityResult(
    isSafe: bool,
    score: real,
    categoryScores: map<string, real>,
    reasons: seq<string>,
    suggestions: seq<string>,
    modelUsed: string)

  /** Why a schema refused a value. */
  datatype ValidationError =
    | ScoreOutOfRange(score: real)
    | InvalidFields(fields: seq<string>)

  /** The declared range of `score`: at least 0 and at most 1. */
  predicate ScoreInRange(score: real) {
    0.0 <= score <= 1.0
  }

  /** Building a `SecurityResult`: validation refuses a score outside [0, 1],
      and the record keeps every field as given otherwise. */
  function NewSecurityResult(
    isSafe: bool, score: real, categoryScores: map<string, real>,
    reasons: seq<string>, suggestions: seq<string>, modelUsed: string
  ): (r: Result<SecurityResult, ValidationError>)
    ensures r.Success? <==> ScoreInRange(score)
    ensures r.Failure? ==> r.error == ScoreOutOfRange(score)
    ensures r.Success? ==> r.value.isSafe == isSafe && r.value.score == score
    ensures r.Success? ==> r.value.categoryScores == categoryScores && r.value.modelUsed == modelUsed
    ensures r.Success? ==> r.value.reasons == reasons && r.value.suggestions == suggestions
  {
    if ScoreInRange(score)
    then Success(SecurityResult(isSafe, score, categoryScores, reasons, suggestions, modelUsed))
    else Failure(ScoreOutOfRange(score))
  }

  /** Field defaults: no category scores, reasons or suggestions, and no model. */
  const DefaultCategoryScores: map<string, real> := map[]
  const DefaultReasons: seq<string> := []
  const DefaultSuggestions: seq<string> := []
  const DefaultModelUsed: string := ""

  /** A `SecurityResult` built from the two required fields only. */
  function NewSecurityResultWithDefaults(isSafe: bool, score: real): (r: Result<SecurityResult, ValidationError>)
    ensures r.Success? <==> ScoreInRange(score)
    ensures r.Success? ==> r.value.categoryScores == map[] && r.value.reasons == []
    ensures r.Success? ==> r.value.suggestions == [] && r.value.modelUsed == ""
  {
    NewSecurityResult(isSafe, score, DefaultCategoryScores, DefaultReasons, DefaultSuggestions, DefaultModelUsed)
  }

  /** `AIModelProvider`, a closed enumeration of five providers. */
  datatype Provider = OpenAI | Anthropic | Google | Mistral | Cohere

  function ProviderValue(p: Provider): string {
    match p
    case OpenAI => "openai"
    case Anthropic => "anthropic"
    case Google => "google"
    case Mistral => "mistral"
    case Cohere => "cohere"
  }

  /** `AIModelProvider(s)`: the provider whose value is exactly `s`, if any. */
  function ProviderFromValue(s: string): (r: Option<Provider>)
    ensures r.Some? ==> ProviderValue(r.value) == s
    ensures r.None? ==> forall p :: ProviderValue(p) != s
  {
    if s == "openai" then Some(OpenAI)
    else if s == "anthropic" then Some(Anthropic)
    else if s == "google" then Some(Google)
    else if s == "mistral" then Some(Mistral)
    else if s == "cohere" then Some(Cohere)
    else None
  }

  /** Every provider is recovered from its value. */
  lemma ProviderRoundTrip(p: Provider)
    ensures ProviderFromValue(ProviderValue(p)) == Some(p)
  {
  }

  /** Where Python's `$` can match: at the end, or before a final newline. */
  predicate AtEnd(s: string, i: nat) {
    i == |s| || (i + 1 == |s| && s[i] == '\n')
  }

  predicate IsLowerHexDigit(c: char) {
    ('0' <= c <= '9') || ('a' <= c <= 'f')
  }

  predicate IsLowerLetter(c: char) {
    'a' <= c <= 'z'
  }

  /** The class `[a-zA-Z0-9-_.]`. */
  predicate IsModelNameChar(c: char) {
    ('a' <= c <= 'z') || ('A' <= c <= 'Z') || ('0' <= c <= '9') || c == '-' || c == '_' || c == '.'
  }

  /** End of the run of characters satisfying `p` that starts at `i`. */
  function RunEnd(s: string, i: nat, p: char -> bool): (k: nat)
    requires i <= |s|
    ensures i <= k <= |s|
    ensures forall m :: i <= m < k ==> p(s[m])
    ensures k < |s| ==> !p(s[k])
    decreases |s| - i
  {
    if i == |s| || !p(s[i]) then i else RunEnd(s, i + 1, p)
  }

  /** `re.match(r'^[a-f0-9]{32}$', v)`: thirty-two lower-case hex digits,
      then the end of the text or a single final newline. */
  function MatchesTokenPattern(v: string): (b: bool)
    ensures b <==> (|v| == 32 || (|v| == 33 && v[32] == '\n'))
                   && forall k :: 0 <= k < 32 ==> IsLowerHexDigit(v[k])
  {
    |v| >= 32 && RunEnd(v[..32], 0, IsLowerHexDigit) == 32 && AtEnd(v, 32)
  }

  /** `re.match(r'^[a-z]+:[a-zA-Z0-9-_.]+$', v)`. Both runs are greedy and
      neither class holds ':', so the first run ends at the first ':'. */
  function MatchesModelPattern(v: string): (b: bool)
    ensures b <==> exists k | 0 < k < |v| :: ModelPatternAt(v, k)
  {
    var k := RunEnd(v, 0, IsLowerLetter);
    if k == 0 || k == |v| || v[k] != ':' then false
    else
      var e := RunEnd(v, k + 1, IsModelNameChar);
      var b := e > k + 1 && AtEnd(v, e);
      assert b ==> ModelPatternAt(v, k);
      assert (exists j | 0 < j < |v| :: ModelPatternAt(v, j)) ==> b by {
        if exists j | 0 < j < |v| :: ModelPatternAt(v, j) {
          var j :| 0 < j < |v| && ModelPatternAt(v, j);
          ModelPatternAtRunEnds(v, j);
        }
      }
      b
  }

  /** A match of the model pattern puts its ':' at the end of the letter run,
      and its name part runs to the end of the name run. */
  lemma ModelPatternAtRunEnds(v: string, j: nat)
    requires ModelPatternAt(v, j)
    ensures j == RunEnd(v, 0, IsLowerLetter)
    ensures RunEnd(v, j + 1, IsModelNameChar) > j + 1 && AtEnd(v, RunEnd(v, j + 1, IsModelNameChar))
  {
    var e' :| j + 1 < e' <= |v| && AtEnd(v, e') && forall m :: j < m < e' ==> IsModelNameChar(v[m]);
  }

  /** The model pattern matches `v` with its ':' at index `k`. */
  predicate ModelPatternAt(v: string, k: nat) {
    && 0 < k < |v|
    && v[k] == ':'
    && (forall m :: 0 <= m < k ==> IsLowerLetter(v[m]))
    && exists e | k + 1 < e <= |v| :: AtEnd(v, e) && forall m :: k < m < e ==> IsModelNameChar(v[m])
  }

  /** Bounds of `AnalysisRequest.text`. */
  const MinTextLength := 1
  const MaxTextLength := 10000

  /** A validated `AnalysisRequest`. */
  datatype AnalysisRequest = AnalysisRequest(text: string, model: string, token: string)

  /** Building an `AnalysisRequest`: every field is validated and the names of
      the refused fields are reported together, in declaration order. */
  function NewAnalysisRequest(text: string, model: string, token: string): (r: Result<AnalysisRequest, ValidationError>)
    ensures r.Success? <==> MinTextLength <= |text| <= MaxTextLength && MatchesModelPattern(model) && MatchesTokenPattern(token)
    ensures r.Success? ==> r.value == AnalysisRequest(text, model, token)
    ensures r.Failure? ==> r.error.InvalidFields? && |r.error.fields| > 0
    ensures r.Failure? ==> ("text" in r.error.fields <==> !(MinTextLength <= |text| <= MaxTextLength))
    ensures r.Failure? ==> ("model" in r.error.fields <==> !MatchesModelPattern(model))
    ensures r.Failure? ==> ("token" in r.error.fields <==> !MatchesTokenPattern(token))
  {
    var bad :=
      (if MinTextLength <= |text| <= MaxTextLength then [] else ["text"])
      + (if MatchesModelPattern(model) then [] else ["model"])
      + (if MatchesTokenPattern(token) then [] else ["token"]);
    if |bad| == 0 then Success(AnalysisRequest(text, model, token)) else Failure(InvalidFields(bad))
  }
}
