/** The AI-backed analysis: which providers get a client, dispatch of a
    `provider:model` id to that client, and the post-processing of the reply
    into a `SecurityResult` (JSON window, defaults, keyword fallback, error
    verdict). The provider SDK call and the JSON decoder are parameters. */
module AiAnalyzer {
  import opened Text
  import opened Wrappers
  import opened SecurityModel
  import opened ModelService
  import opened SecurityAnalyzer

  /** `_initialize_clients`: the providers that get a client. */
  function InitializeClients(keys: ApiKeys): (clients: set<Provider>)
    ensures forall p :: p in clients <==> KeyUsable(keys, p)
  {
    var clients :=
      (if KeyUsable(keys, OpenAI) then {OpenAI} else {})
      + (if KeyUsable(keys, Anthropic) then {Anthropic} else {})
      + (if KeyUsable(keys, Google) then {Google} else {})
      + (if KeyUsable(keys, Mistral) then {Mistral} else {})
      + (if KeyUsable(keys, Cohere) then {Cohere} else {});
    assert forall p :: p in clients <==> KeyUsable(keys, p) by {
      forall p ensures p in clients <==> KeyUsable(keys, p) {
        ProviderCases(p);
      }
    }
    clients
  }

  /** Every provider is one of the five. */
  lemma ProviderCases(p: Provider)
    ensures p == OpenAI || p == Anthropic || p == Google || p == Mistral || p == Cohere
  {
  }

  /** A registered model's provider has a client exactly when the registry
      marks the model available: both follow the same key rule. */
  lemma ClientIffModelAvailable(keys: ApiKeys, configured: string, id: string)
    requires id in LoadModels(keys, configured).models
    ensures var reg := LoadModels(keys, configured);
      reg.models[id].provider in InitializeClients(keys) <==> IsModelAvailable(reg, id)
  {
    CredentialsOfLoadedModel(keys, configured, id);
  }

  /** What a provider call gives back: the reply text, or the message of the
      exception it raised. A reply without content raises inside the parse
      and reaches the caller the same way. */
  datatype CallOutcome = Reply(text: string) | Raised(message: string)

  /** The provider SDK call: provider, model name and user text in, outcome out. */
  type ProviderCall = (Provider, string, string) -> CallOutcome

  /** The fields of a decoded JSON object after pydantic's coercion; a key
      that is absent is `None`. */
  datatype AiFields = AiFields(
    isSafe: Option<bool>,
    score: Option<real>,
    categoryScores: Option<map<string, real>>,
    reasons: Option<seq<string>>,
    suggestions: Option<seq<string>>)

  /** `json.loads` followed by the field coercion: `None` when the text is not
      a JSON object or a field has the wrong type. */
  type JsonParser = string -> Option<AiFields>

  /** `data.get(key, default)`. */
  function OrDefault<T>(o: Option<T>, d: T): (r: T)
    ensures o.Some? ==> r == o.value
    ensures o.None? ==> r == d
  {
    match o
    case Some(v) => v
    case None => d
  }

  /** The slice from the first '{' to the last '}' inclusive, when that '}'
      comes after the '{'. */
  function JsonWindow(reply: string): (w: Option<string>)
    ensures w.None? <==> '{' !in reply || forall k :: Find(reply, '{') < k < |reply| ==> reply[k] != '}'
    ensures w.Some? ==>
      var i := Find(reply, '{');
      && 0 <= i && 2 <= |w.value| && i + |w.value| <= |reply| && w.value == reply[i..i + |w.value|]
      && w.value[0] == '{' && w.value[|w.value| - 1] == '}' && '}' !in reply[i + |w.value|..]
  {
    var start := Find(reply, '{');
    var end := RFind(reply, '}') + 1;
    if start >= 0 && end > start then Some(reply[start..end]) else None
  }

  /** A reply framed by text without braces yields its object as the window. */
  lemma JsonWindowOfFramed(pre: string, obj: string, post: string)
    requires '{' !in pre && '}' !in post
    requires 2 <= |obj| && obj[0] == '{' && obj[|obj| - 1] == '}'
    ensures JsonWindow(pre + obj + post) == Some(obj)
  {
    var reply := pre + obj + post;
    assert reply[..|pre|] == pre;
    FindAt(reply, '{', |pre|);
    var e := |pre| + |obj| - 1;
    assert reply[e] == '}';
    assert forall k :: e < k < |reply| ==> reply[k] == post[k - |pre| - |obj|];
    assert RFind(reply, '}') == e;
    assert reply[|pre|..e + 1] == obj;
  }

  /** The words whose presence makes the fallback verdict unsafe. */
  const FallbackWords: seq<string> := ["unsafe", "malicious", "dangerous", "injection", "leak", "attack", "not safe"]

  const FallbackReason: string := "Análisis de fallback basado en respuesta del modelo"
  const FallbackSuggestion: string := "El modelo devolvió una respuesta no estructurada"

  /** Scores of the fallback verdict. */
  const FallbackUnsafeScore: real := 0.7
  const FallbackSafeScore: real := 0.2

  /** The lower-cased reply contains one of the fallback words. */
  predicate MentionsDanger(reply: string) {
    exists w :: w in FallbackWords && Contains(Lower(reply), w)
  }

  /** `_fallback_analysis`: a verdict from the reply's wording alone. */
  function Fallback(reply: string, modelUsed: string): (r: SecurityResult)
    ensures r.isSafe <==> !MentionsDanger(reply)
    ensures r.score == (if r.isSafe then FallbackSafeScore else FallbackUnsafeScore)
    ensures ScoreInRange(r.score)
    ensures r.categoryScores == map["general" := r.score]
    ensures r.reasons == [FallbackReason] && r.suggestions == [FallbackSuggestion]
    ensures r.modelUsed == modelUsed
  {
    var unsafe := HasHits(reply, FallbackWords).0;
    var score := if unsafe then FallbackUnsafeScore else FallbackSafeScore;
    SecurityResult(!unsafe, score, map["general" := score], [FallbackReason], [FallbackSuggestion], modelUsed)
  }

  /** `_parse_ai_response`: the JSON window decoded with defaults for the
      missing fields, or the fallback when there is no window, the decode
      fails, or the score is outside [0, 1]. */
  function ParseAiResponse(reply: string, modelUsed: string, parse: JsonParser): (r: SecurityResult)
    ensures r.modelUsed == modelUsed
    ensures ScoreInRange(r.score)
    ensures JsonWindow(reply).None? ==> r == Fallback(reply, modelUsed)
    ensures JsonWindow(reply).Some? && parse(JsonWindow(reply).value).None? ==> r == Fallback(reply, modelUsed)
    ensures JsonWindow(reply).Some? && parse(JsonWindow(reply).value).Some? ==>
      var f := parse(JsonWindow(reply).value).value;
      && (ScoreInRange(OrDefault(f.score, 0.0)) ==> r == Decoded(f, modelUsed))
      && (!ScoreInRange(OrDefault(f.score, 0.0)) ==> r == Fallback(reply, modelUsed))
  {
    match JsonWindow(reply)
    case None => Fallback(reply, modelUsed)
    case Some(w) =>
      match parse(w)
      case None => Fallback(reply, modelUsed)
      case Some(f) =>
        match NewSecurityResult(
          OrDefault(f.isSafe, true), OrDefault(f.score, 0.0), OrDefault(f.categoryScores, map[]),
          OrDefault(f.reasons, []), OrDefault(f.suggestions, []), modelUsed)
        case Success(res) => res
        case Failure(_) => Fallback(reply, modelUsed)
  }

  /** The result a decoded object stands for, missing fields read as
      safe, score 0 and empty collections. */
  function Decoded(f: AiFields, modelUsed: string): (r: SecurityResult)
    ensures f.isSafe.None? ==> r.isSafe
    ensures f.score.None? ==> r.score == 0.0
    ensures f.categoryScores.None? ==> r.categoryScores == map[]
    ensures f.reasons.None? ==> r.reasons == []
    ensures f.suggestions.None? ==> r.suggestions == []
    ensures f.isSafe.Some? ==> r.isSafe == f.isSafe.value
    ensures f.score.Some? ==> r.score == f.score.value
    ensures f.categoryScores.Some? ==> r.categoryScores == f.categoryScores.value
    ensures f.reasons.Some? ==> r.reasons == f.reasons.value
    ensures f.suggestions.Some? ==> r.suggestions == f.suggestions.value
    ensures r.modelUsed == modelUsed
  {
    SecurityResult(
      OrDefault(f.isSafe, true), OrDefault(f.score, 0.0), OrDefault(f.categoryScores, map[]),
      OrDefault(f.reasons, []), OrDefault(f.suggestions, []), modelUsed)
  }

  const ErrorSuggestion: string := "Verifique la configuración del modelo"

  /** `_create_error_result`: the fail-closed verdict carrying the message. */
  function ErrorResult(message: string): (r: SecurityResult)
    ensures !r.isSafe && r.score == 1.0 && ScoreInRange(r.score)
    ensures r.categoryScores == map["error" := 1.0]
    ensures r.reasons == [message] && r.suggestions == [ErrorSuggestion]
    ensures r.modelUsed == ""
  {
    SecurityResult(false, 1.0, map["error" := 1.0], [message], [ErrorSuggestion], "")
  }

  function InvalidModelMessage(modelId: string): string {
    "Modelo '" + modelId + "' no válido"
  }

  function UnavailableMessage(p: Provider): string {
    "Proveedor " + ProviderValue(p) + " no disponible"
  }

  function CallFailedMessage(modelId: string, message: string): string {
    "Error en análisis con " + modelId + ": " + message
  }

  /** `analyze_with_ai`: an unparseable id, a provider without a client, or a
      raising call give the error verdict; a reply is parsed and reported
      under the normalised id. */
  function AnalyzeWithAi(clients: set<Provider>, call: ProviderCall, parse: JsonParser, text: string, modelId: string)
    : (r: SecurityResult)
    ensures ScoreInRange(r.score)
    ensures GetModelProvider(modelId).None? ==> r == ErrorResult(InvalidModelMessage(modelId))
    ensures GetModelProvider(modelId).Some? && GetModelProvider(modelId).value.0 !in clients ==>
      r == ErrorResult(UnavailableMessage(GetModelProvider(modelId).value.0))
    ensures r.modelUsed == "" ==> !r.isSafe && r.score == 1.0 && |r.reasons| == 1
    ensures r.modelUsed != "" ==>
      && GetModelProvider(modelId).Some?
      && GetModelProvider(modelId).value.0 in clients
      && r.modelUsed == ModelId(GetModelProvider(modelId).value.0, GetModelProvider(modelId).value.1)
    ensures GetModelProvider(modelId).Some? && GetModelProvider(modelId).value.0 in clients ==>
      var (p, name) := GetModelProvider(modelId).value;
      && (call(p, name, text).Raised? ==> r == ErrorResult(CallFailedMessage(modelId, call(p, name, text).message)))
      && (call(p, name, text).Reply? ==> r == ParseAiResponse(call(p, name, text).text, ModelId(p, name), parse))
  {
    match GetModelProvider(modelId)
    case None => ErrorResult(InvalidModelMessage(modelId))
    case Some((p, name)) =>
      if p !in clients then ErrorResult(UnavailableMessage(p))
      else
        match call(p, name, text)
        case Raised(msg) => ErrorResult(CallFailedMessage(modelId, msg))
        case Reply(reply) => ParseAiResponse(reply, ModelId(p, name), parse)
  }

  /** The verdict names no model exactly on the three error paths: an
      unparseable id, a provider without a client, or a raising call. */
  lemma ErrorIffNoModel(clients: set<Provider>, call: ProviderCall, parse: JsonParser, text: string, modelId: string)
    ensures var r := AnalyzeWithAi(clients, call, parse, text, modelId);
      r.modelUsed == "" <==>
        || GetModelProvider(modelId).None?
        || GetModelProvider(modelId).value.0 !in clients
        || call(GetModelProvider(modelId).value.0, GetModelProvider(modelId).value.1, text).Raised?
  {
    if GetModelProvider(modelId).Some? {
      var (p, name) := GetModelProvider(modelId).value;
      ProviderValueShape(p);
      assert |ModelId(p, name)| > 0;
    }
  }

  /** The model reported on a reply names the provider and model the request
      named, whatever the case of the provider prefix. */
  lemma ReportedModelNamesRequest(clients: set<Provider>, call: ProviderCall, parse: JsonParser, text: string, modelId: string)
    requires AnalyzeWithAi(clients, call, parse, text, modelId).modelUsed != ""
    ensures GetModelProvider(AnalyzeWithAi(clients, call, parse, text, modelId).modelUsed) == GetModelProvider(modelId)
  {
    var (p, name) := GetModelProvider(modelId).value;
    ModelIdRoundTrip(p, name);
  }

  /** A reply without '{' is judged by its wording whatever the decoder does. */
  lemma NoBraceNoDecode(reply: string, modelUsed: string, parse1: JsonParser, parse2: JsonParser)
    requires '{' !in reply
    ensures ParseAiResponse(reply, modelUsed, parse1) == ParseAiResponse(reply, modelUsed, parse2)
    ensures ParseAiResponse(reply, modelUsed, parse1) == Fallback(reply, modelUsed)
  {
  }

  /** An object with none of the fields reads as a safe verdict with score 0:
      the defaults fail open. */
  lemma EmptyObjectReadsSafe(modelUsed: string, parse: JsonParser)
    requires parse("{}") == Some(AiFields(None, None, None, None, None))
    ensures ParseAiResponse("{}", modelUsed, parse) == SecurityResult(true, 0.0, map[], [], [], modelUsed)
  {
    JsonWindowOfFramed("", "{}", "");
    assert "" + "{}" + "" == "{}";
  }

  /** A decoded score above 1 is refused and the reply goes to the fallback. */
  lemma OverRangeScoreFallsBack(reply: string, modelUsed: string, parse: JsonParser)
    requires JsonWindow(reply).Some? && parse(JsonWindow(reply).value).Some?
    requires OrDefault(parse(JsonWindow(reply).value).value.score, 0.0) > 1.0
    ensures ParseAiResponse(reply, modelUsed, parse).reasons == [FallbackReason]
    ensures ParseAiResponse(reply, modelUsed, parse).score in {FallbackSafeScore, FallbackUnsafeScore}
  {
  }

  /** A reply saying "NOT SAFE", in any case, is read as unsafe. */
  lemma NotSafeReplyIsUnsafe(modelUsed: string)
    ensures !Fallback("It is NOT SAFE", modelUsed).isSafe
  {
    var t := Lower("It is NOT SAFE");
    assert t[6..14] == "not safe";
    assert MatchesAt(t, FallbackWords[6], 6);
  }
}
