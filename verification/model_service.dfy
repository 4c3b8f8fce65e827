/** The model registry: the `provider:model` configuration string parsed into
    registered models, the API-token check, provider lookup from a model id,
    and the credential status of a model. Environment values are inputs. */
module ModelService {
  import opened Text
  import opened Wrappers
  import opened SecurityModel

  /** The provider keys found in the environment; a provider absent from the
      map has no key set. */
  type ApiKeys = map<Provider, string>

  /** A key counts only when it is set and longer than 10 characters. */
  predicate KeyUsable(keys: ApiKeys, p: Provider) {
    p in keys && |keys[p]| > 10
  }

  /** The key as stored in a config: the empty string when unset. */
  function KeyOrEmpty(keys: ApiKeys, p: Provider): string {
    if p in keys then keys[p] else ""
  }

  /** `ModelConfig`. */
  datatype ModelConfig = ModelConfig(provider: Provider, modelName: string, apiKey: string, isAvailable: bool)

  /** The normalised id of a model: provider value, ':', model name. */
  function ModelId(p: Provider, name: string): string {
    ProviderValue(p) + ":" + name
  }

  /** `get_model_provider`: split at the first ':', the lower-cased prefix
      must be a provider value, and the rest is the model name verbatim
      (it may hold further ':'). Without ':' there is no provider. */
  function GetModelProvider(id: string): (r: Option<(Provider, string)>)
    ensures ':' !in id ==> r.None?
    ensures r.Some? ==>
      var i := |id| - |r.value.1| - 1;
      && 0 <= i && id[i] == ':' && ':' !in id[..i]
      && Lower(id[..i]) == ProviderValue(r.value.0) && id[i + 1..] == r.value.1
  {
    var i := Find(id, ':');
    if i < 0 then None
    else
      match ProviderFromValue(Lower(id[..i]))
      case None => None
      case Some(p) => Some((p, id[i + 1..]))
  }

  lemma ProviderValueShape(p: Provider)
    ensures ':' !in ProviderValue(p) && IsLower(ProviderValue(p)) && |ProviderValue(p)| > 0
  {
  }

  /** Every id of the form `<prefix>:<name>` whose prefix has no ':' and
      lower-cases to a provider value yields that provider and that name. */
  lemma GetModelProviderComplete(pre: string, name: string, p: Provider)
    requires ':' !in pre && Lower(pre) == ProviderValue(p)
    ensures GetModelProvider(pre + ":" + name) == Some((p, name))
  {
    var id := pre + ":" + name;
    FindAt(id, ':', |pre|);
    assert id[..|pre|] == pre;
    assert id[|pre| + 1..] == name;
    ProviderRoundTrip(p);
  }

  /** The normalised id of a model names it back. */
  lemma ModelIdRoundTrip(p: Provider, name: string)
    ensures GetModelProvider(ModelId(p, name)) == Some((p, name))
  {
    ProviderValueShape(p);
    LowerOfLower(ProviderValue(p));
    GetModelProviderComplete(ProviderValue(p), name, p);
  }

  /** The configuration a model gets: availability is decided by its
      provider's key alone. */
  function ConfigFor(keys: ApiKeys, p: Provider, name: string): ModelConfig {
    ModelConfig(p, name, KeyOrEmpty(keys, p), KeyUsable(keys, p))
  }

  /** `models` and `available_models` of the service. */
  datatype Registry = Registry(models: map<string, ModelConfig>, availableModels: seq<string>)

  /** What every registry built from the environment satisfies: the listed
      ids are exactly the registered ones, each id is the normalised id of
      its own config, and the config follows from the id and the keys. */
  ghost predicate WellFormed(reg: Registry, keys: ApiKeys) {
    && ListsRegistered(reg)
    && (forall id :: id in reg.models ==>
          var c := reg.models[id];
          id == ModelId(c.provider, c.modelName) && c == ConfigFor(keys, c.provider, c.modelName))
  }

  /** The listed ids are exactly the registered ones. */
  ghost predicate ListsRegistered(reg: Registry) {
    forall id :: id in reg.availableModels <==> id in reg.models
  }

  /** One configuration entry: stripped, parsed like a model id, and either
      registered under its normalised id or skipped. */
  function Register(reg: Registry, keys: ApiKeys, entry: string): Registry {
    match GetModelProvider(Strip(entry))
    case None => reg
    case Some((p, name)) =>
      var id := ModelId(p, name);
      Registry(reg.models[id := ConfigFor(keys, p, name)], reg.availableModels + [id])
  }

  /** The entries registered in order, starting from an empty registry. */
  function RegisterAll(keys: ApiKeys, entries: seq<string>): Registry {
    if |entries| == 0 then Registry(map[], [])
    else Register(RegisterAll(keys, entries[..|entries| - 1]), keys, entries[|entries| - 1])
  }

  /** The id an entry registers, if any. */
  function EntryIds(e: string): seq<string> {
    match GetModelProvider(Strip(e))
    case None => []
    case Some((p, name)) => [ModelId(p, name)]
  }

  /** The concatenation of `f` over `xs`, in order. */
  function FlatMap(xs: seq<string>, f: string -> seq<string>): seq<string> {
    if |xs| == 0 then [] else FlatMap(xs[..|xs| - 1], f) + f(xs[|xs| - 1])
  }

  /** The ids the entries name, in order, with the unparseable ones left out. */
  function ParsedIds(entries: seq<string>): seq<string> {
    FlatMap(entries, EntryIds)
  }

  lemma {:induction false} RegisterAllSpec(keys: ApiKeys, entries: seq<string>)
    ensures WellFormed(RegisterAll(keys, entries), keys)
    ensures RegisterAll(keys, entries).availableModels == ParsedIds(entries)
  {
    if |entries| > 0 {
      var init := entries[..|entries| - 1];
      RegisterAllSpec(keys, init);
      assert ParsedIds(entries) == ParsedIds(init) + EntryIds(entries[|entries| - 1]);
    }
  }

  /** The models of the built-in configuration, in order. */
  const DefaultModelList: seq<(Provider, string)> := [
    (OpenAI, "gpt-4-turbo"), (OpenAI, "gpt-3.5-turbo"), (Anthropic, "claude-3-opus"),
    (Anthropic, "claude-3-sonnet"), (Google, "gemini-2.0-flash"), (Mistral, "large"),
    (Cohere, "command-r-plus")
  ]

  /** The normalised ids of a list of models, in order. */
  function IdsOf(models: seq<(Provider, string)>): (r: seq<string>)
    ensures |r| == |models|
    ensures forall i :: 0 <= i < |models| ==> r[i] == ModelId(models[i].0, models[i].1)
  {
    if |models| == 0 then []
    else IdsOf(models[..|models| - 1]) + [ModelId(models[|models| - 1].0, models[|models| - 1].1)]
  }

  /** The built-in entries: `openai:gpt-4-turbo`, ..., `cohere:command-r-plus`. */
  const DefaultModelEntries: seq<string> := IdsOf(DefaultModelList)

  /** The configuration used when `AVAILABLE_MODELS` is empty or unset. */
  const DefaultModels: string := Join(DefaultModelEntries, ",")

  function ModelsConfig(configured: string): string {
    if configured == "" then DefaultModels else configured
  }

  /** `_load_models`: the configuration string (or the default list) split on
      ',' and each entry registered in turn. */
  function LoadModels(keys: ApiKeys, configured: string): (reg: Registry)
    ensures WellFormed(reg, keys)
    ensures reg.availableModels == ParsedIds(Split(ModelsConfig(configured), ','))
  {
    var entries := Split(ModelsConfig(configured), ',');
    RegisterAllSpec(keys, entries);
    RegisterAll(keys, entries)
  }

  /** The environment the service reads: `API_TOKEN` and `AVAILABLE_MODELS`
      (empty when unset) and the provider keys. */
  datatype Environment = Environment(apiToken: string, keys: ApiKeys, availableModels: string)

  /** `ModelService`: the configured token and the registry. */
  datatype Service = Service(token: string, registry: Registry)

  function NewService(env: Environment): (s: Service)
    ensures s.token == env.apiToken
    ensures WellFormed(s.registry, env.keys)
  {
    Service(env.apiToken, LoadModels(env.keys, env.availableModels))
  }

  /** `validate_token`: the given token must equal the configured one, and the
      configured one must have length 32. */
  function ValidateToken(s: Service, token: string): (ok: bool)
    ensures ok ==> token == s.token && |token| == 32
    ensures |s.token| == 32 ==> (ok <==> token == s.token)
  {
    token == s.token && |s.token| == 32
  }

  /** `is_model_available`: registered, and its config is available; an id
      that was never registered is never available. */
  predicate IsModelAvailable(reg: Registry, id: string)
    ensures IsModelAvailable(reg, id) ==> id in reg.models
  {
    id in reg.models && reg.models[id].isAvailable
  }

  function NotFoundMessage(id: string): string {
    "Modelo '" + id + "' no encontrado"
  }

  function MissingKeyMessage(p: Provider): string {
    "Credenciales no configuradas. Configure " + Upper(ProviderValue(p)) + "_API_KEY en variables de entorno"
  }

  const CredentialsValid: string := "Credenciales válidas"

  /** `check_credentials`: unregistered, registered without a usable key, or valid. */
  function CheckCredentials(reg: Registry, id: string): (r: (bool, string))
    ensures r.0 <==> IsModelAvailable(reg, id)
    ensures id !in reg.models ==> r.1 == NotFoundMessage(id)
    ensures r.0 ==> r.1 == CredentialsValid
  {
    if id !in reg.models then (false, NotFoundMessage(id))
    else if !reg.models[id].isAvailable then
      match GetModelProvider(id)
      case Some((p, _)) => (false, MissingKeyMessage(p))
      case None => (false, "Credenciales no configuradas")
    else (true, CredentialsValid)
  }

  /** In a registry built from the environment, a model is available iff its
      provider's key is usable, and a registered model that is not names the
      environment variable to set. */
  lemma CredentialsOfLoadedModel(keys: ApiKeys, configured: string, id: string)
    requires id in LoadModels(keys, configured).models
    ensures var reg := LoadModels(keys, configured);
      var p := reg.models[id].provider;
      && (IsModelAvailable(reg, id) <==> KeyUsable(keys, p))
      && (!KeyUsable(keys, p) ==> CheckCredentials(reg, id) == (false, MissingKeyMessage(p)))
  {
    var reg := LoadModels(keys, configured);
    var c := reg.models[id];
    ModelIdRoundTrip(c.provider, c.modelName);
  }

  lemma SplitTwice(e: string)
    requires ',' !in e
    ensures Split(e + "," + e, ',') == [e, e]
  {
    assert Join([e, e], ",") == e + "," + e;
    SplitJoin([e, e], ',');
  }

  /** Two entries parse to the ids of the first followed by those of the second. */
  lemma ParsedPair(a: string, b: string)
    ensures ParsedIds([a, b]) == EntryIds(a) + EntryIds(b)
  {
    FlatMapPair(a, b, EntryIds);
  }

  lemma FlatMapPair(a: string, b: string, f: string -> seq<string>)
    ensures FlatMap([a, b], f) == f(a) + f(b)
  {
    assert [a, b][..1] == [a];
    assert [a][..0] == [];
    assert FlatMap([a], f) == FlatMap([], f) + f(a);
  }

  /** A registry that lists one entry's id twice holds one model. */
  lemma OneModelPerId(reg: Registry, e: string)
    requires ListsRegistered(reg) && |EntryIds(e)| > 0
    requires reg.availableModels == EntryIds(e) + EntryIds(e)
    ensures |reg.models| == 1
  {
    var id := EntryIds(e)[0];
    assert reg.models.Keys == {id} by {
      forall x ensures x in reg.models.Keys <==> x == id {
        assert x in reg.availableModels <==> x in reg.models;
      }
    }
  }

  /** An entry listed twice is listed twice. */
  lemma DuplicateEntryListedTwice(keys: ApiKeys, e: string)
    requires ',' !in e && |EntryIds(e)| > 0
    ensures LoadModels(keys, e + "," + e).availableModels == EntryIds(e) + EntryIds(e)
  {
    SplitTwice(e);
    ParsedPair(e, e);
  }

  /** An entry listed twice is registered once. */
  lemma DuplicateEntryRegisteredOnce(keys: ApiKeys, e: string)
    requires ',' !in e && |EntryIds(e)| > 0
    ensures |LoadModels(keys, e + "," + e).models| == 1
  {
    var reg := LoadModels(keys, e + "," + e);
    DuplicateEntryListedTwice(keys, e);
    OneModelPerId(reg, e);
  }

  /** An entry that is already a normalised id registers itself. */
  lemma NormalisedEntry(p: Provider, name: string)
    requires |name| > 0 && !IsSpace(name[|name| - 1])
    ensures EntryIds(ModelId(p, name)) == [ModelId(p, name)]
  {
    var e := ModelId(p, name);
    assert e[|e| - 1] == name[|name| - 1];
    StripUnframed(e);
    ModelIdRoundTrip(p, name);
  }

  /** A model name that survives the configuration parse unchanged: not
      empty, no ',' and no trailing space. */
  predicate PlainName(name: string) {
    |name| > 0 && !IsSpace(name[|name| - 1]) && ',' !in name
  }

  lemma DefaultNamesPlain()
    ensures forall i :: 0 <= i < |DefaultModelList| ==> PlainName(DefaultModelList[i].1)
  {
  }

  /** The id of a model with a plain name holds no ','. */
  lemma PlainIdHasNoComma(p: Provider, name: string)
    requires PlainName(name)
    ensures ',' !in ModelId(p, name)
  {
    ProviderValueShape(p);
  }

  /** The id of a model with a plain name registers itself. */
  lemma PlainIdRegistersItself(p: Provider, name: string)
    requires PlainName(name)
    ensures EntryIds(ModelId(p, name)) == [ModelId(p, name)]
  {
    NormalisedEntry(p, name);
  }

  lemma {:induction false} FlatMapOfSingletons(xs: seq<string>, f: string -> seq<string>)
    requires forall i :: 0 <= i < |xs| ==> f(xs[i]) == [xs[i]]
    ensures FlatMap(xs, f) == xs
  {
    if |xs| > 0 {
      var n := |xs| - 1;
      FlatMapOfSingletons(xs[..n], f);
      assert xs == xs[..n] + [xs[n]];
    }
  }

  /** With `AVAILABLE_MODELS` empty or unset, the seven default ids are
      listed, in order. */
  lemma EmptyConfigListsDefaults(keys: ApiKeys)
    ensures LoadModels(keys, "").availableModels == DefaultModelEntries
  {
    DefaultNamesPlain();
    forall i | 0 <= i < |DefaultModelEntries|
      ensures ',' !in DefaultModelEntries[i]
      ensures EntryIds(DefaultModelEntries[i]) == [DefaultModelEntries[i]]
    {
      var m := DefaultModelList[i];
      PlainIdHasNoComma(m.0, m.1);
      PlainIdRegistersItself(m.0, m.1);
    }
    SplitJoin(DefaultModelEntries, ',');
    FlatMapOfSingletons(DefaultModelEntries, EntryIds);
  }
}
