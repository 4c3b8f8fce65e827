/** The fixed rule set read by the risk scorer: one keyword table per
    keyword category, the suspicious-URL pattern (modelled in `UrlPattern`),
    the weight of each category and the suggestions shown when a category
    triggers. */
module SecurityRules {
  import opened Text

  /** The seven risk categories, a closed set. */
  datatype Category =
    | PromptInjection
    | DataExfiltration
    | CodeExecution
    | DependencyAttack
    | PolicyOverride
    | HarmfulActions
    | SuspiciousLinks

  /** The order of the weight table, which is also the order in which the
      analyzer runs the detectors and collects reasons and suggestions. */
  const CategoryOrder: seq<Category> := [
    PromptInjection, DataExfiltration, CodeExecution, DependencyAttack,
    PolicyOverride, HarmfulActions, SuspiciousLinks
  ]

  /** The key under which a category appears in the tables and in `category_scores`. */
  function Name(c: Category): string {
    match c
    case PromptInjection => "prompt_injection"
    case DataExfiltration => "data_exfiltration"
    case CodeExecution => "code_execution"
    case DependencyAttack => "dependency_attack"
    case PolicyOverride => "policy_override"
    case HarmfulActions => "harmful_actions"
    case SuspiciousLinks => "suspicious_links"
  }

  const PromptInjectionKeywords: seq<string> := [
    "ignore previous instructions", "disregard", "override system", "jailbreak",
    "act as", "pretend to be", "developer mode", "system prompt", "disable safety",
    "no restrictions", "unfiltered", "bypass", "take over", "call tool", "run tool",
    "ignora las instrucciones anteriores", "omitir instrucciones", "modo desarrollador",
    "sin restricciones", "desactiva la seguridad", "omitir validaciones", "prompt del sistema"
  ]

  const DataExfiltrationKeywords: seq<string> := [
    "secret", "api key", "token", "password", "credential", "confidential", "classified",
    "private", "environment variable", "env var",
    "secreto", "clave", "contraseña", "credencial", "confidencial", "clasificado",
    "privado", "variable de entorno"
  ]

  const CodeExecutionKeywords: seq<string> := [
    "run shell", "execute command", "powershell", "bash", "cmd", "download and run",
    "pip install", "npm install", "curl", "wget", "python -c",
    "ejecuta comando", "descargar y ejecutar", "instala paquete", "comando"
  ]

  const DependencyAttackKeywords: seq<string> := [
    "install package from", "use my library", "pip install mypackage", "replace dependency",
    "substitute library", "from unknown repository", "use private registry", "change requirements",
    "upload to pypi", "dependency confusion",
    "instala paquete desde", "usa mi librería", "reemplaza dependencia", "sustituye librería",
    "repositorio desconocido", "registro privado", "cambia requirements", "confusión de dependencias"
  ]

  const PolicyOverrideKeywords: seq<string> := [
    "even if it's against policy", "ignore policy", "against the rules", "prohibited",
    "aunque esté prohibido", "ignora la política", "va contra las reglas", "prohibido"
  ]

  /** Note the repeated "malware" and "phishing" (English and Spanish lists share them). */
  const HarmfulActionsKeywords: seq<string> := [
    "malware", "phishing", "keylogger", "ddos", "exploit", "hack", "sql injection",
    "malware", "phishing", "registrador de teclas", "ataque ddos", "explotar", "hackear",
    "inyección sql"
  ]

  /** The keyword table of a keyword-matched category. */
  function Keywords(c: Category): seq<string>
    requires c != SuspiciousLinks
  {
    match c
    case PromptInjection => PromptInjectionKeywords
    case DataExfiltration => DataExfiltrationKeywords
    case CodeExecution => CodeExecutionKeywords
    case DependencyAttack => DependencyAttackKeywords
    case PolicyOverride => PolicyOverrideKeywords
    case HarmfulActions => HarmfulActionsKeywords
  }

  /** Maximum contribution of each category to the aggregate score. */
  const CategoryWeights: map<string, real> := map[
    "prompt_injection" := 0.35,
    "data_exfiltration" := 0.35,
    "code_execution" := 0.25,
    "dependency_attack" := 0.25,
    "policy_override" := 0.25,
    "harmful_actions" := 0.35,
    "suspicious_links" := 0.20
  ]

  const SuggestionsByCategory: map<string, seq<string>> := map[
    "prompt_injection" := [
      "No solicites ignorar instrucciones ni desactivar salvaguardas.",
      "Formula tu petición sin intentar cambiar el rol o las políticas del agente."
    ],
    "data_exfiltration" := [
      "Evita pedir secretos, credenciales o datos confidenciales.",
      "Usa datos simulados o anonimiza la información en tu solicitud."
    ],
    "code_execution" := [
      "Evita pedir ejecución de comandos o descargas no verificadas.",
      "Solicita pseudocódigo o explicación, no ejecución directa."
    ],
    "dependency_attack" := [
      "No modifiques dependencias ni uses repositorios no confiables.",
      "Solicita revisión de dependencias por fuentes oficiales y firmadas."
    ],
    "policy_override" := [
      "No pidas saltarte políticas o reglas.",
      "Reformula la petición de forma compatible con las políticas."
    ],
    "harmful_actions" := [
      "Evita solicitar ayuda para actividades ilícitas o dañinas.",
      "Limítate a fines educativos y éticos, sin instrucciones operativas."
    ],
    "suspicious_links" := [
      "Evita URLs sospechosas; usa fuentes verificadas y oficiales."
    ]
  ]

  /** The keys of both tables: the names of the seven categories. */
  const CategoryNames: set<string> := {
    "prompt_injection", "data_exfiltration", "code_execution", "dependency_attack",
    "policy_override", "harmful_actions", "suspicious_links"
  }

  function Weight(c: Category): real {
    CategoryWeights[Name(c)]
  }

  function Suggestions(c: Category): seq<string> {
    SuggestionsByCategory[Name(c)]
  }

  /** Sum of `m` over the names of `cs`. */
  function SumOver(cs: seq<Category>, m: map<string, real>): real
    requires forall c :: c in cs ==> Name(c) in m
  {
    if |cs| == 0 then 0.0 else SumOver(cs[..|cs| - 1], m) + m[Name(cs[|cs| - 1])]
  }

  /** Every category occurs exactly once in the table order. */
  lemma CategoryOrderComplete()
    ensures |CategoryOrder| == 7
    ensures forall c: Category :: c in CategoryOrder
    ensures forall i, j :: 0 <= i < j < |CategoryOrder| ==> CategoryOrder[i] != CategoryOrder[j]
  {
    forall c: Category ensures c in CategoryOrder {
      match c
      case PromptInjection => assert CategoryOrder[0] == c;
      case DataExfiltration => assert CategoryOrder[1] == c;
      case CodeExecution => assert CategoryOrder[2] == c;
      case DependencyAttack => assert CategoryOrder[3] == c;
      case PolicyOverride => assert CategoryOrder[4] == c;
      case HarmfulActions => assert CategoryOrder[5] == c;
      case SuspiciousLinks => assert CategoryOrder[6] == c;
    }
  }

  /** Distinct categories have distinct names, and the names are the table keys. */
  lemma NamesAreDistinctKeys()
    ensures forall c, d: Category :: Name(c) == Name(d) ==> c == d
    ensures forall c :: Name(c) in CategoryNames
  {
    assert Name(PromptInjection)[1] != Name(SuspiciousLinks)[1];
    assert Name(DataExfiltration)[1] != Name(DependencyAttack)[1];
    assert Name(PolicyOverride)[0] != Name(HarmfulActions)[0];
  }

  /** The weight table has exactly the seven category keys, each weight in (0, 1]. */
  lemma WeightTableShape()
    ensures CategoryWeights.Keys == CategoryNames
    ensures forall c :: 0.0 < Weight(c) <= 1.0
  {
  }

  lemma WeightValues()
    ensures Weight(PromptInjection) == 0.35 && Weight(DataExfiltration) == 0.35
    ensures Weight(CodeExecution) == 0.25 && Weight(DependencyAttack) == 0.25
    ensures Weight(PolicyOverride) == 0.25 && Weight(HarmfulActions) == 0.35
    ensures Weight(SuspiciousLinks) == 0.20
  {
  }

  /** The weights add up to 2.0, twice the declared maximum score. */
  lemma WeightsSumToTwo()
    ensures SumOver(CategoryOrder, CategoryWeights) == 2.0
  {
    var cs, w := CategoryOrder, CategoryWeights;
    assert SumOver(cs[..1], w) == 0.35 by { assert cs[..1][..0] == []; }
    assert SumOver(cs[..2], w) == 0.70 by { assert cs[..2][..1] == cs[..1]; }
    assert SumOver(cs[..3], w) == 0.95 by { assert cs[..3][..2] == cs[..2]; }
    assert SumOver(cs[..4], w) == 1.20 by { assert cs[..4][..3] == cs[..3]; }
    assert SumOver(cs[..5], w) == 1.45 by { assert cs[..5][..4] == cs[..4]; }
    assert SumOver(cs[..6], w) == 1.80 by { assert cs[..6][..5] == cs[..5]; }
    assert cs[..7] == cs;
  }

  /** The suggestion table has the same keys as the weight table, and no list is empty. */
  lemma SuggestionTableShape()
    ensures SuggestionsByCategory.Keys == CategoryWeights.Keys
    ensures forall c :: |Suggestions(c)| >= 1
  {
    WeightTableShape();
    forall c ensures |Suggestions(c)| >= 1 {
      match c
      case PromptInjection =>
      case DataExfiltration =>
      case CodeExecution =>
      case DependencyAttack =>
      case PolicyOverride =>
      case HarmfulActions =>
      case SuspiciousLinks =>
    }
  }

  /** Every keyword of a table is non-empty and already lower case, so testing
      it against the lowered text is a case-insensitive test. */
  predicate WellFormedTable(kws: seq<string>) {
    forall kw :: kw in kws ==> |kw| > 0 && IsLower(kw)
  }

  // Proving a literal lower case unfolds `LowerChar` on every character, so
  // the keywords are checked two or three per lemma: a single `forall` over
  // even the shortest table exceeds the solver's resource bound.
  lemma PromptInjectionLower0()
    ensures IsLower("ignore previous instructions")
    ensures IsLower("disregard")
  {
  }

  lemma PromptInjectionLower1()
    ensures IsLower("override system")
    ensures IsLower("jailbreak")
    ensures IsLower("act as")
  {
  }

  lemma PromptInjectionLower2()
    ensures IsLower("pretend to be")
    ensures IsLower("developer mode")
    ensures IsLower("system prompt")
  {
  }

  lemma PromptInjectionLower3()
    ensures IsLower("disable safety")
    ensures IsLower("no restrictions")
    ensures IsLower("unfiltered")
  {
  }

  lemma PromptInjectionLower4()
    ensures IsLower("bypass")
    ensures IsLower("take over")
    ensures IsLower("call tool")
  {
  }

  lemma PromptInjectionLower5()
    ensures IsLower("run tool")
  {
  }

  lemma PromptInjectionLower6()
    ensures IsLower("ignora las instrucciones anteriores")
  {
  }

  lemma PromptInjectionLower7()
    ensures IsLower("omitir instrucciones")
    ensures IsLower("modo desarrollador")
  {
  }

  lemma PromptInjectionLower8()
    ensures IsLower("sin restricciones")
    ensures IsLower("desactiva la seguridad")
  {
  }

  lemma PromptInjectionLower9()
    ensures IsLower("omitir validaciones")
    ensures IsLower("prompt del sistema")
  {
  }

  lemma PromptInjectionTableWellFormed()
    ensures WellFormedTable(PromptInjectionKeywords)
  {
    PromptInjectionLower0();
    PromptInjectionLower1();
    PromptInjectionLower2();
    PromptInjectionLower3();
    PromptInjectionLower4();
    PromptInjectionLower5();
    PromptInjectionLower6();
    PromptInjectionLower7();
    PromptInjectionLower8();
    PromptInjectionLower9();
  }

  lemma DataExfiltrationLower0()
    ensures IsLower("secret")
    ensures IsLower("api key")
    ensures IsLower("token")
  {
  }

  lemma DataExfiltrationLower1()
    ensures IsLower("password")
    ensures IsLower("credential")
    ensures IsLower("confidential")
  {
  }

  lemma DataExfiltrationLower2()
    ensures IsLower("classified")
    ensures IsLower("private")
    ensures IsLower("environment variable")
  {
  }

  lemma DataExfiltrationLower3()
    ensures IsLower("env var")
    ensures IsLower("secreto")
    ensures IsLower("clave")
  {
  }

  lemma DataExfiltrationLower4()
    ensures IsLower("contraseña")
    ensures IsLower("credencial")
    ensures IsLower("confidencial")
  {
  }

  lemma DataExfiltrationLower5()
    ensures IsLower("clasificado")
    ensures IsLower("privado")
    ensures IsLower("variable de entorno")
  {
  }

  lemma DataExfiltrationTableWellFormed()
    ensures WellFormedTable(DataExfiltrationKeywords)
  {
    DataExfiltrationLower0();
    DataExfiltrationLower1();
    DataExfiltrationLower2();
    DataExfiltrationLower3();
    DataExfiltrationLower4();
    DataExfiltrationLower5();
  }

  lemma CodeExecutionLower0()
    ensures IsLower("run shell")
    ensures IsLower("execute command")
    ensures IsLower("powershell")
  {
  }

  lemma CodeExecutionLower1()
    ensures IsLower("bash")
    ensures IsLower("cmd")
    ensures IsLower("download and run")
  {
  }

  lemma CodeExecutionLower2()
    ensures IsLower("pip install")
    ensures IsLower("npm install")
    ensures IsLower("curl")
  {
  }

  lemma CodeExecutionLower3()
    ensures IsLower("wget")
    ensures IsLower("python -c")
    ensures IsLower("ejecuta comando")
  {
  }

  lemma CodeExecutionLower4()
    ensures IsLower("descargar y ejecutar")
    ensures IsLower("instala paquete")
  {
  }

  lemma CodeExecutionLower5()
    ensures IsLower("comando")
  {
  }

  lemma CodeExecutionTableWellFormed()
    ensures WellFormedTable(CodeExecutionKeywords)
  {
    CodeExecutionLower0();
    CodeExecutionLower1();
    CodeExecutionLower2();
    CodeExecutionLower3();
    CodeExecutionLower4();
    CodeExecutionLower5();
  }

  lemma DependencyAttackLower0()
    ensures IsLower("install package from")
    ensures IsLower("use my library")
  {
  }

  lemma DependencyAttackLower1()
    ensures IsLower("pip install mypackage")
    ensures IsLower("replace dependency")
  {
  }

  lemma DependencyAttackLower2()
    ensures IsLower("substitute library")
  {
  }

  lemma DependencyAttackLower3()
    ensures IsLower("from unknown repository")
  {
  }

  lemma DependencyAttackLower4()
    ensures IsLower("use private registry")
    ensures IsLower("change requirements")
  {
  }

  lemma DependencyAttackLower5()
    ensures IsLower("upload to pypi")
    ensures IsLower("dependency confusion")
  {
  }

  lemma DependencyAttackLower6()
    ensures IsLower("instala paquete desde")
    ensures IsLower("usa mi librería")
  {
  }

  lemma DependencyAttackLower7()
    ensures IsLower("reemplaza dependencia")
    ensures IsLower("sustituye librería")
  {
  }

  lemma DependencyAttackLower8()
    ensures IsLower("repositorio desconocido")
    ensures IsLower("registro privado")
  {
  }

  lemma DependencyAttackLower9()
    ensures IsLower("cambia requirements")
  {
  }

  lemma DependencyAttackLower10()
    ensures IsLower("confusión de dependencias")
  {
  }

  lemma DependencyAttackTableWellFormed()
    ensures WellFormedTable(DependencyAttackKeywords)
  {
    DependencyAttackLower0();
    DependencyAttackLower1();
    DependencyAttackLower2();
    DependencyAttackLower3();
    DependencyAttackLower4();
    DependencyAttackLower5();
    DependencyAttackLower6();
    DependencyAttackLower7();
    DependencyAttackLower8();
    DependencyAttackLower9();
    DependencyAttackLower10();
  }

  lemma PolicyOverrideLower0()
    ensures IsLower("even if it's against policy")
    ensures IsLower("ignore policy")
  {
  }

  lemma PolicyOverrideLower1()
    ensures IsLower("against the rules")
    ensures IsLower("prohibited")
  {
  }

  lemma PolicyOverrideLower2()
    ensures IsLower("aunque esté prohibido")
    ensures IsLower("ignora la política")
  {
  }

  lemma PolicyOverrideLower3()
    ensures IsLower("va contra las reglas")
    ensures IsLower("prohibido")
  {
  }

  lemma PolicyOverrideTableWellFormed()
    ensures WellFormedTable(PolicyOverrideKeywords)
  {
    PolicyOverrideLower0();
    PolicyOverrideLower1();
    PolicyOverrideLower2();
    PolicyOverrideLower3();
  }

  lemma HarmfulActionsLower0()
    ensures IsLower("malware")
    ensures IsLower("phishing")
    ensures IsLower("keylogger")
  {
  }

  lemma HarmfulActionsLower1()
    ensures IsLower("ddos")
    ensures IsLower("exploit")
    ensures IsLower("hack")
  {
  }

  lemma HarmfulActionsLower2()
    ensures IsLower("sql injection")
    ensures IsLower("registrador de teclas")
  {
  }

  lemma HarmfulActionsLower3()
    ensures IsLower("ataque ddos")
    ensures IsLower("explotar")
    ensures IsLower("hackear")
  {
  }

  lemma HarmfulActionsLower4()
    ensures IsLower("inyección sql")
  {
  }

  lemma HarmfulActionsTableWellFormed()
    ensures WellFormedTable(HarmfulActionsKeywords)
  {
    HarmfulActionsLower0();
    HarmfulActionsLower1();
    HarmfulActionsLower2();
    HarmfulActionsLower3();
    HarmfulActionsLower4();
  }

  lemma KeywordTableWellFormed(c: Category)
    requires c != SuspiciousLinks
    ensures WellFormedTable(Keywords(c))
  {
    match c
    case PromptInjection =>
      assert Keywords(c) == PromptInjectionKeywords;
      PromptInjectionTableWellFormed();
    case DataExfiltration =>
      assert Keywords(c) == DataExfiltrationKeywords;
      DataExfiltrationTableWellFormed();
    case CodeExecution =>
      assert Keywords(c) == CodeExecutionKeywords;
      CodeExecutionTableWellFormed();
    case DependencyAttack =>
      assert Keywords(c) == DependencyAttackKeywords;
      DependencyAttackTableWellFormed();
    case PolicyOverride =>
      assert Keywords(c) == PolicyOverrideKeywords;
      PolicyOverrideTableWellFormed();
    case HarmfulActions =>
      assert Keywords(c) == HarmfulActionsKeywords;
      HarmfulActionsTableWellFormed();
  }

  /** "malware" and "phishing" each appear twice in the harmful-actions table. */
  lemma HarmfulTableRepeats()
    ensures HarmfulActionsKeywords[0] == HarmfulActionsKeywords[7] == "malware"
    ensures HarmfulActionsKeywords[1] == HarmfulActionsKeywords[8] == "phishing"
  {
  }
}
