/** The rule-based risk scorer: keyword and URL detectors, aggregation of
    the category weights, and the safe/unsafe threshold. */
module SecurityAnalyzer {
  import opened Text
  import opened Wrappers
  import opened SecurityRules
  import opened UrlPattern
  import opened SecurityModel

  /** `xs` is `ys` with some elements left out and the order kept. */
  predicate IsSubsequence<T(==)>(xs: seq<T>, ys: seq<T>)
    decreases |ys|
  {
    if |xs| == 0 then true
    else if |ys| == 0 then false
    else if xs[0] == ys[0] then IsSubsequence(xs[1..], ys[1..])
    else IsSubsequence(xs, ys[1..])
  }

  /** Dropping the first element of the larger sequence keeps a subsequence one. */
  lemma {:induction false} SubsequenceOfTail<T>(xs: seq<T>, ys: seq<T>)
    requires |ys| > 0 && IsSubsequence(xs, ys[1..])
    ensures IsSubsequence(xs, ys)
    decreases |ys|, |xs|
  {
    if |xs| > 0 && xs[0] == ys[0] {
      DropHead(xs, ys[1..]);
    }
  }

  /** Dropping the first element of a subsequence keeps it one. */
  lemma {:induction false} DropHead<T>(xs: seq<T>, ys: seq<T>)
    requires |xs| > 0 && IsSubsequence(xs, ys)
    ensures IsSubsequence(xs[1..], ys)
    decreases |ys|, |xs|
  {
    if |xs| > 1 {
      if xs[0] == ys[0] {
        SubsequenceOfTail(xs[1..], ys);
      } else {
        DropHead(xs, ys[1..]);
        SubsequenceOfTail(xs[1..], ys);
      }
    }
  }

  /** The keywords of `kws` that occur in `tl`, in table order, repeats kept. */
  function Hits(tl: string, kws: seq<string>): (r: seq<string>)
    ensures forall kw :: kw in r <==> kw in kws && Contains(tl, kw)
  {
    if |kws| == 0 then []
    else
      var rest := Hits(tl, kws[1..]);
      assert kws == [kws[0]] + kws[1..];
      if Contains(tl, kws[0]) then [kws[0]] + rest else rest
  }

  /** `Hits` is the filter of the table by the occurrence test: it keeps the
      table order, and each occurring keyword as many times as it is listed. */
  lemma {:induction false} HitsFilter(tl: string, kws: seq<string>)
    ensures IsSubsequence(Hits(tl, kws), kws)
    ensures forall kw :: multiset(Hits(tl, kws))[kw] == if Contains(tl, kw) then multiset(kws)[kw] else 0
  {
    if |kws| > 0 {
      var rest := Hits(tl, kws[1..]);
      HitsFilter(tl, kws[1..]);
      assert kws == [kws[0]] + kws[1..];
      if !Contains(tl, kws[0]) {
        assert |rest| > 0 ==> rest[0] in rest;
        SubsequenceOfTail(rest, kws);
      }
    }
  }

  /** `_has_hits(text, keywords)`: whether any keyword occurs in the lowered
      text, and which ones. */
  function HasHits(text: string, keywords: seq<string>): (r: (bool, seq<string>))
    ensures r.0 <==> |r.1| > 0
    ensures r.0 <==> exists kw :: kw in keywords && Contains(Lower(text), kw)
    ensures r.1 == Hits(Lower(text), keywords)
  {
    var hits := Hits(Lower(text), keywords);
    assert |hits| > 0 ==> hits[0] in hits;
    (|hits| > 0, hits)
  }

  /** What a category's detector cites on the stripped text: matched keywords,
      or the URLs found by the link pattern. */
  function Evidence(c: Category, t: string): seq<string> {
    if c == SuspiciousLinks then FindAll(t) else HasHits(t, Keywords(c)).1
  }

  /** The detector of `c` fires on `t`. */
  predicate Triggered(c: Category, t: string) {
    |Evidence(c, t)| > 0
  }

  /** The description of each category, a label followed by ": ". */
  function ReasonPrefix(c: Category): (r: string)
    ensures |r| >= 2 && r[|r| - 2..] == ": "
  {
    match c
    case PromptInjection => "Intento de prompt injection: "
    case DataExfiltration => "Posible exfiltración de datos: "
    case CodeExecution => "Solicitud de ejecución de código/comandos: "
    case DependencyAttack => "Intento de ataque de dependencias: "
    case PolicyOverride => "Intento de evadir políticas: "
    case HarmfulActions => "Acciones potencialmente dañinas: "
    case SuspiciousLinks => "URLs sospechosas detectadas: "
  }

  /** The reason recorded for a triggered category: its description and the
      comma-joined evidence. */
  function Reason(c: Category, evidence: seq<string>): (r: string)
    ensures StartsWith(r, ReasonPrefix(c))
  {
    ReasonPrefix(c) + Join(evidence, ", ")
  }

  /** A reason cites every piece of its evidence. */
  lemma ReasonCitesEvidence(c: Category, evidence: seq<string>)
    ensures forall k :: 0 <= k < |evidence| ==> Contains(Reason(c, evidence), evidence[k])
  {
    forall k | 0 <= k < |evidence| ensures Contains(Reason(c, evidence), evidence[k]) {
      JoinContainsPart(evidence, ", ", k);
      ContainsRight(ReasonPrefix(c), Join(evidence, ", "), evidence[k]);
    }
  }

  /** What the detector of each category cites; `Detect(t)` is the
      analyzer's, the tally below works for any. */
  type Detector = Category -> seq<string>

  function Detect(t: string): Detector {
    c => Evidence(c, t)
  }

  /** A category's contribution: its full weight on any hit, 0 otherwise. */
  function CategoryScore(c: Category, ev: Detector): real {
    if |ev(c)| > 0 then Weight(c) else 0.0
  }

  /** What the analyzer has gathered after visiting some categories. */
  datatype Tally = Tally(scores: map<string, real>, reasons: seq<string>, suggestions: seq<string>)

  /** One detector block of `analyze_request`. */
  function Step(acc: Tally, c: Category, ev: Detector): Tally {
    if |ev(c)| > 0 then
      Tally(acc.scores[Name(c) := Weight(c)], acc.reasons + [Reason(c, ev(c))], acc.suggestions + Suggestions(c))
    else
      Tally(acc.scores[Name(c) := 0.0], acc.reasons, acc.suggestions)
  }

  /** The detector blocks for `cs`, run in order. */
  function Run(cs: seq<Category>, ev: Detector): Tally {
    if |cs| == 0 then Tally(map[], [], []) else Step(Run(cs[..|cs| - 1], ev), cs[|cs| - 1], ev)
  }

  /** The categories of `cs` whose detector fires, in order. */
  function TriggeredIn(cs: seq<Category>, ev: Detector): (r: seq<Category>)
    ensures forall c :: c in r <==> c in cs && |ev(c)| > 0
    ensures |r| <= |cs|
  {
    if |cs| == 0 then []
    else if |ev(cs[|cs| - 1])| > 0 then TriggeredIn(cs[..|cs| - 1], ev) + [cs[|cs| - 1]]
    else TriggeredIn(cs[..|cs| - 1], ev)
  }

  /** One reason per category of `ts`, in order. */
  function ReasonsFor(ts: seq<Category>, ev: Detector): (r: seq<string>)
    ensures |r| == |ts|
    ensures forall i :: 0 <= i < |ts| ==> r[i] == Reason(ts[i], ev(ts[i]))
  {
    seq(|ts|, i requires 0 <= i < |ts| => Reason(ts[i], ev(ts[i])))
  }

  /** The suggestion lists of `ts`, concatenated in order. */
  function SuggestionsFor(ts: seq<Category>): seq<string> {
    if |ts| == 0 then [] else SuggestionsFor(ts[..|ts| - 1]) + Suggestions(ts[|ts| - 1])
  }

  function SumWeights(ts: seq<Category>): real {
    if |ts| == 0 then 0.0 else SumWeights(ts[..|ts| - 1]) + Weight(ts[|ts| - 1])
  }

  lemma SuggestionsForSnoc(ts: seq<Category>, c: Category)
    ensures SuggestionsFor(ts + [c]) == SuggestionsFor(ts) + Suggestions(c)
  {
    assert (ts + [c])[..|ts|] == ts;
  }

  lemma SumWeightsSnoc(ts: seq<Category>, c: Category)
    ensures SumWeights(ts + [c]) == SumWeights(ts) + Weight(c)
  {
    assert (ts + [c])[..|ts|] == ts;
  }

  predicate Distinct(cs: seq<Category>) {
    forall i, j :: 0 <= i < j < |cs| ==> cs[i] != cs[j]
  }

  function NamesOf(cs: seq<Category>): set<string> {
    set c | c in cs :: Name(c)
  }

  /** Overwriting a key outside `cs` does not change the sum over `cs`. */
  lemma {:induction false} SumOverUpdate(cs: seq<Category>, m: map<string, real>, c: Category, x: real)
    requires forall d :: d in cs ==> Name(d) in m
    requires c !in cs
    ensures SumOver(cs, m[Name(c) := x]) == SumOver(cs, m)
  {
    NamesAreDistinctKeys();
    if |cs| > 0 {
      SumOverUpdate(cs[..|cs| - 1], m, c, x);
    }
  }

  lemma {:induction false} RunKeys(cs: seq<Category>, ev: Detector)
    ensures Run(cs, ev).scores.Keys == NamesOf(cs)
  {
    if |cs| > 0 {
      assert cs == cs[..|cs| - 1] + [cs[|cs| - 1]];
      RunKeys(cs[..|cs| - 1], ev);
    }
  }

  /** Each category of `cs` is scored 0 or its full weight. */
  lemma {:induction false} RunScores(cs: seq<Category>, ev: Detector)
    requires Distinct(cs)
    ensures forall c :: c in cs ==> Name(c) in Run(cs, ev).scores && Run(cs, ev).scores[Name(c)] == CategoryScore(c, ev)
  {
    if |cs| > 0 {
      var init, c := cs[..|cs| - 1], cs[|cs| - 1];
      assert cs == init + [c];
      RunScores(init, ev);
      var m := Run(cs, ev).scores;
      assert m == Run(init, ev).scores[Name(c) := CategoryScore(c, ev)];
      forall d | d in cs ensures Name(d) in m && m[Name(d)] == CategoryScore(d, ev) {
        if d != c {
          assert d in init;
          NamesAreDistinctKeys();
        }
      }
    }
  }

  /** One reason per triggered category, in category order. */
  lemma {:induction false} RunReasons(cs: seq<Category>, ev: Detector)
    ensures Run(cs, ev).reasons == ReasonsFor(TriggeredIn(cs, ev), ev)
  {
    if |cs| > 0 {
      var init, c := cs[..|cs| - 1], cs[|cs| - 1];
      RunReasons(init, ev);
      var ts := TriggeredIn(init, ev);
      if |ev(c)| > 0 {
        assert ReasonsFor(ts + [c], ev) == ReasonsFor(ts, ev) + [Reason(c, ev(c))];
      }
    }
  }

  /** The suggestions of the triggered categories, in category order. */
  lemma {:induction false} RunSuggestions(cs: seq<Category>, ev: Detector)
    ensures Run(cs, ev).suggestions == SuggestionsFor(TriggeredIn(cs, ev))
  {
    if |cs| > 0 {
      var init, c := cs[..|cs| - 1], cs[|cs| - 1];
      RunSuggestions(init, ev);
      var ts := TriggeredIn(init, ev);
      if |ev(c)| > 0 {
        SuggestionsForSnoc(ts, c);
      }
    }
  }

  /** Summing the category scores gives the weights of the triggered ones. */
  lemma {:induction false} RunSum(cs: seq<Category>, ev: Detector)
    requires Distinct(cs)
    ensures forall d :: d in cs ==> Name(d) in Run(cs, ev).scores
    ensures SumOver(cs, Run(cs, ev).scores) == SumWeights(TriggeredIn(cs, ev))
  {
    RunKeys(cs, ev);
    if |cs| > 0 {
      var init, c := cs[..|cs| - 1], cs[|cs| - 1];
      assert Distinct(init);
      assert c !in init;
      RunSum(init, ev);
      var acc := Run(init, ev);
      var m := Run(cs, ev).scores;
      assert m == acc.scores[Name(c) := CategoryScore(c, ev)];
      SumOverUpdate(init, acc.scores, c, CategoryScore(c, ev));
      assert SumOver(cs, m) == SumOver(init, m) + CategoryScore(c, ev);
      var ts := TriggeredIn(init, ev);
      if |ev(c)| > 0 {
        SumWeightsSnoc(ts, c);
      }
    }
  }

  lemma NamesOfOrder()
    ensures NamesOf(CategoryOrder) == CategoryNames
  {
    NamesAreDistinctKeys();
    CategoryOrderComplete();
    forall x | x in CategoryNames ensures x in NamesOf(CategoryOrder) {
      var c := CategoryNamed(x);
    }
  }

  /** The category a score key belongs to. */
  function CategoryNamed(x: string): (c: Category)
    requires x in CategoryNames
    ensures Name(c) == x
  {
    if x == "prompt_injection" then PromptInjection
    else if x == "data_exfiltration" then DataExfiltration
    else if x == "code_execution" then CodeExecution
    else if x == "dependency_attack" then DependencyAttack
    else if x == "policy_override" then PolicyOverride
    else if x == "harmful_actions" then HarmfulActions
    else SuspiciousLinks
  }

  /** Running all seven detector blocks scores every category and lists
      the reasons and suggestions of those that fire. */
  lemma RunOrder(ev: Detector)
    ensures Run(CategoryOrder, ev).scores.Keys == CategoryNames
    ensures forall c :: Name(c) in Run(CategoryOrder, ev).scores && Run(CategoryOrder, ev).scores[Name(c)] == CategoryScore(c, ev)
    ensures SumOver(CategoryOrder, Run(CategoryOrder, ev).scores) == SumWeights(TriggeredIn(CategoryOrder, ev))
    ensures Run(CategoryOrder, ev).reasons == ReasonsFor(TriggeredIn(CategoryOrder, ev), ev)
    ensures Run(CategoryOrder, ev).suggestions == SuggestionsFor(TriggeredIn(CategoryOrder, ev))
  {
    CategoryOrderComplete();
    RunKeys(CategoryOrder, ev);
    RunScores(CategoryOrder, ev);
    RunReasons(CategoryOrder, ev);
    RunSuggestions(CategoryOrder, ev);
    RunSum(CategoryOrder, ev);
    NamesOfOrder();
  }

  /** The threshold: a total strictly below it is safe. */
  const Threshold: real := 0.25

  /** The scorer's verdict before it is validated as a `SecurityResult`. */
  datatype Verdict = Verdict(
    isSafe: bool,
    score: real,
    categoryScores: map<string, real>,
    reasons: seq<string>,
    suggestions: seq<string>)

  /** The verdict for given detector results: every category scored, the
      total being the sum of the category scores, safe iff below 0.25. */
  function Decide(ev: Detector): (v: Verdict)
    ensures v.categoryScores.Keys == CategoryNames
    ensures forall c :: Name(c) in v.categoryScores && v.categoryScores[Name(c)] == CategoryScore(c, ev)
    ensures v.score == SumOver(CategoryOrder, v.categoryScores)
    ensures v.score == SumWeights(TriggeredIn(CategoryOrder, ev))
    ensures v.isSafe <==> v.score < Threshold
    ensures v.reasons == ReasonsFor(TriggeredIn(CategoryOrder, ev), ev)
    ensures v.suggestions == SuggestionsFor(TriggeredIn(CategoryOrder, ev))
  {
    var tally := Run(CategoryOrder, ev);
    RunOrder(ev);
    var total := SumOver(CategoryOrder, tally.scores);
    Verdict(total < Threshold, total, tally.scores, tally.reasons, tally.suggestions)
  }

  /** `analyze_request` before validation: the detectors run on the stripped input. */
  function Analyze(input: string): (v: Verdict)
    ensures v.categoryScores.Keys == CategoryNames
    ensures forall c :: Name(c) in v.categoryScores && v.categoryScores[Name(c)] == CategoryScore(c, Detect(Strip(input)))
    ensures v.score == SumWeights(TriggeredIn(CategoryOrder, Detect(Strip(input))))
    ensures v.isSafe <==> v.score < Threshold
    ensures v.reasons == ReasonsFor(TriggeredIn(CategoryOrder, Detect(Strip(input))), Detect(Strip(input)))
    ensures v.suggestions == SuggestionsFor(TriggeredIn(CategoryOrder, Detect(Strip(input))))
  {
    var ev := Detect(Strip(input));
    var v := Decide(ev);
    assert v.categoryScores.Keys == CategoryNames;
    v
  }

  /** The total is the sum of the seven category scores. */
  lemma SumOverSeven(m: map<string, real>)
    requires forall c :: Name(c) in m
    ensures SumOver(CategoryOrder, m) ==
      m[Name(PromptInjection)] + m[Name(DataExfiltration)] + m[Name(CodeExecution)]
      + m[Name(DependencyAttack)] + m[Name(PolicyOverride)] + m[Name(HarmfulActions)]
      + m[Name(SuspiciousLinks)]
  {
    var cs := CategoryOrder;
    var s1 := m[Name(PromptInjection)];
    var s2 := s1 + m[Name(DataExfiltration)];
    var s3 := s2 + m[Name(CodeExecution)];
    var s4 := s3 + m[Name(DependencyAttack)];
    var s5 := s4 + m[Name(PolicyOverride)];
    var s6 := s5 + m[Name(HarmfulActions)];
    assert SumOver(cs[..1], m) == s1 by { assert cs[..1][..0] == []; }
    assert SumOver(cs[..2], m) == s2 by { assert cs[..2][..1] == cs[..1]; }
    assert SumOver(cs[..3], m) == s3 by { assert cs[..3][..2] == cs[..2]; }
    assert SumOver(cs[..4], m) == s4 by { assert cs[..4][..3] == cs[..3]; }
    assert SumOver(cs[..5], m) == s5 by { assert cs[..5][..4] == cs[..4]; }
    assert SumOver(cs[..6], m) == s6 by { assert cs[..6][..5] == cs[..5]; }
    assert cs[..7] == cs;
  }

  /** The total is the sum of the category scores, each 0 or the full weight
      according to whether its detector fired. */
  lemma DecideDecomposes(ev: Detector)
    ensures Decide(ev).score ==
      CategoryScore(PromptInjection, ev) + CategoryScore(DataExfiltration, ev)
      + CategoryScore(CodeExecution, ev) + CategoryScore(DependencyAttack, ev)
      + CategoryScore(PolicyOverride, ev) + CategoryScore(HarmfulActions, ev)
      + CategoryScore(SuspiciousLinks, ev)
  {
    var v := Decide(ev);
    NamesAreDistinctKeys();
    SumOverSeven(v.categoryScores);
  }

  /** The total lies between 0 and the sum of all weights, 2.0. */
  lemma DecideBounds(ev: Detector)
    ensures 0.0 <= Decide(ev).score <= 2.0
  {
    DecideDecomposes(ev);
    WeightValues();
  }

  /** Firing more detectors never lowers the total nor makes a verdict safer. */
  lemma DecideMonotone(ev1: Detector, ev2: Detector)
    requires forall c :: |ev1(c)| > 0 ==> |ev2(c)| > 0
    ensures Decide(ev1).score <= Decide(ev2).score
    ensures Decide(ev2).isSafe ==> Decide(ev1).isSafe
  {
    DecideDecomposes(ev1);
    DecideDecomposes(ev2);
    WeightValues();
  }

  /** The categories that fire keep the table's order and occur once each. */
  lemma {:induction false} TriggeredInDistinct(cs: seq<Category>, ev: Detector)
    requires Distinct(cs)
    ensures Distinct(TriggeredIn(cs, ev))
  {
    if |cs| > 0 {
      TriggeredInDistinct(cs[..|cs| - 1], ev);
    }
  }

  lemma {:induction false} TriggeredOnly(cs: seq<Category>, ev: Detector, c: Category)
    requires Distinct(cs)
    requires forall d :: |ev(d)| > 0 <==> d == c
    ensures TriggeredIn(cs, ev) == if c in cs then [c] else []
  {
    if |cs| > 0 {
      var init := cs[..|cs| - 1];
      assert cs == init + [cs[|cs| - 1]];
      TriggeredOnly(init, ev, c);
    }
  }

  /** When exactly one detector fires, the total is that category's weight,
      and the verdict is unsafe unless the category is `suspicious_links`
      (0.20 is the only weight below the 0.25 threshold); one reason is given. */
  lemma DecideSingle(ev: Detector, c: Category)
    requires forall d :: |ev(d)| > 0 <==> d == c
    ensures Decide(ev).score == Weight(c)
    ensures Decide(ev).isSafe <==> c == SuspiciousLinks
    ensures |Decide(ev).reasons| == 1
  {
    DecideSingleScore(ev, c);
    WeightValues();
    CategoryOrderComplete();
    TriggeredOnly(CategoryOrder, ev, c);
  }

  lemma DecideSingleScore(ev: Detector, c: Category)
    requires forall d :: |ev(d)| > 0 <==> d == c
    ensures Decide(ev).score == Weight(c)
  {
    DecideDecomposes(ev);
    assert forall d :: CategoryScore(d, ev) == if d == c then Weight(c) else 0.0;
    match c
    case PromptInjection =>
    case DataExfiltration =>
    case CodeExecution =>
    case DependencyAttack =>
    case PolicyOverride =>
    case HarmfulActions =>
    case SuspiciousLinks =>
  }

  /** The three categories weighted 0.35 together exceed the declared
      maximum of 1.0. */
  lemma DecideHeavyTriple(ev: Detector)
    requires |ev(PromptInjection)| > 0 && |ev(DataExfiltration)| > 0 && |ev(HarmfulActions)| > 0
    ensures Decide(ev).score >= 1.05
  {
    DecideDecomposes(ev);
    WeightValues();
  }

  /** A firing detector adds its full weight; any keyword category firing
      is enough for an unsafe verdict, since its weight is at least 0.25. */
  lemma DecideFiring(ev: Detector, c: Category)
    requires |ev(c)| > 0
    ensures Decide(ev).score >= Weight(c)
    ensures c != SuspiciousLinks ==> !Decide(ev).isSafe
  {
    DecideDecomposes(ev);
    WeightValues();
  }

  /** The first category of `cs` whose detector fires heads the fired list. */
  lemma {:induction false} TriggeredInFirst(cs: seq<Category>, ev: Detector)
    requires |cs| > 0 && |ev(cs[0])| > 0
    ensures |TriggeredIn(cs, ev)| > 0 && TriggeredIn(cs, ev)[0] == cs[0]
  {
    if |cs| > 1 {
      var init := cs[..|cs| - 1];
      assert init[0] == cs[0];
      TriggeredInFirst(init, ev);
    }
  }

  /** Prompt injection is checked first, so when it fires its reason comes first. */
  lemma DecideCitesInjectionFirst(ev: Detector)
    requires |ev(PromptInjection)| > 0
    ensures |Decide(ev).reasons| > 0
    ensures Decide(ev).reasons[0] == Reason(PromptInjection, ev(PromptInjection))
  {
    TriggeredInFirst(CategoryOrder, ev);
  }

  /** The prompt-injection reason names the attack, in any letter case. */
  lemma InjectionReasonNamed(evidence: seq<string>)
    ensures Contains(Lower(Reason(PromptInjection, evidence)), "prompt injection")
  {
    var named, tail := "prompt injection", Join(evidence, ", ");
    assert ReasonPrefix(PromptInjection) == "Intento de " + named + ": ";
    assert IsLower(named);
    LowerOfLower(named);
    LowerConcat("Intento de " + named + ": ", tail);
    LowerConcat("Intento de " + named, ": ");
    LowerConcat("Intento de ", named);
    var low := Lower(Reason(PromptInjection, evidence));
    assert low[11..27] == named;
    assert MatchesAt(low, named, 11);
  }

  /** No detector fires: score 0, safe, nothing to report. */
  lemma DecideNoSignal(ev: Detector)
    requires forall c :: |ev(c)| == 0
    ensures Decide(ev).score == 0.0 && Decide(ev).isSafe
    ensures forall c :: Decide(ev).categoryScores[Name(c)] == 0.0
    ensures Decide(ev).reasons == [] && Decide(ev).suggestions == []
  {
    DecideDecomposes(ev);
  }

  lemma {:induction false} TriggeredInSame(cs: seq<Category>, ev1: Detector, ev2: Detector)
    requires forall c :: |ev1(c)| > 0 <==> |ev2(c)| > 0
    ensures TriggeredIn(cs, ev1) == TriggeredIn(cs, ev2)
  {
    if |cs| > 0 {
      TriggeredInSame(cs[..|cs| - 1], ev1, ev2);
    }
  }

  /** Firing the same detectors gives the same score, verdict, category
      scores and suggestions; only the evidence in the reasons may differ. */
  lemma DecideSame(ev1: Detector, ev2: Detector)
    requires forall c :: |ev1(c)| > 0 <==> |ev2(c)| > 0
    ensures Decide(ev1).score == Decide(ev2).score && Decide(ev1).isSafe == Decide(ev2).isSafe
    ensures Decide(ev1).categoryScores == Decide(ev2).categoryScores
    ensures Decide(ev1).suggestions == Decide(ev2).suggestions
  {
    DecideDecomposes(ev1);
    DecideDecomposes(ev2);
    SameCategoryScores(ev1, ev2);
    TriggeredInSame(CategoryOrder, ev1, ev2);
  }

  lemma SameCategoryScores(ev1: Detector, ev2: Detector)
    requires forall c :: CategoryScore(c, ev1) == CategoryScore(c, ev2)
    ensures Decide(ev1).categoryScores == Decide(ev2).categoryScores
  {
    var m1, m2 := Decide(ev1).categoryScores, Decide(ev2).categoryScores;
    forall k | k in m1 ensures k in m2 && m1[k] == m2[k] {
      var c := CategoryNamed(k);
    }
  }

  /** The record `analyze_request` returns: the verdict with no model name,
      built through the schema, so a total above 1.0 is refused. */
  function AnalyzeRequest(input: string): (r: Result<SecurityResult, ValidationError>)
    ensures r.Success? <==> Analyze(input).score <= 1.0
    ensures r.Failure? ==> r.error == ScoreOutOfRange(Analyze(input).score)
    ensures r.Success? ==> r.value.isSafe == Analyze(input).isSafe && r.value.score == Analyze(input).score
    ensures r.Success? ==> r.value.categoryScores == Analyze(input).categoryScores && r.value.modelUsed == ""
    ensures r.Success? ==> r.value.reasons == Analyze(input).reasons && r.value.suggestions == Analyze(input).suggestions
  {
    var v := Analyze(input);
    DecideBounds(Detect(Strip(input)));
    NewSecurityResult(v.isSafe, v.score, v.categoryScores, v.reasons, v.suggestions, "")
  }

  /** `analyze_request`'s total lies between 0 and the sum of all weights, 2.0. */
  lemma ScoreBounds(input: string)
    ensures 0.0 <= Analyze(input).score <= 2.0
  {
    DecideBounds(Detect(Strip(input)));
  }

  /** A request that fires more detectors never scores lower, and is never
      judged safer. */
  lemma MoreTriggersNoSafer(a: string, b: string)
    requires forall c :: Triggered(c, Strip(a)) ==> Triggered(c, Strip(b))
    ensures Analyze(a).score <= Analyze(b).score
    ensures Analyze(b).isSafe ==> Analyze(a).isSafe
  {
    var ev1, ev2 := Detect(Strip(a)), Detect(Strip(b));
    assert forall c :: |ev1(c)| > 0 ==> |ev2(c)| > 0 by {
      forall c ensures |ev1(c)| > 0 ==> |ev2(c)| > 0 {
        assert Triggered(c, Strip(a)) ==> Triggered(c, Strip(b));
      }
    }
    DecideMonotone(ev1, ev2);
  }

  /** A request that fires one detector only scores that category's weight,
      and is unsafe unless the category is `suspicious_links`. */
  lemma SingleTrigger(input: string, c: Category)
    requires forall d :: Triggered(d, Strip(input)) <==> d == c
    ensures Analyze(input).score == Weight(c)
    ensures Analyze(input).isSafe <==> c == SuspiciousLinks
    ensures |Analyze(input).reasons| == 1
  {
    var ev := Detect(Strip(input));
    assert forall d :: |ev(d)| > 0 <==> d == c by {
      forall d ensures |ev(d)| > 0 <==> d == c {
        assert Triggered(d, Strip(input)) <==> d == c;
      }
    }
    DecideSingle(ev, c);
  }

  /** Requests that fire the same detectors get the same score, verdict,
      category scores and suggestions. */
  lemma SameTriggersSameVerdict(a: string, b: string)
    requires forall c :: Triggered(c, Strip(a)) <==> Triggered(c, Strip(b))
    ensures Analyze(a).score == Analyze(b).score && Analyze(a).isSafe == Analyze(b).isSafe
    ensures Analyze(a).categoryScores == Analyze(b).categoryScores
    ensures Analyze(a).suggestions == Analyze(b).suggestions
  {
    var ev1, ev2 := Detect(Strip(a)), Detect(Strip(b));
    assert forall c :: |ev1(c)| > 0 <==> |ev2(c)| > 0 by {
      forall c ensures |ev1(c)| > 0 <==> |ev2(c)| > 0 {
        assert Triggered(c, Strip(a)) <==> Triggered(c, Strip(b));
      }
    }
    DecideSame(ev1, ev2);
  }

  /** An empty or whitespace-only request is safe with score 0 and no reasons. */
  lemma BlankInputIsSafe(input: string)
    requires forall k :: 0 <= k < |input| ==> IsSpace(input[k])
    ensures Analyze(input).score == 0.0 && Analyze(input).isSafe
    ensures Analyze(input).reasons == [] && Analyze(input).suggestions == []
  {
    StripBlank(input);
    forall c ensures |Detect(Strip(input))(c)| == 0 {
      if c != SuspiciousLinks {
        KeywordTableWellFormed(c);
      }
    }
    DecideNoSignal(Detect(Strip(input)));
  }

  lemma MalwareListedTwice()
    ensures multiset(HarmfulActionsKeywords)["malware"] >= 2
  {
    var kws := HarmfulActionsKeywords;
    HarmfulTableRepeats();
    assert kws == kws[..1] + kws[1..8] + kws[8..];
    assert kws[1..8][6] == "malware";
  }

  /** A keyword the table lists twice is cited twice: `malware` is both the
      first and the eighth harmful-actions keyword. */
  lemma RepeatedKeywordCitedTwice(t: string)
    requires Contains(Lower(t), "malware")
    ensures multiset(Evidence(HarmfulActions, t))["malware"] >= 2
  {
    var kws := HarmfulActionsKeywords;
    assert Evidence(HarmfulActions, t) == Hits(Lower(t), kws);
    HitsFilter(Lower(t), kws);
    MalwareListedTwice();
  }

  /** A keyword of `c`'s table occurring in the lowered text fires `c`. */
  lemma KeywordFires(t: string, c: Category, kw: string, i: nat)
    requires c != SuspiciousLinks && kw in Keywords(c)
    requires MatchesAt(Lower(t), kw, i)
    ensures |Detect(t)(c)| > 0 && kw in Detect(t)(c)
  {
  }

  const Overweight: string := "jailbreak secret malware"

  lemma OverweightIsItsOwnKey()
    ensures Lower(Strip(Overweight)) == Overweight
  {
    var s := Overweight;
    StripUnframed(s);
    assert IsLower(s);
    LowerOfLower(s);
  }

  lemma OverweightFiresInjection()
    ensures |Detect(Strip(Overweight))(PromptInjection)| > 0
  {
    OverweightIsItsOwnKey();
    assert PromptInjectionKeywords[3] == "jailbreak";
    assert MatchesAt(Overweight, "jailbreak", 0);
    KeywordFires(Strip(Overweight), PromptInjection, "jailbreak", 0);
  }

  lemma OverweightFiresExfiltration()
    ensures |Detect(Strip(Overweight))(DataExfiltration)| > 0
  {
    OverweightIsItsOwnKey();
    assert DataExfiltrationKeywords[0] == "secret";
    assert MatchesAt(Overweight, "secret", 10);
    KeywordFires(Strip(Overweight), DataExfiltration, "secret", 10);
  }

  lemma OverweightFiresHarmful()
    ensures |Detect(Strip(Overweight))(HarmfulActions)| > 0
  {
    OverweightIsItsOwnKey();
    assert HarmfulActionsKeywords[0] == "malware";
    assert MatchesAt(Overweight, "malware", 17);
    KeywordFires(Strip(Overweight), HarmfulActions, "malware", 17);
  }

  lemma OverweightScore()
    ensures Analyze(Overweight).score >= 1.05
  {
    OverweightFiresInjection();
    OverweightFiresExfiltration();
    OverweightFiresHarmful();
    DecideHeavyTriple(Detect(Strip(Overweight)));
  }

  /** The refused request: three keywords from three tables weighted 0.35
      each add up to 1.05, which the schema of the result does not admit. */
  lemma OverweightRequestRefused()
    ensures AnalyzeRequest(Overweight).Failure?
  {
    OverweightScore();
  }

  /** The record with the total capped at the declared maximum: every request
      gets a result, the verdict is unchanged, and whenever the total is
      already in range the result is exactly the unclamped one. */
  function AnalyzeRequestClamped(input: string): (r: Result<SecurityResult, ValidationError>)
    ensures r.Success? && ScoreInRange(r.value.score)
    ensures r.value.isSafe == Analyze(input).isSafe
    ensures Analyze(input).score <= 1.0 ==> r.value.score == Analyze(input).score
    ensures Analyze(input).score > 1.0 ==> r.value.score == 1.0
    ensures AnalyzeRequest(input).Success? ==> r == AnalyzeRequest(input)
  {
    var v := Analyze(input);
    DecideBounds(Detect(Strip(input)));
    var capped := if v.score <= 1.0 then v.score else 1.0;
    NewSecurityResult(v.isSafe, capped, v.categoryScores, v.reasons, v.suggestions, "")
  }

  /** The capped record accepts the request the unclamped one refuses. */
  lemma OverweightRequestClamped()
    ensures AnalyzeRequestClamped(Overweight).Success?
    ensures AnalyzeRequestClamped(Overweight).value.score == 1.0
    ensures !AnalyzeRequestClamped(Overweight).value.isSafe
  {
    OverweightScore();
  }
}
