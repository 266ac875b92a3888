/**
 * `predictPerformance`: validates the request, asks the text-generation
 * service for a prediction, falls back to the scoring engine and the
 * suggestion rules when that fails, stores a record when a student is named,
 * and answers with the prediction.
 */
module Prediction {
  import opened Wrappers
  import opened Service
  import opened Seqs
  import opened Text
  import opened Scoring
  import opened Performance

  const FallbackConfidence: real := 85.0
  const MaxSuggestions: nat := 3
  const GeneralSubject := "General Performance"
  const MissingFieldsMessage := "All performance fields are required"
  const PredictionFailureMessage := "Server error during prediction"
  const SuccessMessage := "Prediction generated successfully"

  /**
   * The fallback's fixed messages: one per remediation rule, in the order the
   * rules are checked, and the encouragement given when none applies.
   */
  datatype Advice = ImproveAttendance | BetterAssignments | PrepareInternals | PracticalProjects | KeepItUp

  /** The remediation rules in the order they are checked. */
  const Rules: seq<Advice> := [ImproveAttendance, BetterAssignments, PrepareInternals, PracticalProjects]

  /** Whether a remediation rule applies; the encouragement is not a rule. */
  predicate Fires(a: Advice, m: Metrics) {
    match a
    case ImproveAttendance => m.attendance < 75.0
    case BetterAssignments => m.assignmentScore < 70.0
    case PrepareInternals => m.internalMarks < 60.0
    case PracticalProjects => m.projectMarks < 60.0
    case KeepItUp => false
  }

  /** The message each piece of advice is given as. */
  function AdviceText(a: Advice): string {
    match a
    case ImproveAttendance => "Improve attendance to ensure better engagement."
    case BetterAssignments => "Focus on submitting higher quality assignments."
    case PrepareInternals => "Prepare better for internal assessments."
    case PracticalProjects => "Put more effort into practical projects."
    case KeepItUp => "Keep up the good work! Aim for consistency."
  }

  /** Different advice reads differently. */
  lemma AdviceTextInjective(a: Advice, b: Advice)
    requires AdviceText(a) == AdviceText(b)
    ensures a == b
  {
  }

  /** Position in the fixed order. */
  function AdviceRank(a: Advice): nat {
    match a
    case ImproveAttendance => 0
    case BetterAssignments => 1
    case PrepareInternals => 2
    case PracticalProjects => 3
    case KeepItUp => 4
  }

  /** The rule as a list: itself when it applies, nothing otherwise. */
  function When(a: Advice, m: Metrics): seq<Advice> {
    if Fires(a, m) then [a] else []
  }

  /** The rules of `rules` that apply, in order. */
  function Fired(rules: seq<Advice>, m: Metrics): (r: seq<Advice>)
    ensures |r| <= |rules|
  {
    if rules == [] then []
    else When(rules[0], m) + Fired(rules[1..], m)
  }

  /** The fallback's advice: the rules that apply, or the encouragement, at most three. */
  function SuggestedAdvice(m: Metrics): (r: seq<Advice>)
    ensures 1 <= |r| <= MaxSuggestions
  {
    var fired := Fired(Rules, m);
    Take(if fired == [] then [KeepItUp] else fired, MaxSuggestions)
  }

  /** The texts of a list of advice, in the same order. */
  function Texts(advice: seq<Advice>): (r: seq<string>)
    ensures |r| == |advice|
    ensures forall i :: 0 <= i < |r| ==> r[i] == AdviceText(advice[i])
  {
    seq(|advice|, i requires 0 <= i < |advice| => AdviceText(advice[i]))
  }

  lemma TextsAppend(advice: seq<Advice>, a: Advice)
    ensures Texts(advice + [a]) == Texts(advice) + [AdviceText(a)]
  {
  }

  lemma TextsTake(advice: seq<Advice>, n: nat)
    ensures Take(Texts(advice), n) == Texts(Take(advice, n))
  {
  }

  /** The fallback's suggestions as sent back. */
  function Suggestions(m: Metrics): (r: seq<string>)
    ensures 1 <= |r| <= MaxSuggestions
  {
    Texts(SuggestedAdvice(m))
  }

  lemma FiredByRules(m: Metrics)
    ensures Fired(Rules, m) ==
      When(ImproveAttendance, m) + When(BetterAssignments, m) + When(PrepareInternals, m) + When(PracticalProjects, m)
  {
    var r3, r2, r1 := [PracticalProjects], [PrepareInternals, PracticalProjects],
                      [BetterAssignments, PrepareInternals, PracticalProjects];
    assert r3[1..] == [] && r2[1..] == r3 && r1[1..] == r2 && Rules[1..] == r1;
    assert Fired(r3, m) == When(PracticalProjects, m) + [];
    assert Fired(r2, m) == When(PrepareInternals, m) + Fired(r3, m);
    assert Fired(r1, m) == When(BetterAssignments, m) + Fired(r2, m);
    assert Fired(Rules, m) == When(ImproveAttendance, m) + Fired(r1, m);
  }

  /** Listed in strictly increasing rule order. */
  predicate InRuleOrder(s: seq<Advice>) {
    forall i, j :: 0 <= i < j < |s| ==> AdviceRank(s[i]) < AdviceRank(s[j])
  }

  /** The applicable rules keep the order of the rule list. */
  lemma {:induction false} FiredInRuleOrder(rules: seq<Advice>, m: Metrics)
    requires InRuleOrder(rules)
    ensures InRuleOrder(Fired(rules, m))
    ensures forall a :: a in Fired(rules, m) ==> a in rules
  {
    if rules != [] {
      var tail := rules[1..];
      assert InRuleOrder(tail);
      FiredInRuleOrder(tail, m);
      var rest := Fired(tail, m);
      assert forall a :: a in rest ==> AdviceRank(rules[0]) < AdviceRank(a);
      if Fires(rules[0], m) {
        assert Fired(rules, m) == [rules[0]] + rest;
      }
    }
  }

  /**
   * Which advice the fallback gives: each remediation exactly when its metric
   * is under its threshold (the project advice only when it is not cut off as
   * the fourth), and the encouragement exactly when no rule applies.
   */
  lemma SuggestionsExact(m: Metrics)
    ensures ImproveAttendance in SuggestedAdvice(m) <==> m.attendance < 75.0
    ensures BetterAssignments in SuggestedAdvice(m) <==> m.assignmentScore < 70.0
    ensures PrepareInternals in SuggestedAdvice(m) <==> m.internalMarks < 60.0
    ensures PracticalProjects in SuggestedAdvice(m) <==>
      m.projectMarks < 60.0 && !(m.attendance < 75.0 && m.assignmentScore < 70.0 && m.internalMarks < 60.0)
    ensures KeepItUp in SuggestedAdvice(m) <==>
      m.attendance >= 75.0 && m.assignmentScore >= 70.0 && m.internalMarks >= 60.0 && m.projectMarks >= 60.0
  {
    FiredByRules(m);
    var fired := Fired(Rules, m);
    if m.attendance < 75.0 && m.assignmentScore < 70.0 && m.internalMarks < 60.0 {
      assert SuggestedAdvice(m) == [ImproveAttendance, BetterAssignments, PrepareInternals];
    } else if fired == [] {
      assert SuggestedAdvice(m) == [KeepItUp];
    } else {
      assert SuggestedAdvice(m) == fired;
    }
  }

  /** The advice always comes in the fixed rule order. */
  lemma SuggestionsInRuleOrder(m: Metrics)
    ensures InRuleOrder(SuggestedAdvice(m))
  {
    assert InRuleOrder(Rules);
    FiredInRuleOrder(Rules, m);
    var fired := Fired(Rules, m);
    var all := if fired == [] then [KeepItUp] else fired;
    assert InRuleOrder(all);
    var r := Take(all, MaxSuggestions);
    assert forall i :: 0 <= i < |r| ==> r[i] == all[i];
  }

  /** A message is in the answer exactly when its advice is. */
  lemma SuggestionTexts(m: Metrics, a: Advice)
    ensures AdviceText(a) in Suggestions(m) <==> a in SuggestedAdvice(m)
  {
    var s, advice := Suggestions(m), SuggestedAdvice(m);
    if AdviceText(a) in s {
      var i :| 0 <= i < |s| && s[i] == AdviceText(a);
      AdviceTextInjective(advice[i], a);
    }
    if a in advice {
      var i :| 0 <= i < |advice| && advice[i] == a;
      assert s[i] == AdviceText(a);
    }
  }

  /** The worked examples: one low metric, and none. */
  lemma SuggestionExamples()
    ensures Suggestions(Metrics(60.0, 80.0, 80.0, 80.0, 0.0)) == [AdviceText(ImproveAttendance)]
    ensures Suggestions(Metrics(90.0, 90.0, 90.0, 90.0, 0.0)) == [AdviceText(KeepItUp)]
  {
    FiredByRules(Metrics(60.0, 80.0, 80.0, 80.0, 0.0));
    FiredByRules(Metrics(90.0, 90.0, 90.0, 90.0, 0.0));
  }

  /** The prediction as the controller holds it. */
  datatype PredictionResult = PredictionResult(
    grade: string,
    confidence: real,
    score: real,
    suggestions: seq<string>)

  /**
   * The fallback algorithm: recomputes the weighted score with its own copy of
   * the weights, picks the grade through an if/else chain and builds the
   * suggestions. It agrees with `calculateGrade`.
   */
  method FallbackPrediction(m: Metrics) returns (r: PredictionResult)
    ensures r.grade == Letter(CalculateGrade(m))
    ensures r.score == WeightedScore(m)
    ensures r.confidence == FallbackConfidence
    ensures r.suggestions == Suggestions(m)
  {
    var weightedScore :=
      m.attendance * 0.15
      + m.assignmentScore * 0.20
      + m.internalMarks * 0.25
      + m.projectMarks * 0.15
      + m.finalExamMarks * 0.25;

    var grade := "F";
    if weightedScore >= 85.0 {
      grade := "A";
    } else if weightedScore >= 70.0 {
      grade := "B";
    } else if weightedScore >= 55.0 {
      grade := "C";
    } else if weightedScore >= 40.0 {
      grade := "D";
    }
    assert grade == Letter(CalculateGrade(m));

    var suggestions := FallbackSuggestions(m);
    r := PredictionResult(grade, FallbackConfidence, weightedScore, suggestions);
  }

  /**
   * The fallback's suggestion list: one push per rule that fires, in rule
   * order, the encouragement when none fired, then the first three.
   */
  method FallbackSuggestions(m: Metrics) returns (r: seq<string>)
    ensures r == Suggestions(m)
  {
    var suggestions := PushFired(m);
    ghost var advice := Fired(Rules, m);
    if |suggestions| == 0 {
      TextsAppend(advice, KeepItUp);
      suggestions, advice := suggestions + [AdviceText(KeepItUp)], advice + [KeepItUp];
    }
    assert advice == (if Fired(Rules, m) == [] then [KeepItUp] else Fired(Rules, m));
    TextsTake(advice, MaxSuggestions);
    r := Take(suggestions, MaxSuggestions);
  }

  /** `if (<metric> < <threshold>) suggestions.push(<text>)` for one rule. */
  method PushWhen(suggestions: seq<string>, a: Advice, m: Metrics) returns (r: seq<string>)
    ensures r == suggestions + Texts(When(a, m))
  {
    r := suggestions;
    if Fires(a, m) {
      r := r + [AdviceText(a)];
    }
  }

  lemma TextsConcat(x: seq<Advice>, y: seq<Advice>)
    ensures Texts(x + y) == Texts(x) + Texts(y)
  {
  }

  /** The pushes of the four threshold rules, each when its metric is low. */
  method PushFired(m: Metrics) returns (suggestions: seq<string>)
    ensures suggestions == Texts(Fired(Rules, m))
  {
    suggestions := PushWhen([], ImproveAttendance, m);
    suggestions := PushWhen(suggestions, BetterAssignments, m);
    suggestions := PushWhen(suggestions, PrepareInternals, m);
    suggestions := PushWhen(suggestions, PracticalProjects, m);
    ghost var w1, w2, w3, w4 :=
      When(ImproveAttendance, m), When(BetterAssignments, m), When(PrepareInternals, m), When(PracticalProjects, m);
    assert [] + Texts(w1) == Texts(w1);
    TextsConcat(w1, w2);
    TextsConcat(w1 + w2, w3);
    TextsConcat(w1 + w2 + w3, w4);
    FiredByRules(m);
  }

  /** The fields read from the parsed answer; `suggestions` is None when missing or falsy. */
  datatype AiData = AiData(
    predictedGrade: string,
    confidence: real,
    predictedValue: real,
    suggestions: Option<seq<string>>)

  /** The answer the service path yields: None when the call fails or the text does not parse. */
  function AiAnswer(ai: Result<string, AiError>, parse: string -> Option<AiData>): Option<AiData> {
    match ai
    case Ok(text) => parse(StripCodeFences(text))
    case Err(_) => None
  }

  /** The prediction either path produces. */
  function PredictionOf(m: Metrics, ai: Result<string, AiError>, parse: string -> Option<AiData>)
    : (r: PredictionResult)
    ensures AiAnswer(ai, parse).None? ==>
      && r.grade == Letter(CalculateGrade(m))
      && r.score == WeightedScore(m)
      && r.confidence == FallbackConfidence
      && r.suggestions == Suggestions(m)
    ensures AiAnswer(ai, parse).Some? ==>
      var d := AiAnswer(ai, parse).value;
      && r.grade == d.predictedGrade
      && r.confidence == d.confidence
      && r.score == d.predictedValue
      && r.suggestions == d.suggestions.GetOr([])
  {
    match AiAnswer(ai, parse)
    case Some(d) => PredictionResult(d.predictedGrade, d.confidence, d.predictedValue, d.suggestions.GetOr([]))
    case None => PredictionResult(Letter(CalculateGrade(m)), FallbackConfidence, WeightedScore(m), Suggestions(m))
  }

  /** What the fallback guarantees: a grade letter, a score in range, confidence 85, one to three suggestions. */
  lemma FallbackGuarantees(m: Metrics, ai: Result<string, AiError>, parse: string -> Option<AiData>)
    requires AiAnswer(ai, parse).None?
    ensures var r := PredictionOf(m, ai, parse);
      && r.grade in {"A", "B", "C", "D", "F"}
      && (ValidMetrics(m) ==> IsPercentage(r.score))
      && r.confidence == 85.0
      && 1 <= |r.suggestions| <= 3
  {
    var g := CalculateGrade(m);
    assert Letter(g) in {"A", "B", "C", "D", "F"};
  }

  /** The body of a prediction request: every field may be missing. */
  datatype PredictRequest = PredictRequest(
    studentId: Option<string>,
    attendance: Option<real>,
    assignmentScore: Option<real>,
    internalMarks: Option<real>,
    projectMarks: Option<real>,
    finalExamMarks: Option<real>)

  /** The five metrics, when none of them is missing. */
  function MetricsOf(req: PredictRequest): (m: Option<Metrics>)
    ensures m.Some? <==>
      req.attendance.Some? && req.assignmentScore.Some? && req.internalMarks.Some?
      && req.projectMarks.Some? && req.finalExamMarks.Some?
    ensures m.Some? ==>
      m.value == Metrics(req.attendance.value, req.assignmentScore.value, req.internalMarks.value,
                         req.projectMarks.value, req.finalExamMarks.value)
  {
    if req.attendance.Some? && req.assignmentScore.Some? && req.internalMarks.Some?
       && req.projectMarks.Some? && req.finalExamMarks.Some?
    then Some(Metrics(req.attendance.value, req.assignmentScore.value, req.internalMarks.value,
                      req.projectMarks.value, req.finalExamMarks.value))
    else None
  }

  /** `if (studentId)`: present and not the empty string. */
  predicate NamesStudent(req: PredictRequest) {
    req.studentId.Some? && req.studentId.value != ""
  }

  /** The JSON body of a successful answer. */
  datatype PredictionResponse = PredictionResponse(
    predictedGrade: string,
    confidence: real,
    predictedValue: real,
    suggestions: seq<string>,
    message: string)

  function Respond(p: PredictionResult): PredictionResponse {
    PredictionResponse(p.grade, p.confidence, p.score, p.suggestions, SuccessMessage)
  }

  /** The record stored for a named student: the submitted metrics and the answered grade. */
  function PredictionRecord(studentId: string, m: Metrics, p: PredictionResult, now: int): PerformanceRecord {
    PerformanceRecord(studentId, GeneralSubject, m, p.grade, now)
  }

  /**
   * `predictPerformance`. A missing metric answers 400 whatever the service
   * would say and stores nothing; otherwise the answer is `PredictionOf`, and
   * a record is stored exactly when a student is named; a record the store
   * rejects turns the answer into a 500.
   */
  method PredictPerformance(
    req: PredictRequest,
    ai: Result<string, AiError>,
    parse: string -> Option<AiData>,
    now: int,
    store: PerformanceStore)
    returns (res: Result<PredictionResponse, HttpError>)
    modifies store
    ensures MetricsOf(req).None? ==>
      res == Err(HttpError(400, MissingFieldsMessage)) && store.records == old(store.records)
    ensures MetricsOf(req).Some? && !NamesStudent(req) ==>
      res == Ok(Respond(PredictionOf(MetricsOf(req).value, ai, parse)))
      && store.records == old(store.records)
    ensures MetricsOf(req).Some? && NamesStudent(req) ==>
      var m := MetricsOf(req).value;
      var p := PredictionOf(m, ai, parse);
      var rec := PredictionRecord(req.studentId.value, m, p, now);
      if SchemaValid(rec) then
        res == Ok(Respond(p)) && store.records == old(store.records) + [rec]
      else
        res == Err(HttpError(500, PredictionFailureMessage)) && store.records == old(store.records)
  {
    var metrics := MetricsOf(req);
    if metrics.None? {
      return Err(HttpError(400, MissingFieldsMessage));
    }
    var m := metrics.value;

    var predictionResult: PredictionResult;
    var aiData: Option<AiData> := None;
    if ai.Ok? {
      aiData := parse(StripCodeFences(ai.value));
    }
    if aiData.Some? {
      var d := aiData.value;
      predictionResult := PredictionResult(d.predictedGrade, d.confidence, d.predictedValue, d.suggestions.GetOr([]));
    } else {
      predictionResult := FallbackPrediction(m);
    }

    if NamesStudent(req) {
      var ok := store.Create(PredictionRecord(req.studentId.value, m, predictionResult, now));
      if !ok {
        return Err(HttpError(500, PredictionFailureMessage));
      }
    }
    res := Ok(Respond(predictionResult));
  }
}
