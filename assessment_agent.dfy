/**
 * The assessment agent's deterministic policies: when a rubric is made,
 * how ADK enhancement and the adaptive features branch, recommendations,
 * confidence, next steps and the fallback assessment. Assessment and
 * rubric generation and every reasoning-engine call are oracles.
 */
module AssessmentAgent {
  import opened Wrappers
  import opened Text
  import opened Values
  import opened AgentPolicy

  /** The fields of `AssessmentRequest` the policies read. */
  datatype AssessmentRequest = AssessmentRequest(
    topic: string,
    assessmentType: string,
    duration: int,
    questionCount: int,
    adaptive: bool)

  /** What the reasoning engine answers to each request; `Err` when the call raises. */
  datatype EngineReplies = EngineReplies(
    enhancement: Result<Value, string>,
    adaptive: Result<Value, string>,
    rubric: Result<Value, string>,
    recommendations: Result<Value, string>)

  /** The assessment types that get a rubric. */
  predicate NeedsRubric(assessmentType: string)
  {
    assessmentType in {"assignment", "project", "essay"}
  }

  /** The three adaptive features every adaptive assessment starts with. */
  function BaseAdaptiveFeatures(): Record
  {
    map[
      "branching_logic" := Str("Adjust difficulty based on performance"),
      "personalization" := Str("Customize content based on learning style"),
      "real_time_feedback" := Str("Provide immediate feedback on answers")]
  }

  /**
   * `_generate_adaptive_features` (only ever called with an engine): the
   * three base features, updated with the engine's reply when it is a
   * dict, so that the engine's entries win; a raising call or a reply
   * `dict.update` rejects leaves the base features.
   */
  function AdaptiveFeatures(reply: Result<Value, string>): (r: Record)
    ensures BaseAdaptiveFeatures().Keys <= r.Keys
    ensures reply.Ok? && reply.value.Obj? ==>
      r.Keys == BaseAdaptiveFeatures().Keys + reply.value.fields.Keys &&
      forall k :: k in reply.value.fields ==> r[k] == reply.value.fields[k]
    ensures forall k :: k in BaseAdaptiveFeatures() && !(reply.Ok? && reply.value.Obj? && k in reply.value.fields) ==>
      r[k] == BaseAdaptiveFeatures()[k]
  {
    if reply.Ok? && reply.value.Obj? then BaseAdaptiveFeatures() + reply.value.fields
    else BaseAdaptiveFeatures()
  }

  /**
   * `_enhance_with_adk`: without an engine the assessment is only marked
   * unavailable; when the enhancement call raises it is marked failed; when
   * it answers, the answer is recorded and, for adaptive requests, the
   * adaptive features are added. No other field changes.
   */
  function EnhanceWithAdk(assessment: Record, req: AssessmentRequest, engineExists: bool, replies: EngineReplies): (r: Record)
    ensures r.Keys == assessment.Keys + {"adk_enhancement"} + (if "adaptive_features" in r then {"adaptive_features"} else {})
    ensures forall k :: k in assessment && k != "adk_enhancement" && k != "adaptive_features" ==> r[k] == assessment[k]
    ensures !engineExists ==> r["adk_enhancement"] == UnavailableMarker()
    ensures engineExists && replies.enhancement.Err? ==> r["adk_enhancement"] == FailedMarker()
    ensures engineExists && replies.enhancement.Ok? ==> r["adk_enhancement"] == replies.enhancement.value
    ensures engineExists && replies.enhancement.Ok? && req.adaptive ==>
      "adaptive_features" in r && r["adaptive_features"] == Obj(AdaptiveFeatures(replies.adaptive))
  {
    if !engineExists then assessment["adk_enhancement" := UnavailableMarker()]
    else if replies.enhancement.Err? then assessment["adk_enhancement" := FailedMarker()]
    else
      var enhanced := assessment["adk_enhancement" := replies.enhancement.value];
      if req.adaptive then enhanced["adaptive_features" := Obj(AdaptiveFeatures(replies.adaptive))]
      else enhanced
  }

  const ReviewClarity := "Review questions for clarity and bias"
  const EnsureAlignment := "Ensure alignment with learning objectives"
  const ImmediateFeedback := "Include immediate feedback for each question"
  const Milestones := "Provide clear milestones and deadlines"
  const TestAdaptiveLogic := "Test adaptive logic with sample responses"

  /** The item the `elif` chain adds: quizzes, then projects, then adaptive requests. */
  function TypeRecommendation(req: AssessmentRequest): (r: seq<string>)
    ensures |r| <= 1
  {
    if req.assessmentType == "quiz" then [ImmediateFeedback]
    else if req.assessmentType == "project" then [Milestones]
    else if req.adaptive then [TestAdaptiveLogic]
    else []
  }

  /** Which item the `elif` chain picks: the first branch that applies wins. */
  lemma TypeRecommendationCases(req: AssessmentRequest)
    ensures TypeRecommendation(req) == [ImmediateFeedback] <==> req.assessmentType == "quiz"
    ensures TypeRecommendation(req) == [Milestones] <==> req.assessmentType == "project"
    ensures TypeRecommendation(req) == [TestAdaptiveLogic] <==> req.assessmentType !in {"quiz", "project"} && req.adaptive
    ensures TypeRecommendation(req) == [] <==> req.assessmentType !in {"quiz", "project"} && !req.adaptive
  {
  }

  /**
   * `_generate_recommendations`: the two fixed items, at most one item of
   * the `elif` chain (so an adaptive quiz is not told to test its adaptive
   * logic), then the engine's list when it returned one of strings, cut to
   * five.
   */
  function GenerateRecommendations(req: AssessmentRequest, engineUsable: bool, reply: Result<Value, string>): (r: seq<string>)
    ensures 2 + |TypeRecommendation(req)| <= |r| <= 5
    ensures r[..2 + |TypeRecommendation(req)|] == [ReviewClarity, EnsureAlignment] + TypeRecommendation(req)
    ensures !engineUsable || reply.Err? ==> |r| == 2 + |TypeRecommendation(req)|
    ensures engineUsable && reply.Ok? && StringItems(reply.value).Some? ==>
      r[2 + |TypeRecommendation(req)|..] == Take(StringItems(reply.value).value, 3 - |TypeRecommendation(req)|)
  {
    var base := [ReviewClarity, EnsureAlignment] + TypeRecommendation(req);
    TopFive(base, if engineUsable && reply.Ok? then StringItems(reply.value) else None)
  }

  /** The `questions` value the confidence and the metadata measure. */
  function Questions(assessment: Record): Value
  {
    Get(assessment, "questions", List([]))
  }

  /**
   * `_calculate_confidence`, in hundredths: 0.8, plus 0.1 with ADK, plus
   * 0.1 when there are at least five questions; `None` where `len` of a
   * truthy `questions` value raises.
   */
  function CalculateConfidence(adkEnabled: bool, assessment: Record): (c: Option<nat>)
    ensures c.None? <==> Truthy(Questions(assessment)) && Len(Questions(assessment)).None?
    ensures c.Some? ==> 80 <= c.value <= 100
    ensures c.Some? ==> (c.value == 100 <==> adkEnabled && Len(Questions(assessment)).Some? && Len(Questions(assessment)).value >= 5)
  {
    var q := Questions(assessment);
    if !Truthy(q) then Some(CapAtOne(80 + if adkEnabled then 10 else 0))
    else match Len(q)
      case None => None
      case Some(n) => Some(CapAtOne(80 + (if adkEnabled then 10 else 0) + (if n >= 5 then 10 else 0)))
  }

  const SetUpDelivery := "Set up assessment delivery platform"
  const CreateRubric := "Create detailed rubric for grading"
  const ConfigureAdaptive := "Configure adaptive assessment settings"
  const PilotTest := "Pilot test with small group of students"

  /**
   * `_generate_next_steps`: finalise and set up delivery first, pilot test
   * last; a grading rubric step exactly for assignments and projects (not
   * essays, though they get a rubric) and an adaptive step exactly for
   * adaptive requests.
   */
  function GenerateNextSteps(req: AssessmentRequest): (steps: seq<string>)
    ensures 3 <= |steps| <= 5
    ensures steps[..2] == ["Review and finalize the " + req.assessmentType, SetUpDelivery]
    ensures steps[|steps| - 1] == PilotTest
  {
    ["Review and finalize the " + req.assessmentType, SetUpDelivery]
      + (if req.assessmentType in {"assignment", "project"} then [CreateRubric] else [])
      + (if req.adaptive then [ConfigureAdaptive] else [])
      + [PilotTest]
  }

  /** The rubric step appears exactly for assignments and projects, the adaptive step exactly for adaptive requests. */
  lemma NextStepsCases(req: AssessmentRequest)
    ensures CreateRubric in GenerateNextSteps(req) <==> req.assessmentType in {"assignment", "project"}
    ensures ConfigureAdaptive in GenerateNextSteps(req) <==> req.adaptive
  {
    var steps := GenerateNextSteps(req);
    assert steps[0][0] == 'R' && SetUpDelivery[0] == 'S' && PilotTest[0] == 'P';
    assert CreateRubric[0] == 'C' && ConfigureAdaptive[0] == 'C' && CreateRubric[1] == 'r' && ConfigureAdaptive[1] == 'o';
  }

  /** The `AssessmentResponse` fields the policies decide; confidence in hundredths. */
  datatype AssessmentResponse = AssessmentResponse(
    assessment: Record,
    rubric: Option<Record>,
    fallbackError: Option<string>,
    questionCount: Option<nat>,
    recommendations: seq<string>,
    nextSteps: seq<string>,
    confidence: nat)

  /** The number of questions the fallback assessment has: `min(question_count, 5)`, none when that is not positive. */
  function FallbackQuestionCount(questionCount: int): (n: nat)
    ensures n <= 5
    ensures 0 < questionCount <= 5 ==> n == questionCount
    ensures questionCount >= 5 ==> n == 5
    ensures questionCount <= 0 ==> n == 0
  {
    if questionCount <= 0 then 0 else if questionCount < 5 then questionCount else 5
  }

  /** Question `i` of the fallback assessment. */
  function FallbackQuestion(i: nat, topic: string): Value
  {
    Obj(map[
      "id" := Int(i + 1),
      "question" := Str("Question " + NatToString(i + 1) + " about " + topic),
      "type" := Str("short_answer")])
  }

  /**
   * `_generate_fallback_response`: up to five short-answer questions
   * numbered from one, built from the request alone, no rubric, one
   * recommendation, two next steps and confidence 0.4.
   */
  function FallbackResponse(req: AssessmentRequest, error: string): (resp: AssessmentResponse)
    ensures resp.rubric.None? && resp.fallbackError == Some(error) && resp.questionCount.None?
    ensures |resp.recommendations| == 1 && |resp.nextSteps| == 2
    ensures resp.confidence == 40
    ensures resp.assessment == FallbackAssessment(req)
    ensures "questions" in resp.assessment && resp.assessment["questions"].List?
    ensures |resp.assessment["questions"].items| == FallbackQuestionCount(req.questionCount)
    ensures "duration" in resp.assessment && resp.assessment["duration"] == Int(req.duration)
    ensures "status" in resp.assessment && resp.assessment["status"] == Str("fallback_generated")
  {
    FallbackAssessmentShape(req);
    AssessmentResponse(FallbackAssessment(req), None, Some(error), None,
      ["Review and enhance questions manually"],
      ["Add detailed questions", "Create answer keys"],
      40)
  }

  /** The assessment of the fallback response. */
  function FallbackAssessment(req: AssessmentRequest): Record
  {
    var n := FallbackQuestionCount(req.questionCount);
    map[
      "title" := Str("Basic " + req.assessmentType + " for " + req.topic),
      "type" := Str(req.assessmentType),
      "questions" := List(seq(n, i requires 0 <= i < n => FallbackQuestion(i, req.topic))),
      "duration" := Int(req.duration),
      "status" := Str("fallback_generated")]
  }

  /** The fallback assessment holds questions `1..n` about the topic, `n` being at most five, and is marked as a fallback. */
  lemma FallbackAssessmentShape(req: AssessmentRequest)
    ensures var a := FallbackAssessment(req);
      && a.Keys == {"title", "type", "questions", "duration", "status"}
      && a["questions"].List?
      && |a["questions"].items| == FallbackQuestionCount(req.questionCount)
      && (forall i :: 0 <= i < |a["questions"].items| ==> a["questions"].items[i] == FallbackQuestion(i, req.topic))
      && a["status"] == Str("fallback_generated")
  {
  }

  /**
   * `handle_assessment_request`: generate the assessment, a rubric for
   * assignments, projects and essays, enhance both when ADK is enabled,
   * then attach recommendations, confidence, next steps and the question
   * count. Generation failures and a `questions` value without a length
   * yield the fallback response.
   */
  function HandleAssessmentRequest(
    req: AssessmentRequest, adkEnabled: bool, engineExists: bool,
    generated: Result<Record, string>, rubric: Result<Record, string>, replies: EngineReplies): (resp: AssessmentResponse)
    ensures resp.fallbackError.Some? <==>
      generated.Err? || (NeedsRubric(req.assessmentType) && rubric.Err?) || Len(Questions(generated.value)).None?
    ensures resp.fallbackError.None? ==>
      && (resp.rubric.Some? <==> NeedsRubric(req.assessmentType))
      && Len(Questions(generated.value)) == resp.questionCount
      && 80 <= resp.confidence <= 100
      && resp.nextSteps == GenerateNextSteps(req)
      && generated.value.Keys <= resp.assessment.Keys
  {
    match generated
    case Err(e) => FallbackResponse(req, e)
    case Ok(assessment) =>
      if NeedsRubric(req.assessmentType) && rubric.Err? then FallbackResponse(req, rubric.error)
      else
        var madeRubric := if NeedsRubric(req.assessmentType) then Some(rubric.value) else None;
        match GeneratedResponse(req, adkEnabled, engineExists, assessment, madeRubric, replies)
        case Err(e) => FallbackResponse(req, e)
        case Ok(resp) => resp
  }

  /**
   * The rest of `handle_assessment_request` once the assessment and the
   * rubric exist: enhancement, recommendations, confidence, next steps and
   * the question count; `Err` where `len` of the questions raises.
   */
  function GeneratedResponse(
    req: AssessmentRequest, adkEnabled: bool, engineExists: bool,
    assessment: Record, madeRubric: Option<Record>, replies: EngineReplies): (r: Result<AssessmentResponse, string>)
    ensures r.Err? <==> Len(Questions(assessment)).None?
    ensures r.Ok? ==>
      && r.value.fallbackError.None?
      && (r.value.rubric.Some? <==> madeRubric.Some?)
      && Len(Questions(assessment)) == r.value.questionCount
      && 80 <= r.value.confidence <= 100
      && r.value.nextSteps == GenerateNextSteps(req)
      && assessment.Keys <= r.value.assessment.Keys
  {
    var enhanced := EnhancedAssessment(assessment, req, adkEnabled, engineExists, replies);
    var finalRubric :=
      if adkEnabled && madeRubric.Some? && madeRubric.value != map[] then
        Some(WithEngineAnswer(madeRubric.value, "adk_enhancement", engineExists, replies.rubric))
      else madeRubric;
    // The confidence and the metadata both take `len` of the questions;
    // whichever raises first, the error is the same.
    match Len(Questions(enhanced))
    case None => Err("object of type '" + TypeName(Questions(enhanced)) + "' has no len()")
    case Some(count) =>
      Ok(AssessmentResponse(
        enhanced,
        finalRubric,
        None,
        Some(count),
        GenerateRecommendations(req, adkEnabled && engineExists, replies.recommendations),
        GenerateNextSteps(req),
        CalculateConfidence(adkEnabled, enhanced).value))
  }

  /** The assessment after the optional ADK step: it keeps every field and its questions. */
  function EnhancedAssessment(assessment: Record, req: AssessmentRequest, adkEnabled: bool, engineExists: bool, replies: EngineReplies): (r: Record)
    ensures assessment.Keys <= r.Keys
    ensures Questions(r) == Questions(assessment)
    ensures adkEnabled ==> "adk_enhancement" in r
    ensures !adkEnabled ==> r == assessment
  {
    if adkEnabled then EnhanceWithAdk(assessment, req, engineExists, replies) else assessment
  }

  /** The fallback is always less confident than a generated assessment. */
  lemma FallbackLessConfident(
    req: AssessmentRequest, adkEnabled: bool, engineExists: bool,
    generated: Result<Record, string>, rubric: Result<Record, string>, replies: EngineReplies)
    ensures var resp := HandleAssessmentRequest(req, adkEnabled, engineExists, generated, rubric, replies);
      resp.fallbackError.Some? <==> resp.confidence < 80
  {
  }
}
