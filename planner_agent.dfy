/**
 * The planner agent's deterministic policies: the planning context built
 * from student data, personalisation when no reasoning engine is
 * available, recommendations, confidence, next steps, and the fallback
 * plan returned when anything raises. Lesson-plan generation and every
 * reasoning-engine call are oracles.
 */
module PlannerAgent {
  import opened Wrappers
  import opened Text
  import opened Values
  import opened AgentPolicy

  /** The fields of `PlannerRequest` the policies read. */
  datatype PlannerRequest = PlannerRequest(
    teacherId: string,
    classId: string,
    planType: string,
    duration: int,
    studentData: Option<Record>)

  /** Whether `request.student_data` is truthy. */
  predicate HasStudentData(req: PlannerRequest)
  {
    req.studentData.Some? && req.studentData.value != map[]
  }

  /** The `student_insights` entry of the planning context. */
  datatype StudentInsights = StudentInsights(
    totalStudents: nat,
    averagePerformance: Value,
    learningPreferences: Value,
    specialConsiderations: Value)

  /** The planning context; `studentInsights` is `None` where the source leaves the empty dict. */
  datatype PlanningContext = PlanningContext(studentInsights: Option<StudentInsights>, adkEnhanced: Option<Value>)

  /** What the reasoning engine answers to each request; `Err` when the call raises. */
  datatype EngineReplies = EngineReplies(
    analysis: Result<Value, string>,
    personalization: Result<Value, string>,
    recommendations: Result<Value, string>)

  /**
   * `_analyze_planning_context`. Student insights exist exactly when
   * student data was given and is not empty; `len` of a `students` value
   * that has no length raises, which the request handler turns into the
   * fallback. The engine's analysis is attached only when ADK is enabled
   * and an engine exists, with a failure marker if the call raised.
   */
  function AnalyzePlanningContext(req: PlannerRequest, engineUsable: bool, replies: EngineReplies): (r: Result<PlanningContext, string>)
    ensures r.Err? <==> HasStudentData(req) && Len(Get(req.studentData.value, "students", List([]))).None?
    ensures r.Ok? ==> (r.value.studentInsights.Some? <==> HasStudentData(req))
    ensures r.Ok? && r.value.studentInsights.Some? ==>
      var sd := req.studentData.value;
      && Len(Get(sd, "students", List([]))) == Some(r.value.studentInsights.value.totalStudents)
      && r.value.studentInsights.value.averagePerformance == Get(sd, "average_performance", Str("unknown"))
      && r.value.studentInsights.value.learningPreferences == Get(sd, "learning_preferences", List([]))
      && r.value.studentInsights.value.specialConsiderations == Get(sd, "special_considerations", List([]))
    ensures r.Ok? ==> (r.value.adkEnhanced.Some? <==> engineUsable)
    ensures r.Ok? && engineUsable ==>
      r.value.adkEnhanced.value == (if replies.analysis.Ok? then replies.analysis.value else FailedMarker())
  {
    var adk := if !engineUsable then None
      else if replies.analysis.Ok? then Some(replies.analysis.value)
      else Some(FailedMarker());
    if !HasStudentData(req) then Ok(PlanningContext(None, adk))
    else
      var sd := req.studentData.value;
      var students := Get(sd, "students", List([]));
      match Len(students)
      case None => Err("object of type '" + TypeName(students) + "' has no len()")
      case Some(n) =>
        Ok(PlanningContext(
          Some(StudentInsights(
            n,
            Get(sd, "average_performance", Str("unknown")),
            Get(sd, "learning_preferences", List([])),
            Get(sd, "special_considerations", List([])))),
          adk))
  }

  /**
   * `_personalize_with_adk`: records `personalization_details` on the plan
   * and changes nothing else. Without an engine the details say the engine
   * is unavailable; a raising engine leaves the failure marker.
   */
  function PersonalizeWithAdk(plan: Record, engineExists: bool, reply: Result<Value, string>): (r: Record)
    ensures r.Keys == plan.Keys + {"personalization_details"}
    ensures forall k :: k in plan && k != "personalization_details" ==> r[k] == plan[k]
    ensures !engineExists ==>
      r["personalization_details"] == UnavailableMarker()
    ensures engineExists && reply.Ok? ==> r["personalization_details"] == reply.value
    ensures engineExists && reply.Err? ==> r["personalization_details"] == FailedMarker()
  {
    if !engineExists then
      plan["personalization_details" := UnavailableMarker()]
    else if reply.Ok? then plan["personalization_details" := reply.value]
    else plan["personalization_details" := FailedMarker()]
  }

  const BaseRecommendations: seq<string> := ["Review objectives", "Include interactive elements"]
  const NextSteps: seq<string> := ["Customize the plan", "Prepare multimedia content", "Monitor engagement"]

  /** `_generate_recommendations`: the two fixed items, then the engine's list when it returned one of strings, cut to five. */
  function GenerateRecommendations(engineUsable: bool, reply: Result<Value, string>): (r: seq<string>)
    ensures 2 <= |r| <= 5 && r[..2] == BaseRecommendations
    ensures !engineUsable || reply.Err? ==> r == BaseRecommendations
    ensures engineUsable && reply.Ok? && StringItems(reply.value).Some? ==>
      r[2..] == Take(StringItems(reply.value).value, 3)
  {
    TopFive(BaseRecommendations,
      if engineUsable && reply.Ok? then StringItems(reply.value) else None)
  }

  /** `_calculate_confidence`, in hundredths: 0.7, plus 0.2 with ADK, plus 0.1 with student insights. */
  function CalculateConfidence(adkEnabled: bool, ctx: PlanningContext): (c: nat)
    ensures 70 <= c <= 100
    ensures c == 100 <==> adkEnabled && ctx.studentInsights.Some?
    ensures c == 70 <==> !adkEnabled && ctx.studentInsights.None?
  {
    CapAtOne(70 + (if adkEnabled then 20 else 0) + (if ctx.studentInsights.Some? then 10 else 0))
  }

  /** The `PlannerResponse` fields the policies decide; confidence in hundredths. */
  datatype PlannerResponse = PlannerResponse(
    lessonPlan: Record,
    fallbackError: Option<string>,
    recommendations: seq<string>,
    nextSteps: seq<string>,
    confidence: nat)

  /** The number of lessons the fallback plan has: `min(duration, 5)`, none for a non-positive duration. */
  function FallbackLessonCount(duration: int): (n: nat)
    ensures n <= 5
    ensures n == 5 <==> duration >= 5
    ensures 0 < duration <= 5 ==> n == duration
    ensures duration <= 0 ==> n == 0
  {
    if duration <= 0 then 0 else if duration < 5 then duration else 5
  }

  /** Lesson `i` of the fallback plan. */
  function FallbackLesson(i: nat): Value
  {
    Obj(map["day" := Int(i + 1), "topic" := Str("Lesson " + NatToString(i + 1))])
  }

  /**
   * `_generate_fallback_response`: one lesson per day up to five days, day
   * `i + 1` titled "Lesson i+1", built from the request alone; one
   * recommendation, one next step, confidence 0.4.
   */
  function FallbackResponse(req: PlannerRequest, error: string): (resp: PlannerResponse)
    ensures resp.lessonPlan.Keys == {"lessons"} && resp.lessonPlan["lessons"].List?
    ensures |resp.lessonPlan["lessons"].items| == FallbackLessonCount(req.duration)
    ensures forall i :: 0 <= i < |resp.lessonPlan["lessons"].items| ==> resp.lessonPlan["lessons"].items[i] == FallbackLesson(i)
    ensures resp.fallbackError == Some(error)
    ensures resp.recommendations == ["Review manually"] && resp.nextSteps == ["Add details"]
    ensures resp.confidence == 40
  {
    var n := FallbackLessonCount(req.duration);
    PlannerResponse(
      map["lessons" := List(seq(n, i requires 0 <= i < n => FallbackLesson(i)))],
      Some(error),
      ["Review manually"],
      ["Add details"],
      40)
  }

  /**
   * `handle_planning_request`: analyse the context, generate the plan,
   * personalise it when ADK is enabled, then attach recommendations,
   * confidence and next steps. Anything that raises on the way yields the
   * fallback response carrying the error.
   */
  function HandlePlanningRequest(
    req: PlannerRequest, adkEnabled: bool, engineExists: bool,
    generated: Result<Record, string>, replies: EngineReplies): (resp: PlannerResponse)
    ensures resp.fallbackError.Some? <==>
      AnalyzePlanningContext(req, adkEnabled && engineExists, replies).Err? || generated.Err?
    ensures resp.fallbackError.Some? ==> resp.confidence == 40 && resp.nextSteps == ["Add details"]
    ensures resp.fallbackError.None? ==>
      && resp.nextSteps == NextSteps
      && 70 <= resp.confidence <= 100
      && 2 <= |resp.recommendations| <= 5 && resp.recommendations[..2] == BaseRecommendations
      && generated.value.Keys <= resp.lessonPlan.Keys
      && ("personalization_details" in resp.lessonPlan <==> adkEnabled || "personalization_details" in generated.value)
  {
    var engineUsable := adkEnabled && engineExists;
    match AnalyzePlanningContext(req, engineUsable, replies)
    case Err(e) => FallbackResponse(req, e)
    case Ok(ctx) =>
      match generated
      case Err(e) => FallbackResponse(req, e)
      case Ok(plan) =>
        var personalized := if adkEnabled then PersonalizeWithAdk(plan, engineExists, replies.personalization) else plan;
        PlannerResponse(
          personalized,
          None,
          GenerateRecommendations(engineUsable, replies.recommendations),
          NextSteps,
          CalculateConfidence(adkEnabled, ctx))
  }

  /** The fallback is always less confident than a generated plan. */
  lemma FallbackLessConfident(
    req: PlannerRequest, adkEnabled: bool, engineExists: bool,
    generated: Result<Record, string>, replies: EngineReplies)
    ensures var resp := HandlePlanningRequest(req, adkEnabled, engineExists, generated, replies);
      resp.fallbackError.Some? <==> resp.confidence < 70
  {
  }
}
