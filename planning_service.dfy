/**
 * The planning service: request validation, defaulting the model's lesson
 * plan and curriculum JSON, the fallback plans, the engagement summary,
 * the display helpers of a class's plan listing, and the ownership checks
 * of get, update and delete. The language model, `json.loads`, the clock
 * and what the planning DAO returns are oracles; the plans the DAO holds
 * are a map in `PlanStore`.
 */
module PlanningService {
  import opened Wrappers
  import opened Text
  import opened Values
  import opened DaoErrorHandler

  // ---------------------------------------------------------------------
  // Validation
  // ---------------------------------------------------------------------

  predicate KnownPlanType(planType: string)
  {
    planType == "daily" || planType == "weekly" || planType == "monthly"
  }

  /** The checks `generate_lesson_plan` makes before its `try`: a class id, a known plan type, a duration of 1 to 365 days. */
  function ValidatePlanRequest(classId: Option<string>, planType: string, duration: int): (r: Option<Exception>)
    ensures r.None? <==> classId.Some? && classId.value != [] && KnownPlanType(planType) && 1 <= duration <= 365
    ensures EnsureDocumentId(classId, "class_id").Err? ==> r == Some(Dao(EnsureDocumentId(classId, "class_id").error))
    ensures EnsureDocumentId(classId, "class_id").Ok? && !KnownPlanType(planType) ==>
      r == Some(ValueError("Plan type must be 'daily', 'weekly', or 'monthly'"))
  {
    match EnsureDocumentId(classId, "class_id")
    case Err(e) => Some(Dao(e))
    case Ok(_) =>
      if !KnownPlanType(planType) then Some(ValueError("Plan type must be 'daily', 'weekly', or 'monthly'"))
      else if duration < 1 || duration > 365 then Some(ValueError("Duration must be between 1 and 365 days"))
      else None
  }

  /** The checks of `generate_detailed_curriculum_plan`: a class id, a subject that is not blank, a grade of 1 to 12, a semester of 30 to 365 days. */
  function ValidateCurriculumRequest(classId: Option<string>, subject: string, grade: int, semesterDuration: int): (r: Option<Exception>)
    ensures r.None? <==>
      classId.Some? && classId.value != [] && !IsBlank(subject) && 1 <= grade <= 12 && 30 <= semesterDuration <= 365
    ensures EnsureDocumentId(classId, "class_id").Err? ==> r == Some(Dao(EnsureDocumentId(classId, "class_id").error))
  {
    match EnsureDocumentId(classId, "class_id")
    case Err(e) => Some(Dao(e))
    case Ok(_) =>
      if IsBlank(subject) then Some(ValueError("Subject cannot be empty"))
      else if grade < 1 || grade > 12 then Some(ValueError("Grade level must be between 1 and 12"))
      else if semesterDuration < 30 || semesterDuration > 365 then Some(ValueError("Semester duration must be between 30 and 365 days"))
      else None
  }

  // ---------------------------------------------------------------------
  // Lesson plans from the model
  // ---------------------------------------------------------------------

  /** The `plan_overview` a parsed plan gets when the model left it out. */
  function DefaultOverview(planType: string, duration: int): Value
  {
    Obj(map[
      "title" := Str(Title(planType) + " Lesson Plan"),
      "description" := Str("Comprehensive " + planType + " educational plan"),
      "total_days" := Int(duration)])
  }

  function PlanDefaults(planType: string, duration: int): (d: Record)
    ensures "plan_overview" in d && "daily_schedule" in d
  {
    map["plan_overview" := DefaultOverview(planType, duration), "daily_schedule" := List([])]
  }

  /**
   * The defaulting in `_parse_lesson_plan_response`: an overview and an
   * empty schedule are added only where the model left them out; every
   * field the model returned is kept as it is.
   */
  function FillPlanDefaults(m: Record, planType: string, duration: int): (r: Record)
    ensures "plan_overview" in r && "daily_schedule" in r
    ensures r.Keys == m.Keys + PlanDefaults(planType, duration).Keys
    ensures forall k :: k in m ==> r[k] == m[k]
    ensures "plan_overview" !in m ==> r["plan_overview"] == DefaultOverview(planType, duration)
    ensures "daily_schedule" !in m ==> r["daily_schedule"] == List([])
  {
    PlanDefaults(planType, duration) + m
  }

  /** `_create_fallback_plan_data`: a basic overview and nothing scheduled; the class information is not used. */
  function FallbackPlanData(planType: string, duration: int): (r: Record)
    ensures "plan_overview" in r && "daily_schedule" in r && r["daily_schedule"] == List([])
    ensures r["plan_overview"].Obj? && "total_days" in r["plan_overview"].fields
    ensures r["plan_overview"].fields["total_days"] == Int(duration)
  {
    map[
      "plan_overview" := Obj(map[
        "title" := Str("Basic " + Title(planType) + " Plan"),
        "description" := Str("Simple " + planType + " educational plan"),
        "total_days" := Int(duration)]),
      "daily_schedule" := List([]),
      "assessment_plan" := Obj(map[]),
      "resources" := Obj(map[])]
  }

  /**
   * `_parse_lesson_plan_response`: a reply that does not decode parses to
   * the fallback plan data and a decoded dict gets its defaults; any other
   * decoded value makes the membership test or the assignment raise.
   */
  function ParseLessonPlanResponse(response: string, planType: string, duration: int, decode: string -> Option<Value>): (r: Result<Record, string>)
    ensures r.Err? <==> decode(response).Some? && !decode(response).value.Obj?
    ensures decode(response).None? ==> r == Ok(FallbackPlanData(planType, duration))
    ensures decode(response).Some? && decode(response).value.Obj? ==>
      r == Ok(FillPlanDefaults(decode(response).value.fields, planType, duration))
  {
    match decode(response)
    case None => Ok(FallbackPlanData(planType, duration))
    case Some(Obj(m)) => Ok(FillPlanDefaults(m, planType, duration))
    case Some(v) => Err("argument of type '" + TypeName(v) + "' is not iterable")
  }

  /**
   * The part of `_generate_ai_lesson_plan` inside its `try`: whatever the
   * model call or the parse raises becomes the fallback plan data, so the
   * plan always has an overview and a schedule.
   */
  function AiLessonPlan(reply: Result<string, string>, planType: string, duration: int, decode: string -> Option<Value>): (r: Record)
    ensures "plan_overview" in r && "daily_schedule" in r
    ensures reply.Err? ==> r == FallbackPlanData(planType, duration)
    ensures reply.Ok? && ParseLessonPlanResponse(reply.value, planType, duration, decode).Ok? ==>
      r == ParseLessonPlanResponse(reply.value, planType, duration, decode).value
  {
    if reply.Err? then FallbackPlanData(planType, duration)
    else match ParseLessonPlanResponse(reply.value, planType, duration, decode)
      case Ok(plan) => plan
      case Err(_) => FallbackPlanData(planType, duration)
  }

  // ---------------------------------------------------------------------
  // Engagement
  // ---------------------------------------------------------------------

  /** A metric's `engagement_score` (0 when missing) as a number, or `None` where `sum` raises. */
  function Score(metric: Record): (r: Option<real>)
    ensures "engagement_score" !in metric ==> r == Some(0.0)
  {
    match Get(metric, "engagement_score", Int(0))
    case Int(i) => Some(i as real)
    case Real(x) => Some(x)
    case Bool(b) => Some(if b then 1.0 else 0.0)
    case _ => None
  }

  /** The sum of the scores, or `None` when one of them is not a number. */
  function TotalScore(metrics: seq<Record>): (r: Option<real>)
    ensures r.Some? <==> forall i :: 0 <= i < |metrics| ==> Score(metrics[i]).Some?
  {
    if metrics == [] then Some(0.0)
    else match (Score(metrics[0]), TotalScore(metrics[1..]))
      case (Some(x), Some(rest)) => Some(x + rest)
      case _ =>
        assert forall i :: 1 <= i < |metrics| ==> metrics[i] == metrics[1..][i - 1];
        None
  }

  const NoEngagementData := "No engagement data available"
  const HighEngagement := "High student engagement - maintain current activity levels"
  const ModerateEngagement := "Moderate engagement - consider adding more interactive elements"
  const LowEngagement := "Low engagement - focus on hands-on activities and varied instructional methods"

  /**
   * `_analyze_engagement_metrics`: no metrics say so; otherwise the mean
   * score above 0.8 is high, above 0.6 moderate, anything else low. A
   * score that is not a number makes the sum raise.
   */
  function EngagementSummary(metrics: seq<Record>): (r: Result<string, string>)
    ensures r == Ok(NoEngagementData) <==> metrics == []
    ensures r.Err? <==> metrics != [] && TotalScore(metrics).None?
    ensures metrics != [] && TotalScore(metrics).Some? ==>
      var mean := TotalScore(metrics).value / (|metrics| as real);
      && (r == Ok(HighEngagement) <==> mean > 0.8)
      && (r == Ok(ModerateEngagement) <==> 0.6 < mean <= 0.8)
      && (r == Ok(LowEngagement) <==> mean <= 0.6)
  {
    if metrics == [] then Ok(NoEngagementData)
    else match TotalScore(metrics)
      case None => Err("unsupported operand type(s) for +")
      case Some(total) =>
        var mean := total / (|metrics| as real);
        if mean > 0.8 then Ok(HighEngagement)
        else if mean > 0.6 then Ok(ModerateEngagement)
        else Ok(LowEngagement)
  }

  /** The total of scores that each exceed `bound` exceeds `bound` times their number. */
  lemma {:induction false} TotalAbove(metrics: seq<Record>, bound: real)
    requires metrics != []
    requires forall i :: 0 <= i < |metrics| ==> Score(metrics[i]).Some? && Score(metrics[i]).value > bound
    ensures TotalScore(metrics).Some? && TotalScore(metrics).value > bound * (|metrics| as real)
  {
    if |metrics| > 1 {
      assert forall i :: 0 <= i < |metrics| - 1 ==> metrics[1..][i] == metrics[i + 1];
      TotalAbove(metrics[1..], bound);
    }
  }

  /** A class whose every metric shows engagement above 0.8 is summarised as highly engaged. */
  lemma AllEngagedIsHigh(metrics: seq<Record>)
    requires metrics != []
    requires forall i :: 0 <= i < |metrics| ==> Score(metrics[i]).Some? && Score(metrics[i]).value > 0.8
    ensures EngagementSummary(metrics) == Ok(HighEngagement)
  {
    TotalAbove(metrics, 0.8);
    var n := |metrics| as real;
    var total := TotalScore(metrics).value;
    assert total / n > 0.8 by {
      assert total > 0.8 * n;
    }
  }

  // ---------------------------------------------------------------------
  // generate_lesson_plan
  // ---------------------------------------------------------------------

  /** What the planning DAO returns for the class before the model is asked. */
  datatype ClassContext = ClassContext(
    classInfo: Record,
    holidays: seq<Record>,
    engagementMetrics: seq<Record>,
    existingPlans: seq<Record>)

  /** The truthy holiday dates, joined with commas in the prompt, are all strings. */
  predicate HolidayDatesJoin(holidays: seq<Record>)
  {
    forall i :: 0 <= i < |holidays| && Truthy(Get(holidays[i], "date", Str(""))) ==> Get(holidays[i], "date", Str("")).Str?
  }

  /**
   * The joins the prompt of `_generate_ai_lesson_plan` makes before its
   * `try`: the truthy holiday dates joined with commas, the engagement
   * summary, and the class's subjects joined with commas (a string or a
   * list of strings).
   */
  predicate PromptBuilds(ctx: ClassContext)
  {
    && HolidayDatesJoin(ctx.holidays)
    && EngagementSummary(ctx.engagementMetrics).Ok?
    && var subjects := Get(ctx.classInfo, "subjects", List([]));
       subjects.Str? || StringItems(subjects).Some?
  }

  /** The `metadata` of a generated plan: how much context it drew on. */
  datatype PlanMetadata = PlanMetadata(holidaysConsidered: nat, engagementDataPoints: nat, existingPlansReferenced: nat, generatedAt: string)

  /** What `generate_lesson_plan` returns. */
  datatype LessonPlanResult =
    | Generated(planId: Value, lessonPlan: Record, metadata: PlanMetadata, classId: string, size: Value, subjects: Value)
    | Fallback(fallbackId: string, lessonPlan: Record, generatedAt: string)

  /**
   * `_create_fallback_lesson_plan`: a basic overview and a single day of
   * general review dated today.
   */
  function FallbackLessonPlan(planType: string, duration: int, planId: string, today: string, now: string): (r: LessonPlanResult)
    ensures r.Fallback? && "plan_overview" in r.lessonPlan && "daily_schedule" in r.lessonPlan
    ensures r.lessonPlan["daily_schedule"].List? && |r.lessonPlan["daily_schedule"].items| == 1
  {
    Fallback(planId,
      map[
        "plan_overview" := Obj(map[
          "title" := Str("Basic " + Title(planType) + " Plan"),
          "description" := Str("Fallback " + planType + " educational plan"),
          "total_days" := Int(duration)]),
        "daily_schedule" := List([Obj(map[
          "day" := Int(1),
          "date" := Str(today),
          "activities" := List([Obj(map[
            "time" := Str("09:00-09:45"),
            "subject" := Str("General"),
            "topic" := Str("Review and Assessment"),
            "description" := Str("General review activities")])])])])],
      now)
  }

  /**
   * `generate_lesson_plan`: invalid requests raise through the service
   * decorator; after that, a failed DAO read, a class with no details, a
   * prompt that cannot be built or a failed save yields the fallback plan.
   * A generated plan records how many holidays, metrics and earlier plans
   * it drew on.
   */
  function GenerateLessonPlan(
    classId: Option<string>, planType: string, duration: int,
    context: Result<ClassContext, string>, reply: Result<string, string>, decode: string -> Option<Value>,
    saved: Result<Value, string>, fallbackId: string, today: string, now: string): (r: Result<LessonPlanResult, string>)
    ensures r.Err? <==> ValidatePlanRequest(classId, planType, duration).Some?
    ensures r.Ok? ==> "plan_overview" in r.value.lessonPlan && "daily_schedule" in r.value.lessonPlan
    ensures r.Ok? ==>
      (r.value.Fallback? <==> context.Err? || context.value.classInfo == map[] || !PromptBuilds(context.value) || saved.Err?)
    ensures r.Ok? && r.value.Generated? ==>
      && r.value.lessonPlan == AiLessonPlan(reply, planType, duration, decode)
      && r.value.planId == saved.value
      && r.value.metadata.holidaysConsidered == |context.value.holidays|
      && r.value.metadata.engagementDataPoints == |context.value.engagementMetrics|
      && r.value.metadata.existingPlansReferenced == |context.value.existingPlans|
  {
    var outcome: Result<LessonPlanResult, Exception> :=
      match ValidatePlanRequest(classId, planType, duration)
      case Some(e) => Err(e)
      case None =>
        var fallback := FallbackLessonPlan(planType, duration, fallbackId, today, now);
        if context.Err? || context.value.classInfo == map[] || !PromptBuilds(context.value) || saved.Err? then Ok(fallback)
        else
          var ctx := context.value;
          Ok(Generated(
            saved.value,
            AiLessonPlan(reply, planType, duration, decode),
            PlanMetadata(|ctx.holidays|, |ctx.engagementMetrics|, |ctx.existingPlans|, now),
            classId.value,
            Get(ctx.classInfo, "size", Int(0)),
            Get(ctx.classInfo, "subjects", List([]))));
    HandleServiceDaoErrors("generate_lesson_plan", outcome)
  }

  // ---------------------------------------------------------------------
  // Curriculum plans
  // ---------------------------------------------------------------------

  function CurriculumDefaults(subject: string, grade: int): (d: Record)
    ensures "curriculum_overview" in d && "units" in d && d["units"] == List([])
  {
    map[
      "curriculum_overview" := Obj(map["subject" := Str(subject), "grade_level" := Int(grade), "learning_outcomes" := List([])]),
      "units" := List([])]
  }

  /** What an undecodable curriculum reply parses to: one outcome, no units. */
  function FallbackCurriculum(subject: string, grade: int): (d: Record)
    ensures "curriculum_overview" in d && "units" in d && d["units"] == List([])
  {
    map[
      "curriculum_overview" := Obj(map[
        "subject" := Str(subject),
        "grade_level" := Int(grade),
        "learning_outcomes" := StrList(["Master key concepts in " + subject])]),
      "units" := List([]),
      "assessment_strategy" := Obj(map[]),
      "resources" := Obj(map[])]
  }

  /**
   * `_parse_curriculum_response`: an undecodable reply gives the fallback
   * curriculum, a decoded dict keeps its fields and gets an overview and an
   * empty unit list where they are missing; any other decoded value raises.
   */
  function ParseCurriculumResponse(response: string, subject: string, grade: int, decode: string -> Option<Value>): (r: Result<Record, string>)
    ensures r.Err? <==> decode(response).Some? && !decode(response).value.Obj?
    ensures r.Ok? ==> "curriculum_overview" in r.value && "units" in r.value
    ensures decode(response).None? ==> r == Ok(FallbackCurriculum(subject, grade))
    ensures decode(response).Some? && decode(response).value.Obj? ==>
      var m := decode(response).value.fields;
      && r.value.Keys == m.Keys + CurriculumDefaults(subject, grade).Keys
      && (forall k :: k in m ==> r.value[k] == m[k])
  {
    match decode(response)
    case None => Ok(FallbackCurriculum(subject, grade))
    case Some(Obj(m)) => Ok(CurriculumDefaults(subject, grade) + m)
    case Some(v) => Err("argument of type '" + TypeName(v) + "' is not iterable")
  }

  /** What `generate_detailed_curriculum_plan` returns. */
  datatype CurriculumResult = CurriculumResult(planId: Value, curriculum: Record, totalUnits: nat)

  /**
   * `generate_detailed_curriculum_plan`: unlike lesson plans there is no
   * fallback, so every failure (invalid request, missing class, model
   * call, parse, a `units` value without a length, save) leaves through
   * the service decorator.
   */
  function GenerateCurriculumPlan(
    classId: Option<string>, subject: string, grade: int, semesterDuration: int,
    classInfo: Result<Record, string>, reply: Result<string, string>, decode: string -> Option<Value>,
    saved: Result<Value, string>): (r: Result<CurriculumResult, string>)
    ensures ValidateCurriculumRequest(classId, subject, grade, semesterDuration).Some? ==> r.Err?
    ensures r.Ok? <==>
      && ValidateCurriculumRequest(classId, subject, grade, semesterDuration).None?
      && classInfo.Ok? && classInfo.value != map[]
      && reply.Ok? && ParseCurriculumResponse(reply.value, subject, grade, decode).Ok?
      && Len(ParseCurriculumResponse(reply.value, subject, grade, decode).value["units"]).Some?
      && saved.Ok?
    ensures r.Ok? ==>
      && r.value.curriculum == ParseCurriculumResponse(reply.value, subject, grade, decode).value
      && Len(r.value.curriculum["units"]) == Some(r.value.totalUnits)
      && r.value.planId == saved.value
  {
    var outcome: Result<CurriculumResult, Exception> :=
      match ValidateCurriculumRequest(classId, subject, grade, semesterDuration)
      case Some(e) => Err(e)
      case None =>
        if classInfo.Err? then Err(OtherException(classInfo.error))
        else if classInfo.value == map[] then Err(ValueError("Class details not found for class: " + classId.value))
        else if reply.Err? then Err(OtherException(reply.error))
        else match ParseCurriculumResponse(reply.value, subject, grade, decode)
          case Err(e) => Err(OtherException(e))
          case Ok(curriculum) =>
            match Len(curriculum["units"])
            case None => Err(OtherException("object of type '" + TypeName(curriculum["units"]) + "' has no len()"))
            case Some(n) =>
              if saved.Err? then Err(OtherException(saved.error))
              else Ok(CurriculumResult(saved.value, curriculum, n));
    HandleServiceDaoErrors("generate_detailed_curriculum_plan", outcome)
  }

  // ---------------------------------------------------------------------
  // Reading plans
  // ---------------------------------------------------------------------

  /**
   * `get_lesson_plan`: a missing or empty plan raises; the owner is not
   * enforced, so a plan is returned to any requester.
   */
  function GetLessonPlan(planId: Option<string>, userId: Option<string>, stored: Option<Record>): (r: Result<Record, string>)
    ensures r.Ok? <==> planId.Some? && planId.value != [] && stored.Some? && stored.value != map[]
    ensures r.Ok? ==> r.value == stored.value
    ensures planId.Some? && planId.value != [] && !(stored.Some? && stored.value != map[]) ==>
      r == HandleServiceDaoErrors("get_lesson_plan", Err(ValueError("Lesson plan not found")))
  {
    var outcome: Result<Record, Exception> :=
      match EnsureDocumentId(planId, "plan_id")
      case Err(e) => Err(Dao(e))
      case Ok(_) =>
        if stored.None? || stored.value == map[] then Err(ValueError("Lesson plan not found"))
        else Ok(stored.value);
    HandleServiceDaoErrors("get_lesson_plan", outcome)
  }

  /** `_generate_plan_title`: "{Type} Plan ({duration} days)", with "lesson" and 1 for missing fields; a type that is not a string raises. */
  function PlanTitle(plan: Record): (r: Result<string, string>)
    ensures r.Ok? <==> Get(plan, "plan_type", Str("lesson")).Str?
    ensures r.Ok? ==> EndsWith(r.value, " days)")
  {
    match Get(plan, "plan_type", Str("lesson"))
    case Str(t) =>
      var title := Title(t) + " Plan (" + Display(Get(plan, "duration", Int(1))) + " days)";
      assert title[|title| - 6..] == " days)";
      Ok(title)
    case other => Err("'" + TypeName(other) + "' object has no attribute 'title'")
  }

  /** `_generate_plan_summary`: the overview's description, with defaults for every missing level; a level that is not a dict raises. */
  function PlanSummary(plan: Record): (r: Result<Value, string>)
    ensures r.Ok? <==> (Get(plan, "content", Obj(map[])).Obj? &&
      Get(Get(plan, "content", Obj(map[])).fields, "plan_overview", Obj(map[])).Obj?)
    ensures "content" !in plan ==> r == Ok(Str("Educational lesson plan"))
  {
    match Get(plan, "content", Obj(map[]))
    case Obj(content) =>
      (match Get(content, "plan_overview", Obj(map[]))
       case Obj(overview) => Ok(Get(overview, "description", Str("Educational lesson plan")))
       case other => Err("'" + TypeName(other) + "' object has no attribute 'get'"))
    case other => Err("'" + TypeName(other) + "' object has no attribute 'get'")
  }

  /** `{**plan, display_title, summary, created_date}` with the date derived by `date`. */
  function DecoratePlan(plan: Record, date: Result<Value, string>): (r: Result<Record, string>)
    ensures r.Ok? <==> PlanTitle(plan).Ok? && PlanSummary(plan).Ok? && date.Ok?
    ensures r.Ok? ==>
      && plan.Keys <= r.value.Keys
      && "display_title" in r.value && r.value["display_title"] == Str(PlanTitle(plan).value)
      && "created_date" in r.value && r.value["created_date"] == date.value
  {
    var title := PlanTitle(plan);
    var summary := PlanSummary(plan);
    if title.Err? then Err(title.error)
    else if summary.Err? then Err(summary.error)
    else if date.Err? then Err(date.error)
    else Ok(plan + map["display_title" := Str(title.value), "summary" := summary.value, "created_date" := date.value])
  }

  /** One plan of `get_class_lesson_plans`, as written. */
  function EnhancePlanAsWritten(plan: Record): (r: Result<Record, string>)
    ensures Truthy(Get(plan, "created_at", Null)) && !Get(plan, "created_at", Null).Str? ==> r.Err?
    ensures r.Ok? <==>
      PlanTitle(plan).Ok? && PlanSummary(plan).Ok? && DateOfAsWritten(Get(plan, "created_at", Null)).Ok?
    ensures r.Ok? ==> plan.Keys <= r.value.Keys
  {
    DecoratePlan(plan, DateOfAsWritten(Get(plan, "created_at", Null)))
  }

  /** One plan of `get_class_lesson_plans`, with the date derived as intended. */
  function EnhancePlan(plan: Record): (r: Result<Record, string>)
    ensures r.Ok? <==> PlanTitle(plan).Ok? && PlanSummary(plan).Ok? && DateOf(Get(plan, "created_at", Null)).Ok?
    ensures r.Ok? ==>
      "created_date" in r.value && r.value["created_date"] == DateOf(Get(plan, "created_at", Null)).value
      && plan.Keys <= r.value.Keys
  {
    DecoratePlan(plan, DateOf(Get(plan, "created_at", Null)))
  }

  /**
   * As written, a plan whose `created_at` is the server timestamp the DAO
   * stores (read back as a `datetime`) makes the listing raise; with the
   * date derived as intended it is listed with the date part.
   */
  lemma StampedPlanListing(plan: Record, iso: string)
    requires PlanTitle(plan).Ok? && PlanSummary(plan).Ok?
    requires "created_at" in plan && plan["created_at"] == DateTime(iso)
    ensures EnhancePlanAsWritten(plan).Err?
    ensures EnhancePlan(plan).Ok? && EnhancePlan(plan).value["created_date"] == Str(DatePart(iso))
  {
  }

  /** Every plan of the list can be decorated by `enhance`. */
  predicate AllPlansDecorated(plans: seq<Record>, enhance: Record -> Result<Record, string>)
  {
    forall i :: 0 <= i < |plans| ==> enhance(plans[i]).Ok?
  }

  /** `decorated` is the decoration, by `enhance`, of the first plans of `plans`. */
  predicate DecoratedPrefix(plans: seq<Record>, decorated: seq<Record>, enhance: Record -> Result<Record, string>)
  {
    |decorated| <= |plans| && forall j :: 0 <= j < |decorated| ==> enhance(plans[j]) == Ok(decorated[j])
  }

  lemma DecoratedPrefixGrows(plans: seq<Record>, decorated: seq<Record>, next: Record, enhance: Record -> Result<Record, string>)
    requires DecoratedPrefix(plans, decorated, enhance) && |decorated| < |plans|
    requires enhance(plans[|decorated|]) == Ok(next)
    ensures DecoratedPrefix(plans, decorated + [next], enhance)
  {
    var grown := decorated + [next];
    forall j | 0 <= j < |grown|
      ensures enhance(plans[j]) == Ok(grown[j])
    {
      if j < |decorated| {
        assert grown[j] == decorated[j];
      }
    }
  }

  /** The decorating loop of `get_class_lesson_plans`: stops at the first plan that cannot be decorated. */
  method EnhancePlans(plans: seq<Record>, enhance: Record -> Result<Record, string>) returns (r: Result<seq<Record>, string>)
    ensures r.Ok? <==> AllPlansDecorated(plans, enhance)
    ensures r.Ok? ==> |r.value| == |plans| && DecoratedPrefix(plans, r.value, enhance)
  {
    var enhanced: seq<Record> := [];
    var i := 0;
    while i < |plans|
      invariant 0 <= i <= |plans|
      invariant |enhanced| == i
      invariant DecoratedPrefix(plans, enhanced, enhance)
    {
      var decorated := enhance(plans[i]);
      if decorated.Err? {
        assert !AllPlansDecorated(plans, enhance);
        return Err(decorated.error);
      }
      DecoratedPrefixGrows(plans, enhanced, decorated.value, enhance);
      enhanced := enhanced + [decorated.value];
      i := i + 1;
    }
    return Ok(enhanced);
  }

  /** A plan the planning DAO stored: its `created_at` is the server timestamp, read back as a `datetime`. */
  predicate Stamped(plan: Record)
  {
    "created_at" in plan && plan["created_at"].DateTime?
  }

  predicate SomeStamped(plans: seq<Record>)
  {
    exists i :: 0 <= i < |plans| && Stamped(plans[i])
  }

  /** As written, a list holding any stamped plan cannot be listed. */
  lemma StampedPlansBreakListingAsWritten(plans: seq<Record>, i: nat)
    requires i < |plans| && Stamped(plans[i])
    ensures !AllPlansDecorated(plans, EnhancePlanAsWritten)
  {
    assert EnhancePlanAsWritten(plans[i]).Err?;
  }

  /** With the date derived as intended, stamped plans with a title and a summary are all listed. */
  lemma StampedPlansAreListed(plans: seq<Record>)
    requires forall i :: 0 <= i < |plans| ==> Stamped(plans[i]) && PlanTitle(plans[i]).Ok? && PlanSummary(plans[i]).Ok?
    ensures AllPlansDecorated(plans, EnhancePlan)
  {
    forall i | 0 <= i < |plans|
      ensures EnhancePlan(plans[i]).Ok?
    {
      StampedPlanListing(plans[i], plans[i]["created_at"].iso);
    }
  }

  /**
   * `get_class_lesson_plans`: a class id and a limit of 1 to 100 are
   * required; then the DAO is asked for the plans (`fetched`: its answer,
   * or what it raised) and each plan is decorated for display, as written
   * by cutting `created_at` with `split`, so any stamped plan makes the
   * call raise.
   */
  method GetClassLessonPlans(classId: Option<string>, limit: int, fetched: Result<seq<Record>, string>)
    returns (r: Result<seq<Record>, string>)
    ensures r.Ok? <==> classId.Some? && classId.value != [] && 1 <= limit <= 100
                       && fetched.Ok? && AllPlansDecorated(fetched.value, EnhancePlanAsWritten)
    ensures classId.Some? && classId.value != [] && !(1 <= limit <= 100) ==>
      r == HandleServiceDaoErrors("get_class_lesson_plans", Err(ValueError("Limit must be between 1 and 100")))
    ensures r.Ok? ==> |r.value| == |fetched.value| && DecoratedPrefix(fetched.value, r.value, EnhancePlanAsWritten)
    ensures fetched.Ok? && SomeStamped(fetched.value) ==> r.Err?
  {
    var checked := EnsureDocumentId(classId, "class_id");
    if checked.Err? {
      r := HandleServiceDaoErrors("get_class_lesson_plans", Err(Dao(checked.error)));
      return;
    }
    if limit < 1 || limit > 100 {
      r := HandleServiceDaoErrors("get_class_lesson_plans", Err(ValueError("Limit must be between 1 and 100")));
      return;
    }
    if fetched.Err? {
      r := HandleServiceDaoErrors("get_class_lesson_plans", Err(OtherException(fetched.error)));
      return;
    }
    if SomeStamped(fetched.value) {
      var i :| 0 <= i < |fetched.value| && Stamped(fetched.value[i]);
      StampedPlansBreakListingAsWritten(fetched.value, i);
    }
    var listed := EnhancePlans(fetched.value, EnhancePlanAsWritten);
    if listed.Err? {
      r := HandleServiceDaoErrors("get_class_lesson_plans", Err(OtherException(listed.error)));
    } else {
      r := Ok(listed.value);
    }
  }

  /** `get_class_lesson_plans` with the date derived as intended: stamped plans with a title and a summary are all listed. */
  method GetClassLessonPlansFixed(classId: Option<string>, limit: int, fetched: Result<seq<Record>, string>)
    returns (r: Result<seq<Record>, string>)
    ensures r.Ok? <==> classId.Some? && classId.value != [] && 1 <= limit <= 100
                       && fetched.Ok? && AllPlansDecorated(fetched.value, EnhancePlan)
    ensures r.Ok? ==> |r.value| == |fetched.value| && DecoratedPrefix(fetched.value, r.value, EnhancePlan)
    ensures classId.Some? && classId.value != [] && 1 <= limit <= 100 && fetched.Ok?
      && (forall i :: 0 <= i < |fetched.value| ==>
            Stamped(fetched.value[i]) && PlanTitle(fetched.value[i]).Ok? && PlanSummary(fetched.value[i]).Ok?)
      ==> r.Ok?
  {
    var checked := EnsureDocumentId(classId, "class_id");
    if checked.Err? {
      r := HandleServiceDaoErrors("get_class_lesson_plans", Err(Dao(checked.error)));
      return;
    }
    if limit < 1 || limit > 100 {
      r := HandleServiceDaoErrors("get_class_lesson_plans", Err(ValueError("Limit must be between 1 and 100")));
      return;
    }
    if fetched.Err? {
      r := HandleServiceDaoErrors("get_class_lesson_plans", Err(OtherException(fetched.error)));
      return;
    }
    if forall i :: 0 <= i < |fetched.value| ==>
         Stamped(fetched.value[i]) && PlanTitle(fetched.value[i]).Ok? && PlanSummary(fetched.value[i]).Ok? {
      StampedPlansAreListed(fetched.value);
    }
    var listed := EnhancePlans(fetched.value, EnhancePlan);
    if listed.Err? {
      r := HandleServiceDaoErrors("get_class_lesson_plans", Err(OtherException(listed.error)));
    } else {
      r := Ok(listed.value);
    }
  }

  // ---------------------------------------------------------------------
  // Changing plans
  // ---------------------------------------------------------------------

  /** What update and delete report: whether the DAO's write went through. */
  datatype PlanWrite = PlanWrite(success: bool, planId: string)

  /** `user_id` as a truthy optional argument. */
  predicate Given(userId: Option<string>)
  {
    userId.Some? && userId.value != []
  }

  /** The fields `update_lesson_plan` writes on top of the caller's updates (the DAO adds `updated_at`). */
  function UpdateFields(updates: Record, userId: Option<string>, now: string): (r: Record)
    ensures updates.Keys <= r.Keys
  {
    updates + map[
      "last_modified_by" := (if userId.Some? then Str(userId.value) else Null),
      "last_modified_at" := Str(now),
      "updated_at" := DateTime(now)]
  }

  /** The lesson plans the planning DAO holds, by id. */
  class PlanStore {
    var plans: map<string, Record>

    constructor()
      ensures plans == map[]
    {
      plans := map[];
    }

    /**
     * The ownership check of update and delete: with a requester given,
     * the plan must exist (and not be empty) and belong to them.
     */
    function OwnershipError(planId: string, userId: Option<string>, action: string): (e: Option<Exception>)
      reads this
      ensures e.None? <==>
        !Given(userId) || (planId in plans && plans[planId] != map[] && Get(plans[planId], "user_id", Null) == Str(userId.value))
      ensures e.Some? ==> e.value.ValueError? || e.value.PermissionError?
    {
      if !Given(userId) then None
      else if planId !in plans || plans[planId] == map[] then Some(ValueError("Lesson plan not found"))
      else if Get(plans[planId], "user_id", Null) != Str(userId.value) then
        Some(PermissionError("Not authorized to " + action + " this lesson plan"))
      else None
    }

    /**
     * `update_lesson_plan`: the id is required and, with a requester, the
     * ownership check must pass, or nothing is written. The DAO's update
     * merges the fields into an existing plan and fails on a missing one;
     * the status is success exactly when the write went through.
     */
    method UpdateLessonPlan(planId: Option<string>, updates: Record, userId: Option<string>, now: string, writeOk: bool)
      returns (r: Result<PlanWrite, string>)
      modifies this
      ensures r.Err? <==> planId.None? || planId.value == [] || old(OwnershipError(planId.value, userId, "update")).Some?
      ensures r.Ok? ==> r.value.planId == planId.value && (r.value.success <==> writeOk && planId.value in old(plans))
      ensures r.Ok? && r.value.success ==>
        plans == old(plans)[planId.value := old(plans)[planId.value] + UpdateFields(updates, userId, now)]
      ensures !(r.Ok? && r.value.success) ==> plans == old(plans)
    {
      var checked := EnsureDocumentId(planId, "plan_id");
      if checked.Err? {
        r := HandleServiceDaoErrors("update_lesson_plan", Err(Dao(checked.error)));
        return;
      }
      var id := checked.value;
      var denied := OwnershipError(id, userId, "update");
      if denied.Some? {
        r := HandleServiceDaoErrors("update_lesson_plan", Err(denied.value));
        return;
      }
      var success := writeOk && id in plans;
      if success {
        plans := plans[id := plans[id] + UpdateFields(updates, userId, now)];
      }
      r := Ok(PlanWrite(success, id));
    }

    /**
     * `delete_lesson_plan`: the same checks as an update, with nothing
     * deleted when they fail; the status is success exactly when the DAO's
     * delete went through.
     */
    method DeleteLessonPlan(planId: Option<string>, userId: Option<string>, writeOk: bool) returns (r: Result<PlanWrite, string>)
      modifies this
      ensures r.Err? <==> planId.None? || planId.value == [] || old(OwnershipError(planId.value, userId, "delete")).Some?
      ensures r.Ok? ==> r.value == PlanWrite(writeOk, planId.value)
      ensures r.Ok? && writeOk ==> plans == old(plans) - {planId.value}
      ensures !(r.Ok? && writeOk) ==> plans == old(plans)
    {
      var checked := EnsureDocumentId(planId, "plan_id");
      if checked.Err? {
        r := HandleServiceDaoErrors("delete_lesson_plan", Err(Dao(checked.error)));
        return;
      }
      var id := checked.value;
      var denied := OwnershipError(id, userId, "delete");
      if denied.Some? {
        r := HandleServiceDaoErrors("delete_lesson_plan", Err(denied.value));
        return;
      }
      if writeOk {
        plans := plans - {id};
      }
      r := Ok(PlanWrite(writeOk, id));
    }
  }

  /** The message update and delete report alongside their status. */
  function WriteMessage(w: PlanWrite, action: string): string
  {
    if w.success then "Lesson plan " + action + " successfully" else "Failed to " + (if action == "updated" then "update" else "delete") + " lesson plan"
  }
}
