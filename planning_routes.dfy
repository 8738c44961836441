/**
 * The lesson-planning HTTP routes (routes/planning.py): the request models'
 * field checks, the update route's filtering of the fields it was given, the
 * plan-type filter of the class-plan listing, and the template catalogue's
 * category filter. The planning service each route calls is a parameter: its
 * result or the exception it raised.
 */
module PlanningRoutes {
  import opened Wrappers
  import opened Text
  import opened Values
  import opened RouteErrors
  import opened RequestFields

  // ---------------------------------------------------------------- LessonPlanRequest

  const ClassIdBlank := "Class ID cannot be empty"
  const PlanTypeMessage := "Plan type must be \"daily\", \"weekly\", or \"monthly\""
  const PlanTypes := {"daily", "weekly", "monthly"}

  /** A lesson-plan request as submitted; `None` is a field left out. */
  datatype LessonPlanInput = LessonPlanInput(classId: string, planType: Option<string>, duration: Option<int>,
                                             curriculumStandards: Option<seq<string>>, learningObjectives: Option<seq<string>>)

  /** A lesson-plan request that passed validation. */
  datatype LessonPlanRequest = LessonPlanRequest(classId: string, planType: string, duration: int,
                                                 curriculumStandards: Option<seq<string>>, learningObjectives: Option<seq<string>>)

  /** `class_id`: at least one character as submitted, not blank, stripped. */
  function ClassId(v: string): (r: Result<string, FieldError>)
    ensures r.Ok? <==> |v| >= 1 && !IsBlank(v)
    ensures r.Ok? ==> r.value == Strip(v) && r.value != []
  {
    RequiredText(v, 1, None, ClassIdBlank)
  }

  /** `plan_type`: "weekly" when left out, otherwise one of the three plan types. */
  function PlanType(v: Option<string>): (r: Result<string, FieldError>)
    ensures r.Ok? <==> v.None? || v.value in PlanTypes
    ensures r.Ok? ==> r.value in PlanTypes
    ensures v.Some? && r.Ok? ==> r.value == v.value
    ensures r.Err? ==> r.error == Invalid(PlanTypeMessage)
  {
    if v.None? then Ok("weekly") else OneOf(v.value, PlanTypes, Invalid(PlanTypeMessage))
  }

  /** `validate_lists`: a list left out stays out; a given one keeps its non-blank items, stripped. */
  function ListField(v: Option<seq<string>>): (r: Option<seq<string>>)
    ensures r.None? <==> v.None?
    ensures r.Some? ==> r.value == CleanList(v.value)
  {
    if v.None? then None else Some(CleanList(v.value))
  }

  /** The fields of a lesson-plan request that can fail. */
  datatype LessonPlanField = ClassIdField | PlanTypeField | DurationField

  /** The lesson-plan request, or the fields that failed. */
  function ValidateLessonPlan(x: LessonPlanInput): (r: Result<LessonPlanRequest, set<LessonPlanField>>)
    ensures r.Ok? <==> ClassId(x.classId).Ok? && PlanType(x.planType).Ok? && RangeOrDefault(x.duration, 7, 1, 365).Ok?
    ensures r.Ok? ==> r.value == LessonPlanRequest(ClassId(x.classId).value, PlanType(x.planType).value,
                                                    RangeOrDefault(x.duration, 7, 1, 365).value,
                                                    ListField(x.curriculumStandards), ListField(x.learningObjectives))
    ensures r.Err? ==> ((ClassIdField in r.error <==> ClassId(x.classId).Err?)
                        && (PlanTypeField in r.error <==> PlanType(x.planType).Err?)
                        && (DurationField in r.error <==> RangeOrDefault(x.duration, 7, 1, 365).Err?))
  {
    var classId := ClassId(x.classId);
    var planType := PlanType(x.planType);
    var duration := RangeOrDefault(x.duration, 7, 1, 365);
    if classId.Ok? && planType.Ok? && duration.Ok? then
      Ok(LessonPlanRequest(classId.value, planType.value, duration.value,
                           ListField(x.curriculumStandards), ListField(x.learningObjectives)))
    else
      Err(LessonPlanFailures(classId.Err?, planType.Err?, duration.Err?))
  }

  /** The fields named by their failure flags. */
  function LessonPlanFailures(classId: bool, planType: bool, duration: bool): (r: set<LessonPlanField>)
    ensures ClassIdField in r <==> classId
    ensures PlanTypeField in r <==> planType
    ensures DurationField in r <==> duration
  {
    (if classId then {ClassIdField} else {}) + (if planType then {PlanTypeField} else {}) + (if duration then {DurationField} else {})
  }

  /**
   * An accepted lesson-plan request has a stripped, non-blank class id, one
   * of the three plan types, a duration of 1 to 365 days (7 when left out),
   * and lists without blank items.
   */
  lemma AcceptedLessonPlanIsClean(x: LessonPlanInput)
    requires ValidateLessonPlan(x).Ok?
    ensures var q := ValidateLessonPlan(x).value;
      && q.classId == Strip(x.classId) && q.classId != []
      && q.planType in PlanTypes
      && 1 <= q.duration <= 365 && (x.duration.None? ==> q.duration == 7)
      && (q.curriculumStandards.Some? <==> x.curriculumStandards.Some?)
      && (q.curriculumStandards.Some? ==> forall i :: 0 <= i < |q.curriculumStandards.value| ==> q.curriculumStandards.value[i] != [])
      && (q.learningObjectives.Some? <==> x.learningObjectives.Some?)
      && (q.learningObjectives.Some? ==> forall i :: 0 <= i < |q.learningObjectives.value| ==> q.learningObjectives.value[i] != [])
  {
  }

  // ---------------------------------------------------------------- CurriculumPlanRequest

  const FieldBlank := "Field cannot be empty"

  datatype CurriculumPlanInput = CurriculumPlanInput(classId: string, subject: string, gradeLevel: int, semesterDuration: Option<int>)
  datatype CurriculumPlanRequest = CurriculumPlanRequest(classId: string, subject: string, gradeLevel: int, semesterDuration: int)

  /** The fields of a curriculum-plan request that can fail. */
  datatype CurriculumPlanField = ClassIdOf | SubjectOf | GradeLevelOf | SemesterDurationOf

  /** `class_id` and `subject` of a curriculum plan: at least one character as submitted, not blank, stripped. */
  function CurriculumText(v: string): (r: Result<string, FieldError>)
    ensures r.Ok? <==> |v| >= 1 && !IsBlank(v)
    ensures r.Ok? ==> r.value == Strip(v) && r.value != []
  {
    RequiredText(v, 1, None, FieldBlank)
  }

  /** The curriculum-plan request, or the fields that failed. */
  function ValidateCurriculumPlan(x: CurriculumPlanInput): (r: Result<CurriculumPlanRequest, set<CurriculumPlanField>>)
    ensures r.Ok? <==> (CurriculumText(x.classId).Ok? && CurriculumText(x.subject).Ok? && InRange(x.gradeLevel, 1, 12).Ok?
                        && RangeOrDefault(x.semesterDuration, 90, 30, 365).Ok?)
    ensures r.Ok? ==> r.value == CurriculumPlanRequest(CurriculumText(x.classId).value, CurriculumText(x.subject).value,
                                                        x.gradeLevel, RangeOrDefault(x.semesterDuration, 90, 30, 365).value)
    ensures r.Err? ==> ((ClassIdOf in r.error <==> CurriculumText(x.classId).Err?)
                        && (SubjectOf in r.error <==> CurriculumText(x.subject).Err?)
                        && (GradeLevelOf in r.error <==> InRange(x.gradeLevel, 1, 12).Err?)
                        && (SemesterDurationOf in r.error <==> RangeOrDefault(x.semesterDuration, 90, 30, 365).Err?))
  {
    var classId := CurriculumText(x.classId);
    var subject := CurriculumText(x.subject);
    var grade := InRange(x.gradeLevel, 1, 12);
    var semester := RangeOrDefault(x.semesterDuration, 90, 30, 365);
    if classId.Ok? && subject.Ok? && grade.Ok? && semester.Ok? then
      Ok(CurriculumPlanRequest(classId.value, subject.value, grade.value, semester.value))
    else
      Err(CurriculumFailures(classId.Err?, subject.Err?, grade.Err?, semester.Err?))
  }

  /** The fields named by their failure flags. */
  function CurriculumFailures(classId: bool, subject: bool, grade: bool, semester: bool): (r: set<CurriculumPlanField>)
    ensures ClassIdOf in r <==> classId
    ensures SubjectOf in r <==> subject
    ensures GradeLevelOf in r <==> grade
    ensures SemesterDurationOf in r <==> semester
  {
    (if classId then {ClassIdOf} else {}) + (if subject then {SubjectOf} else {})
    + (if grade then {GradeLevelOf} else {}) + (if semester then {SemesterDurationOf} else {})
  }

  /**
   * An accepted curriculum plan has a stripped, non-blank class id and
   * subject, a grade of 1 to 12 and a semester of 30 to 365 days, 90 when
   * left out.
   */
  lemma AcceptedCurriculumPlanIsClean(x: CurriculumPlanInput)
    requires ValidateCurriculumPlan(x).Ok?
    ensures var q := ValidateCurriculumPlan(x).value;
      && q.classId == Strip(x.classId) && q.classId != [] && q.subject == Strip(x.subject) && q.subject != []
      && 1 <= q.gradeLevel <= 12 && 30 <= q.semesterDuration <= 365
      && (x.semesterDuration.None? ==> q.semesterDuration == 90)
  {
  }

  // ---------------------------------------------------------------- LessonPlanUpdateRequest

  const UpdateBlank := "Field cannot be empty if provided"

  /**
   * `title`, `description` and `notes` of an update: a field left out stays
   * out; a given one must not exceed its maximum length as submitted, must
   * not be blank (the empty string included), and is stripped.
   */
  function OptionalText(v: Option<string>, maxLen: nat): (r: Result<Option<string>, FieldError>)
    ensures v.None? ==> r == Ok(None)
    ensures v.Some? ==> (r.Ok? <==> |v.value| <= maxLen && !IsBlank(v.value))
    ensures v.Some? && |v.value| > maxLen ==> r == Err(Constraint)
    ensures v.Some? && |v.value| <= maxLen && IsBlank(v.value) ==> r == Err(Invalid(UpdateBlank))
    ensures v.Some? && r.Ok? ==> r.value == Some(Strip(v.value)) && Strip(v.value) != []
  {
    if v.None? then Ok(None)
    else if |v.value| > maxLen then Err(Constraint)
    else if IsBlank(v.value) then Err(Invalid(UpdateBlank))
    else Ok(Some(Strip(v.value)))
  }

  /** An update as submitted, and as validated: every field may be left out. */
  datatype UpdateInput = UpdateInput(title: Option<string>, description: Option<string>, content: Option<Record>, notes: Option<string>)
  datatype UpdateRequest = UpdateRequest(title: Option<string>, description: Option<string>, content: Option<Record>, notes: Option<string>)

  datatype UpdateField = TitleField | DescriptionField | NotesField

  /** The update request, or the fields that failed. */
  function ValidateUpdate(x: UpdateInput): (r: Result<UpdateRequest, set<UpdateField>>)
    ensures r.Ok? <==> OptionalText(x.title, 200).Ok? && OptionalText(x.description, 1000).Ok? && OptionalText(x.notes, 2000).Ok?
    ensures r.Ok? ==> r.value == UpdateRequest(OptionalText(x.title, 200).value, OptionalText(x.description, 1000).value,
                                                x.content, OptionalText(x.notes, 2000).value)
    ensures r.Err? ==> ((TitleField in r.error <==> OptionalText(x.title, 200).Err?)
                        && (DescriptionField in r.error <==> OptionalText(x.description, 1000).Err?)
                        && (NotesField in r.error <==> OptionalText(x.notes, 2000).Err?))
  {
    var title := OptionalText(x.title, 200);
    var description := OptionalText(x.description, 1000);
    var notes := OptionalText(x.notes, 2000);
    if title.Ok? && description.Ok? && notes.Ok? then
      Ok(UpdateRequest(title.value, description.value, x.content, notes.value))
    else
      Err(UpdateFailures(title.Err?, description.Err?, notes.Err?))
  }

  /** The fields named by their failure flags. */
  function UpdateFailures(title: bool, description: bool, notes: bool): (r: set<UpdateField>)
    ensures TitleField in r <==> title
    ensures DescriptionField in r <==> description
    ensures NotesField in r <==> notes
  {
    (if title then {TitleField} else {}) + (if description then {DescriptionField} else {}) + (if notes then {NotesField} else {})
  }

  /** `{k: v for k, v in request.dict().items() if v is not None}`. */
  function Updates(u: UpdateRequest): (r: Record)
  {
    (if u.title.Some? then map["title" := Str(u.title.value)] else map[])
    + (if u.description.Some? then map["description" := Str(u.description.value)] else map[])
    + (if u.content.Some? then map["content" := Obj(u.content.value)] else map[])
    + (if u.notes.Some? then map["notes" := Str(u.notes.value)] else map[])
  }

  /**
   * The update holds exactly the fields that were given, with their values;
   * it is empty exactly when none was. A given `content`, even an empty
   * one, counts as an update.
   */
  lemma UpdatesHoldGivenFields(u: UpdateRequest)
    ensures "title" in Updates(u) <==> u.title.Some?
    ensures "description" in Updates(u) <==> u.description.Some?
    ensures "content" in Updates(u) <==> u.content.Some?
    ensures "notes" in Updates(u) <==> u.notes.Some?
    ensures u.title.Some? ==> Updates(u)["title"] == Str(u.title.value)
    ensures u.content.Some? ==> Updates(u)["content"] == Obj(u.content.value)
    ensures Updates(u).Keys <= {"title", "description", "content", "notes"}
    ensures Updates(u) == map[] <==> u.title.None? && u.description.None? && u.content.None? && u.notes.None?
  {
    assert "title" != "description" && "title" != "content" && "title" != "notes";
    assert "description" != "content" && "description" != "notes" && "content" != "notes";
    if u.title.Some? {
      assert "title" in Updates(u);
    } else if u.description.Some? {
      assert "description" in Updates(u);
    } else if u.content.Some? {
      assert "content" in Updates(u);
    } else if u.notes.Some? {
      assert "notes" in Updates(u);
    }
  }

  const NoUpdates := "No updates provided"

  /**
   * The body of the update route: an empty update raises a 400; otherwise
   * the planning service's result (or its exception) for the update.
   */
  function UpdateBody(u: UpdateRequest, service: Result<Record, Exc>): (r: Result<Record, Exc>)
    ensures Updates(u) == map[] ==> r == Err(HttpExc(400, NoUpdates))
    ensures Updates(u) != map[] ==> r == service
  {
    if Updates(u) == map[] then Err(HttpExc(400, NoUpdates)) else service
  }

  /** A `PermissionError` is a 403, a `ValueError` a 404, anything else a 500. */
  const UpdateClauses := [
    Clause(PermissionError, Raise(403, Some("Not authorized to update this lesson plan"))),
    Clause(ValueError, Raise(404, Some("Lesson plan not found"))),
    Clause(AnyException, Raise(500, Some("Failed to update lesson plan")))]

  /** `PUT /lesson-plan/{plan_id}` as written: the 400 for an empty update is caught by `except Exception`. */
  function UpdateLessonPlanAsWritten(u: UpdateRequest, service: Result<Record, Exc>): (r: Response<Record>)
  {
    Route(UpdateBody(u, service), UpdateClauses)
  }

  /** An update without any field is answered 500, not 400. */
  lemma EmptyUpdateIsServerErrorAsWritten(service: Result<Record, Exc>)
    ensures UpdateLessonPlanAsWritten(UpdateRequest(None, None, None, None), service)
      == HttpError(500, "Failed to update lesson plan")
  {
    var e := HttpExc(400, NoUpdates);
    assert UpdateBody(UpdateRequest(None, None, None, None), service) == Err(e);
    assert FirstMatch(UpdateClauses, e) == Some(2);
  }

  /** `PUT /lesson-plan/{plan_id}` as evidently intended: the 400 reaches the client. */
  function UpdateLessonPlan(u: UpdateRequest, service: Result<Record, Exc>): (r: Response<Record>)
    ensures Updates(u) == map[] ==> r == HttpError(400, NoUpdates)
    ensures r.Success? ==> Updates(u) != map[] && service == Ok(r.value)
  {
    KeepingHttpPassesHttpErrors(UpdateBody(u, service), UpdateClauses);
    Route(UpdateBody(u, service), KeepingHttp(UpdateClauses))
  }

  /**
   * The corrected route answers 400 to an empty update and otherwise
   * exactly as written: the service's result, or 403/404/500 for the
   * permission, not-found and other errors it raises.
   */
  lemma UpdateLessonPlanRejectsEmptyUpdate(u: UpdateRequest, service: Result<Record, Exc>)
    ensures Updates(u) == map[] ==> UpdateLessonPlan(u, service) == HttpError(400, NoUpdates)
    ensures Updates(u) != map[] && (service.Ok? || !service.error.HttpExc?) ==>
      UpdateLessonPlan(u, service) == UpdateLessonPlanAsWritten(u, service)
    ensures UpdateLessonPlan(u, service).Success? <==> Updates(u) != map[] && service.Ok?
    ensures Updates(u) != map[] && service.Err? && service.error.PermissionExc? ==>
      UpdateLessonPlan(u, service) == HttpError(403, "Not authorized to update this lesson plan")
    ensures Updates(u) != map[] && service.Err? && service.error.ValueExc? ==>
      UpdateLessonPlan(u, service) == HttpError(404, "Lesson plan not found")
  {
    KeepingHttpPassesHttpErrors(UpdateBody(u, service), UpdateClauses);
    if Updates(u) != map[] && service.Err? && service.error.ValueExc? {
      assert FirstMatch(UpdateClauses, service.error) == Some(1);
    }
  }

  // ---------------------------------------------------------------- the class-plan listing

  const ListPlanTypes := {"daily", "weekly", "monthly", "curriculum"}
  const ListPlanTypeMessage := "Plan type must be 'daily', 'weekly', 'monthly', or 'curriculum'"

  /** The listing's plan-type filter: a missing or empty one is no filter; any other must name a plan type or "curriculum". */
  function PlanTypeFilter(planType: Option<string>): (r: Result<Option<string>, Exc>)
    ensures r.Ok? <==> planType.None? || planType.value == [] || planType.value in ListPlanTypes
    ensures r.Ok? ==> r.value == planType
    ensures r.Err? ==> r.error == HttpExc(400, ListPlanTypeMessage)
  {
    if planType.Some? && planType.value != [] && planType.value !in ListPlanTypes then Err(HttpExc(400, ListPlanTypeMessage))
    else Ok(planType)
  }

  /** The body of the class-plan listing: the filter check, then the service's plans for it. */
  function ClassPlansBody(planType: Option<string>, service: Result<seq<Record>, Exc>): (r: Result<seq<Record>, Exc>)
    ensures PlanTypeFilter(planType).Err? ==> r == Err(PlanTypeFilter(planType).error)
    ensures PlanTypeFilter(planType).Ok? ==> r == service
  {
    if PlanTypeFilter(planType).Err? then Err(PlanTypeFilter(planType).error) else service
  }

  /** A `ValueError` is a 400 with its message, anything else a 500. */
  const ClassPlansClauses := [
    Clause(ValueError, Raise(400, None)),
    Clause(AnyException, Raise(500, Some("Failed to retrieve class plans")))]

  /** `GET /class/{class_id}/plans` as written: the 400 for an unknown plan type is caught by `except Exception`. */
  function ClassPlansAsWritten(planType: Option<string>, service: Result<seq<Record>, Exc>): (r: Response<seq<Record>>)
  {
    Route(ClassPlansBody(planType, service), ClassPlansClauses)
  }

  /** An unknown plan type is answered 500, not 400. */
  lemma UnknownPlanTypeIsServerErrorAsWritten(service: Result<seq<Record>, Exc>)
    ensures ClassPlansAsWritten(Some("yearly"), service) == HttpError(500, "Failed to retrieve class plans")
  {
    var e := HttpExc(400, ListPlanTypeMessage);
    assert "yearly" !in ListPlanTypes;
    assert ClassPlansBody(Some("yearly"), service) == Err(e);
    assert FirstMatch(ClassPlansClauses, e) == Some(1);
  }

  /** `GET /class/{class_id}/plans` as evidently intended: the 400 reaches the client. */
  function ClassPlans(planType: Option<string>, service: Result<seq<Record>, Exc>): (r: Response<seq<Record>>)
    ensures PlanTypeFilter(planType).Err? ==> r == HttpError(400, ListPlanTypeMessage)
    ensures r.Success? ==> PlanTypeFilter(planType).Ok? && service == Ok(r.value)
  {
    KeepingHttpPassesHttpErrors(ClassPlansBody(planType, service), ClassPlansClauses);
    Route(ClassPlansBody(planType, service), KeepingHttp(ClassPlansClauses))
  }

  /**
   * The corrected listing answers 400 to an unknown plan type and lists the
   * service's plans for any accepted filter.
   */
  lemma ClassPlansRejectsUnknownPlanType(planType: Option<string>, service: Result<seq<Record>, Exc>)
    ensures PlanTypeFilter(planType).Err? ==> ClassPlans(planType, service) == HttpError(400, ListPlanTypeMessage)
    ensures PlanTypeFilter(planType).Ok? && service.Ok? ==> ClassPlans(planType, service) == Success(service.value)
    ensures PlanTypeFilter(planType).Ok? && (service.Ok? || !service.error.HttpExc?) ==>
      ClassPlans(planType, service) == ClassPlansAsWritten(planType, service)
  {
    KeepingHttpPassesHttpErrors(ClassPlansBody(planType, service), ClassPlansClauses);
  }

  // ---------------------------------------------------------------- templates

  datatype Template = Template(templateId: string, name: string, description: string, category: string,
                               subjects: seq<string>, durationDays: nat)

  /** The two templates the route offers. */
  const Templates := [
    Template("weekly_elementary", "Elementary Weekly Plan", "Standard weekly plan template for elementary grades",
             "elementary", ["Math", "English", "Science", "Social Studies"], 5),
    Template("monthly_secondary", "Secondary Monthly Plan", "Comprehensive monthly plan for secondary education",
             "secondary", ["Multiple"], 30)]

  /** The templates of one category, in catalogue order. */
  function InCategory(ts: seq<Template>, category: string): (r: seq<Template>)
    ensures |r| <= |ts|
  {
    if ts == [] then []
    else InCategory(ts[..|ts| - 1], category) + (if ts[|ts| - 1].category == category then [ts[|ts| - 1]] else [])
  }

  /** The filter keeps exactly the templates of the category. */
  lemma {:induction false} InCategoryKeepsCategory(ts: seq<Template>, category: string)
    ensures forall t :: t in InCategory(ts, category) <==> t in ts && t.category == category
  {
    if ts != [] {
      InCategoryKeepsCategory(ts[..|ts| - 1], category);
      assert ts == ts[..|ts| - 1] + [ts[|ts| - 1]];
    }
  }

  /** A category no template has lists none. */
  lemma {:induction false} NoTemplateOfOtherCategory(ts: seq<Template>, category: string)
    requires forall i :: 0 <= i < |ts| ==> ts[i].category != category
    ensures InCategory(ts, category) == []
  {
    if ts != [] {
      NoTemplateOfOtherCategory(ts[..|ts| - 1], category);
    }
  }

  /** `GET /templates`: a missing or empty category lists every template. */
  function TemplatesFor(category: Option<string>): (r: seq<Template>)
  {
    if category.Some? && category.value != [] then InCategory(Templates, category.value) else Templates
  }

  /**
   * Without a category every template is listed; with one, exactly the
   * templates of that category, so an unknown category lists none.
   */
  lemma TemplatesForCategory(category: Option<string>)
    ensures category.None? || category.value == [] ==> TemplatesFor(category) == Templates
    ensures category.Some? && category.value != [] ==>
      forall t :: t in TemplatesFor(category) <==> t in Templates && t.category == category.value
    ensures category.Some? && category.value !in {"", "elementary", "secondary"} ==> TemplatesFor(category) == []
  {
    if category.Some? && category.value != [] {
      InCategoryKeepsCategory(Templates, category.value);
      if category.value !in {"elementary", "secondary"} {
        NoTemplateOfOtherCategory(Templates, category.value);
      }
    }
  }
}
