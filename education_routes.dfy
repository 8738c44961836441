/**
 * The request models of the education routes (routes/education.py): the
 * activity, visual-aid and lesson-plan requests, with pydantic's range,
 * length, choice and item-count constraints and the validators that run
 * after them. A rejected request never reaches the generation services.
 */
module EducationRoutes {
  import opened Wrappers
  import opened Text
  import opened RequestFields

  const Difficulties := {"easy", "medium", "hard"}
  const TeachingStyles := {"visual", "auditory", "kinesthetic", "balanced"}
  const LessonDifficulties := {"easy", "medium", "hard", "mixed"}

  const TopicBlank := "Topic cannot be empty"
  const ConceptBlank := "Concept cannot be empty"
  const GradesMissing := "At least one grade level is required"
  const GradesOutOfRange := "Grade levels must be between 1 and 12"
  const TopicsMissing := "At least one topic is required"

  // ---------------------------------------------------------------- ActivityRequest

  /** An activity request as submitted; `None` is a field left out. */
  datatype ActivityInput = ActivityInput(grade: int, topic: string, activityType: Option<string>,
                                         duration: Option<int>, difficulty: Option<string>)

  /** An activity request that passed validation. */
  datatype ActivityRequest = ActivityRequest(grade: int, topic: string, activityType: string, duration: int, difficulty: string)

  /** The fields of an activity request that can fail. */
  datatype ActivityField = GradeField | TopicField | DurationField | DifficultyField

  /** `topic`: 2 to 200 characters as submitted, then not blank and stripped. */
  function ActivityTopic(v: string): (r: Result<string, FieldError>)
  {
    RequiredText(v, 2, Some(200), TopicBlank)
  }

  /** `difficulty`: "medium" when left out, otherwise exactly one of easy, medium, hard. */
  function ActivityDifficulty(v: Option<string>): (r: Result<string, FieldError>)
    ensures r.Ok? <==> v.None? || v.value in Difficulties
    ensures r.Ok? ==> r.value in Difficulties
    ensures v.None? ==> r == Ok("medium")
  {
    if v.None? then Ok("medium") else OneOf(v.value, Difficulties, Constraint)
  }

  /** The activity request, or the fields that failed (pydantic reports every failing field). */
  function ValidateActivity(x: ActivityInput): (r: Result<ActivityRequest, set<ActivityField>>)
    ensures r.Ok? <==> (InRange(x.grade, 1, 12).Ok? && ActivityTopic(x.topic).Ok?
                        && RangeOrDefault(x.duration, 30, 5, 180).Ok? && ActivityDifficulty(x.difficulty).Ok?)
    ensures r.Ok? ==> r.value == ActivityRequest(x.grade, ActivityTopic(x.topic).value,
                                                 if x.activityType.None? then "general" else x.activityType.value,
                                                 RangeOrDefault(x.duration, 30, 5, 180).value, ActivityDifficulty(x.difficulty).value)
    ensures r.Err? ==> ((GradeField in r.error <==> InRange(x.grade, 1, 12).Err?)
                        && (TopicField in r.error <==> ActivityTopic(x.topic).Err?)
                        && (DurationField in r.error <==> RangeOrDefault(x.duration, 30, 5, 180).Err?)
                        && (DifficultyField in r.error <==> ActivityDifficulty(x.difficulty).Err?))
  {
    var grade := InRange(x.grade, 1, 12);
    var topic := ActivityTopic(x.topic);
    var duration := RangeOrDefault(x.duration, 30, 5, 180);
    var difficulty := ActivityDifficulty(x.difficulty);
    if grade.Ok? && topic.Ok? && duration.Ok? && difficulty.Ok? then
      Ok(ActivityRequest(grade.value, topic.value, if x.activityType.None? then "general" else x.activityType.value,
                         duration.value, difficulty.value))
    else
      Err(ActivityFailures(grade.Err?, topic.Err?, duration.Err?, difficulty.Err?))
  }

  /** The fields named by their failure flags. */
  function ActivityFailures(grade: bool, topic: bool, duration: bool, difficulty: bool): (r: set<ActivityField>)
    ensures GradeField in r <==> grade
    ensures TopicField in r <==> topic
    ensures DurationField in r <==> duration
    ensures DifficultyField in r <==> difficulty
  {
    (if grade then {GradeField} else {}) + (if topic then {TopicField} else {})
    + (if duration then {DurationField} else {}) + (if difficulty then {DifficultyField} else {})
  }

  /**
   * An accepted activity request has a grade of 1 to 12, a stripped topic
   * that is not empty, a duration of 5 to 180 minutes (30 when left out) and
   * one of the three difficulties.
   */
  lemma AcceptedActivityIsClean(x: ActivityInput)
    requires ValidateActivity(x).Ok?
    ensures var q := ValidateActivity(x).value;
      && 1 <= q.grade <= 12
      && q.topic == Strip(x.topic) && q.topic != [] && 2 <= |x.topic| <= 200
      && 5 <= q.duration <= 180 && (x.duration.None? ==> q.duration == 30)
      && q.difficulty in Difficulties
  {
  }

  // ---------------------------------------------------------------- VisualAidRequest

  /** A visual-aid request as submitted; `None` is a field left out. */
  datatype VisualAidInput = VisualAidInput(concept: string, gradeLevel: Option<int>, formatType: Option<string>, style: Option<string>)

  /** A visual-aid request that passed validation; a grade left out stays out. */
  datatype VisualAidRequest = VisualAidRequest(concept: string, gradeLevel: Option<int>, formatType: string, style: string)

  /** The fields of a visual-aid request that can fail. */
  datatype VisualAidField = ConceptField | GradeLevelField

  /** `concept`: 2 to 200 characters as submitted, then not blank and stripped. */
  function Concept(v: string): (r: Result<string, FieldError>)
  {
    RequiredText(v, 2, Some(200), ConceptBlank)
  }

  /** `grade_level`: optional, and 1 to 12 when given. */
  function OptionalGrade(v: Option<int>): (r: Result<Option<int>, FieldError>)
    ensures r.Ok? <==> v.None? || 1 <= v.value <= 12
    ensures r.Ok? ==> r.value == v
  {
    if v.None? then Ok(None)
    else if 1 <= v.value <= 12 then Ok(v)
    else Err(Constraint)
  }

  /** The visual-aid request, or the fields that failed. */
  function ValidateVisualAid(x: VisualAidInput): (r: Result<VisualAidRequest, set<VisualAidField>>)
    ensures r.Ok? <==> Concept(x.concept).Ok? && OptionalGrade(x.gradeLevel).Ok?
    ensures r.Ok? ==> r.value == VisualAidRequest(Concept(x.concept).value, x.gradeLevel,
                                                  if x.formatType.None? then "diagram" else x.formatType.value,
                                                  if x.style.None? then "educational" else x.style.value)
    ensures r.Err? ==> ((ConceptField in r.error <==> Concept(x.concept).Err?)
                        && (GradeLevelField in r.error <==> OptionalGrade(x.gradeLevel).Err?))
  {
    var concept := Concept(x.concept);
    var grade := OptionalGrade(x.gradeLevel);
    if concept.Ok? && grade.Ok? then
      Ok(VisualAidRequest(concept.value, grade.value, if x.formatType.None? then "diagram" else x.formatType.value,
                          if x.style.None? then "educational" else x.style.value))
    else
      Err((if concept.Err? then {ConceptField} else {}) + (if grade.Err? then {GradeLevelField} else {}))
  }

  // ---------------------------------------------------------------- LessonPlanRequest

  /** Every element is smaller than the ones after it: sorted and without duplicates. */
  predicate Increasing(s: seq<int>)
  {
    forall i, j :: 0 <= i < j < |s| ==> s[i] < s[j]
  }

  /** `x` added to an increasing list, in its place, unless it is already there. */
  function AddSorted(s: seq<int>, x: int): (r: seq<int>)
    requires Increasing(s)
    ensures Increasing(r)
    ensures forall y :: y in r <==> y in s || y == x
  {
    if s == [] then [x]
    else if x < s[0] then [x] + s
    else if x == s[0] then s
    else
      var rest := AddSorted(s[1..], x);
      assert forall k :: 0 <= k < |rest| ==> s[0] < rest[k] by {
        forall k | 0 <= k < |rest|
          ensures s[0] < rest[k]
        {
          if rest[k] != x {
            LaterThanHead(s, rest[k]);
          }
        }
      }
      [s[0]] + rest
  }

  /** `sorted(list(set(v)))`: the distinct values of `v`, smallest first. */
  function SortedDistinct(v: seq<int>): (r: seq<int>)
    ensures Increasing(r)
    ensures forall y :: y in r <==> y in v
  {
    if v == [] then [] else AddSorted(SortedDistinct(v[..|v| - 1]), v[|v| - 1])
  }

  /**
   * An increasing list is determined by its members: any two with the same
   * members are equal, so `SortedDistinct` is the one sorted, duplicate-free
   * arrangement of the grades given.
   */
  lemma {:induction false} IncreasingDeterminedByMembers(a: seq<int>, b: seq<int>)
    requires Increasing(a) && Increasing(b)
    requires forall y :: y in a <==> y in b
    ensures a == b
  {
    if a != [] {
      assert a[0] in a;
      assert a[0] in b;
    }
    if b != [] {
      assert b[0] in b;
      assert b[0] in a;
    }
    if a != [] && b != [] {
      HeadIsLeast(a, b[0]);
      HeadIsLeast(b, a[0]);
      forall y | y in a[1..]
        ensures y in b[1..]
      {
        LaterThanHead(a, y);
        assert y in b;
        HeadOrRest(b, y);
      }
      forall y | y in b[1..]
        ensures y in a[1..]
      {
        LaterThanHead(b, y);
        assert y in a;
        HeadOrRest(a, y);
      }
      IncreasingDeterminedByMembers(a[1..], b[1..]);
      assert a == [a[0]] + a[1..];
      assert b == [b[0]] + b[1..];
    }
  }

  /** The head of an increasing list is its least member. */
  lemma HeadIsLeast(s: seq<int>, y: int)
    requires Increasing(s) && y in s
    ensures s[0] <= y
  {
    var i :| 0 <= i < |s| && s[i] == y;
    if i > 0 {
      assert s[0] < s[i];
    }
  }

  /** A member of the tail of an increasing list is larger than its head. */
  lemma LaterThanHead(s: seq<int>, y: int)
    requires Increasing(s) && s != [] && y in s[1..]
    ensures s[0] < y
  {
    var i :| 0 <= i < |s[1..]| && s[1..][i] == y;
    assert s[i + 1] == y;
  }

  /** A member of a list other than its head lies in its tail. */
  lemma HeadOrRest(s: seq<int>, y: int)
    requires s != [] && y in s && y != s[0]
    ensures y in s[1..]
  {
    var i :| 0 <= i < |s| && s[i] == y;
    assert s[1..][i - 1] == y;
  }

  /** `validate_grades`: at least one grade, every grade 1 to 12; then the distinct grades, smallest first. */
  function Grades(v: seq<int>): (r: Result<seq<int>, FieldError>)
    ensures v == [] ==> r == Err(Invalid(GradesMissing))
    ensures v != [] && (exists i :: 0 <= i < |v| && !(1 <= v[i] <= 12)) ==> r == Err(Invalid(GradesOutOfRange))
    ensures r.Ok? <==> v != [] && forall i :: 0 <= i < |v| ==> 1 <= v[i] <= 12
    ensures r.Ok? ==> r.value == SortedDistinct(v)
  {
    if v == [] then Err(Invalid(GradesMissing))
    else if exists i :: 0 <= i < |v| && !(1 <= v[i] <= 12) then Err(Invalid(GradesOutOfRange))
    else Ok(SortedDistinct(v))
  }

  /** Accepted grades come out sorted, without duplicates, every one of them 1 to 12, and none lost. */
  lemma AcceptedGrades(v: seq<int>)
    requires Grades(v).Ok?
    ensures var g := Grades(v).value;
      && Increasing(g) && 1 <= |g| <= 12
      && (forall y :: y in g <==> y in v)
      && (forall i :: 0 <= i < |g| ==> 1 <= g[i] <= 12)
  {
    var g := Grades(v).value;
    assert v[0] in g;
    forall i | 0 <= i < |g|
      ensures 1 <= g[i] <= 12
    {
      assert g[i] in v;
    }
    IncreasingWithinBound(g, 12);
  }

  /** An increasing list of values between 1 and `hi` has at most `hi` elements. */
  lemma {:induction false} IncreasingWithinBound(g: seq<int>, hi: int)
    requires Increasing(g) && 0 <= hi
    requires forall i :: 0 <= i < |g| ==> 1 <= g[i] <= hi
    ensures |g| <= hi
  {
    if g != [] {
      var init := g[..|g| - 1];
      assert forall i :: 0 <= i < |init| ==> init[i] == g[i];
      var last := g[|g| - 1];
      assert 1 <= last <= hi;
      assert forall i :: 0 <= i < |init| ==> 1 <= init[i] <= last - 1;
      IncreasingWithinBound(init, last - 1);
      assert |g| == |init| + 1;
    }
  }

  /**
   * `topics`: 1 to 10 items as submitted, then `validate_topics`, whose own
   * emptiness test can no longer fire: the stripped, non-blank topics.
   */
  function Topics(v: seq<string>): (r: Result<seq<string>, FieldError>)
    ensures r.Ok? <==> 1 <= |v| <= 10
    ensures r.Ok? ==> r.value == CleanList(v)
    ensures r.Err? ==> r.error == Constraint
  {
    if !(1 <= |v| <= 10) then Err(Constraint)
    else if v == [] then Err(Invalid(TopicsMissing))
    else Ok(CleanList(v))
  }

  /** A list of blank topics passes validation and leaves the request with no topic at all. */
  lemma BlankTopicsAccepted()
    ensures Topics(["  "]) == Ok([])
  {
    assert IsBlank("  ") by { WhitespaceMembers(); }
    CleanListStep(["  "]);
  }

  /** A lesson-plan request as submitted; `None` is a field left out. */
  datatype LessonPlanInput = LessonPlanInput(grades: seq<int>, topics: seq<string>, duration: Option<int>,
                                             subject: Option<string>, learningObjectives: Option<seq<string>>,
                                             teachingStyle: Option<string>, difficultyLevel: Option<string>,
                                             includeActivities: Option<bool>, includeAssessment: Option<bool>)

  /** A lesson-plan request that passed validation. */
  datatype LessonPlanRequest = LessonPlanRequest(grades: seq<int>, topics: seq<string>, duration: int, subject: string,
                                                 learningObjectives: Option<seq<string>>, teachingStyle: string,
                                                 difficultyLevel: string, includeActivities: bool, includeAssessment: bool)

  /** The fields of a lesson-plan request that can fail. */
  datatype LessonPlanField = GradesField | TopicsField | LessonDurationField | SubjectField | StyleField | LevelField

  /** `subject`: "General" when left out, otherwise at most 100 characters, kept as submitted. */
  function Subject(v: Option<string>): (r: Result<string, FieldError>)
    ensures r.Ok? <==> v.None? || |v.value| <= 100
    ensures r.Ok? ==> r.value == (if v.None? then "General" else v.value)
  {
    if v.None? then Ok("General") else if |v.value| <= 100 then Ok(v.value) else Err(Constraint)
  }

  /** A choice field with a default: the default when left out, otherwise one of the choices. */
  function ChoiceOrDefault(v: Option<string>, default: string, choices: set<string>): (r: Result<string, FieldError>)
    ensures r.Ok? <==> v.None? || v.value in choices
    ensures r.Ok? ==> r.value == (if v.None? then default else v.value)
  {
    if v.None? then Ok(default) else OneOf(v.value, choices, Constraint)
  }

  /** The lesson-plan request, or the fields that failed. */
  function ValidateLessonPlan(x: LessonPlanInput): (r: Result<LessonPlanRequest, set<LessonPlanField>>)
    ensures r.Ok? <==> (Grades(x.grades).Ok? && Topics(x.topics).Ok? && RangeOrDefault(x.duration, 60, 15, 180).Ok?
                        && Subject(x.subject).Ok? && ChoiceOrDefault(x.teachingStyle, "balanced", TeachingStyles).Ok?
                        && ChoiceOrDefault(x.difficultyLevel, "medium", LessonDifficulties).Ok?)
    ensures r.Ok? ==> r.value == LessonPlanRequest(Grades(x.grades).value, Topics(x.topics).value,
                                                   RangeOrDefault(x.duration, 60, 15, 180).value, Subject(x.subject).value,
                                                   x.learningObjectives,
                                                   ChoiceOrDefault(x.teachingStyle, "balanced", TeachingStyles).value,
                                                   ChoiceOrDefault(x.difficultyLevel, "medium", LessonDifficulties).value,
                                                   x.includeActivities.None? || x.includeActivities.value,
                                                   x.includeAssessment.None? || x.includeAssessment.value)
    ensures r.Err? ==> ((GradesField in r.error <==> Grades(x.grades).Err?)
                        && (TopicsField in r.error <==> Topics(x.topics).Err?)
                        && (LessonDurationField in r.error <==> RangeOrDefault(x.duration, 60, 15, 180).Err?)
                        && (SubjectField in r.error <==> Subject(x.subject).Err?)
                        && (StyleField in r.error <==> ChoiceOrDefault(x.teachingStyle, "balanced", TeachingStyles).Err?)
                        && (LevelField in r.error <==> ChoiceOrDefault(x.difficultyLevel, "medium", LessonDifficulties).Err?))
  {
    var grades := Grades(x.grades);
    var topics := Topics(x.topics);
    var duration := RangeOrDefault(x.duration, 60, 15, 180);
    var subject := Subject(x.subject);
    var style := ChoiceOrDefault(x.teachingStyle, "balanced", TeachingStyles);
    var level := ChoiceOrDefault(x.difficultyLevel, "medium", LessonDifficulties);
    if grades.Ok? && topics.Ok? && duration.Ok? && subject.Ok? && style.Ok? && level.Ok? then
      Ok(LessonPlanRequest(grades.value, topics.value, duration.value, subject.value, x.learningObjectives,
                           style.value, level.value, x.includeActivities.None? || x.includeActivities.value,
                           x.includeAssessment.None? || x.includeAssessment.value))
    else
      Err(LessonPlanFailures(grades.Err?, topics.Err?, duration.Err?, subject.Err?, style.Err?, level.Err?))
  }

  /** The fields named by their failure flags. */
  function LessonPlanFailures(grades: bool, topics: bool, duration: bool, subject: bool, style: bool, level: bool): (r: set<LessonPlanField>)
    ensures GradesField in r <==> grades
    ensures TopicsField in r <==> topics
    ensures LessonDurationField in r <==> duration
    ensures SubjectField in r <==> subject
    ensures StyleField in r <==> style
    ensures LevelField in r <==> level
  {
    (if grades then {GradesField} else {}) + (if topics then {TopicsField} else {})
    + (if duration then {LessonDurationField} else {}) + (if subject then {SubjectField} else {})
    + (if style then {StyleField} else {}) + (if level then {LevelField} else {})
  }

  /**
   * An accepted lesson-plan request has 1 to 12 distinct grades in
   * increasing order, at most 10 topics none of which is blank, and a
   * duration of 15 to 180 minutes (60 when left out).
   */
  lemma AcceptedLessonPlanIsClean(x: LessonPlanInput)
    requires ValidateLessonPlan(x).Ok?
    ensures var q := ValidateLessonPlan(x).value;
      && Increasing(q.grades) && 1 <= |q.grades| <= 12
      && (forall i :: 0 <= i < |q.grades| ==> 1 <= q.grades[i] <= 12)
      && |q.topics| <= 10 && (forall i :: 0 <= i < |q.topics| ==> q.topics[i] != [])
      && 15 <= q.duration <= 180 && (x.duration.None? ==> q.duration == 60)
  {
    AcceptedGrades(x.grades);
  }
}
