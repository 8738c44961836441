/**
 * The teacher dashboard (services/teacher_dashboard_service.py): the
 * history of every student, class analytics, recent class activity, the
 * performance summary and the recommendations for the teacher.
 *
 * What the data-access objects return for a student is carried by a
 * `Student`: every list is newest first, as the queries order it, and the
 * service reads the first `limit` items of it. Parsing a timestamp
 * (`datetime.fromisoformat`), the order of two timestamps of one kind for
 * the recent activity sort and the language model's reply are parameters.
 */
module TeacherDashboardService {
  import opened Wrappers
  import opened Text
  import opened Values

  // ---------------------------------------------------------------- students

  /** A student assigned to the teacher, with everything the data-access objects hold for them. */
  datatype Student = Student(
    userId: string,
    profile: Record,
    assessments: seq<Record>,
    activities: seq<Record>,
    visualAids: seq<Record>,
    plans: seq<Record>,
    conversations: seq<Record>,
    performance: Option<Record>)

  /** A `datetime`: seconds since the epoch, and whether it carries a UTC offset (an "aware" datetime). */
  datatype Stamp = Stamp(seconds: int, aware: bool)

  /** `datetime.fromisoformat`: `None` where it raises. */
  type Parser = string -> Option<Stamp>

  const SecondsPerDay := 86400
  /** A student is active when their last activity is at most this many days old. */
  const ActiveDays := 7

  /** The items `_get_last_activity_date` looks at, read with one `limit` for every list. */
  function ActivityItems(s: Student, limit: nat): (items: seq<Record>)
    ensures |items| <= 4 * limit
  {
    Take(s.assessments, limit) + Take(s.activities, limit) + Take(s.plans, limit) + Take(s.conversations, limit)
  }

  /** `s.replace('Z', '+00:00')`. */
  function ZuluAsOffset(s: string): (r: string)
    ensures 'Z' !in r
    ensures 'Z' !in s ==> r == s
  {
    if s == [] then []
    else (if s[0] == 'Z' then "+00:00" else [s[0]]) + ZuluAsOffset(s[1..])
  }

  /** The instant a `created_at` value stands for, if any: a parseable string, or a datetime itself. */
  function Moment(v: Value, parse: Parser): (r: Option<Stamp>)
    ensures !Truthy(v) ==> r == None
    ensures v.Str? && v.s != [] ==> r == parse(ZuluAsOffset(v.s))
  {
    match v
    case Str(s) => if s == [] then None else parse(ZuluAsOffset(s))
    case DateTime(iso) => parse(iso)
    case _ => None
  }

  function CreatedAt(item: Record, parse: Parser): Option<Stamp>
  {
    Moment(Get(item, "created_at", Null), parse)
  }

  /** The dates `_get_last_activity_date` collects, in the order of the items. */
  function Dates(items: seq<Record>, parse: Parser): (ds: seq<Stamp>)
    ensures |ds| <= |items|
  {
    if items == [] then []
    else
      var d := CreatedAt(items[|items| - 1], parse);
      Dates(items[..|items| - 1], parse) + (if d.Some? then [d.value] else [])
  }

  /** A date is collected exactly when some item's `created_at` stands for it. */
  lemma {:induction false} DatesAreCreatedAts(items: seq<Record>, parse: Parser)
    ensures forall i :: 0 <= i < |items| && CreatedAt(items[i], parse).Some? ==>
      CreatedAt(items[i], parse).value in Dates(items, parse)
    ensures forall d :: d in Dates(items, parse) ==>
      exists i :: 0 <= i < |items| && CreatedAt(items[i], parse) == Some(d)
  {
    if items != [] {
      var front := items[..|items| - 1];
      DatesAreCreatedAts(front, parse);
      forall d | d in Dates(items, parse)
        ensures exists i :: 0 <= i < |items| && CreatedAt(items[i], parse) == Some(d)
      {
        if d in Dates(front, parse) {
          var i :| 0 <= i < |front| && CreatedAt(front[i], parse) == Some(d);
          assert items[i] == front[i];
        } else {
          assert CreatedAt(items[|items| - 1], parse) == Some(d);
        }
      }
      forall i | 0 <= i < |items| && CreatedAt(items[i], parse).Some?
        ensures CreatedAt(items[i], parse).value in Dates(items, parse)
      {
        if i < |front| {
          assert items[i] == front[i];
        }
      }
    }
  }

  /** The latest instant among `ds`. */
  function Latest(ds: seq<Stamp>): (t: int)
    requires ds != []
    ensures forall k :: 0 <= k < |ds| ==> ds[k].seconds <= t
    ensures exists k :: 0 <= k < |ds| && ds[k].seconds == t
  {
    if |ds| == 1 then ds[0].seconds
    else
      var m := Latest(ds[..|ds| - 1]);
      assert forall k :: 0 <= k < |ds| - 1 ==> ds[k] == ds[..|ds| - 1][k];
      if ds[|ds| - 1].seconds > m then ds[|ds| - 1].seconds else m
  }

  /**
   * `_get_last_activity_date`, as evidently intended: the latest instant
   * among the parseable `created_at` values, every timestamp read as UTC.
   */
  function LastActivity(items: seq<Record>, parse: Parser): (r: Option<int>)
    ensures r.None? <==> Dates(items, parse) == []
    ensures r.Some? ==> forall k :: 0 <= k < |Dates(items, parse)| ==> Dates(items, parse)[k].seconds <= r.value
    ensures r.Some? ==> exists k :: 0 <= k < |Dates(items, parse)| && Dates(items, parse)[k].seconds == r.value
  {
    var ds := Dates(items, parse);
    if ds == [] then None else Some(Latest(ds))
  }

  /** The last activity is the latest `created_at` there is, and there is one exactly when some item has one. */
  lemma LastActivityIsLatest(items: seq<Record>, parse: Parser)
    ensures LastActivity(items, parse).None? <==>
      forall i :: 0 <= i < |items| ==> CreatedAt(items[i], parse).None?
    ensures LastActivity(items, parse).Some? ==>
      (forall i :: 0 <= i < |items| && CreatedAt(items[i], parse).Some? ==>
         CreatedAt(items[i], parse).value.seconds <= LastActivity(items, parse).value)
    ensures LastActivity(items, parse).Some? ==>
      exists i :: 0 <= i < |items| && CreatedAt(items[i], parse).Some? &&
        CreatedAt(items[i], parse).value.seconds == LastActivity(items, parse).value
  {
    var ds := Dates(items, parse);
    DatesAreCreatedAts(items, parse);
    if ds != [] {
      var t := Latest(ds);
      var k :| 0 <= k < |ds| && ds[k].seconds == t;
      assert ds[k] in ds;
      var i :| 0 <= i < |items| && CreatedAt(items[i], parse) == Some(ds[k]);
      forall j | 0 <= j < |items| && CreatedAt(items[j], parse).Some?
        ensures CreatedAt(items[j], parse).value.seconds <= t
      {
        var d := CreatedAt(items[j], parse).value;
        assert d in ds;
        var m :| 0 <= m < |ds| && ds[m] == d;
      }
    }
  }

  /** The collecting loop of `_get_last_activity_date`. */
  method CollectDates(items: seq<Record>, parse: Parser) returns (dates: seq<Stamp>)
    ensures dates == Dates(items, parse)
  {
    dates := [];
    for i := 0 to |items|
      invariant dates == Dates(items[..i], parse)
    {
      assert items[..i + 1][..i] == items[..i];
      var d := CreatedAt(items[i], parse);
      if d.Some? {
        dates := dates + [d.value];
      }
    }
    assert items[..|items|] == items;
  }

  /** `_get_last_activity_date` step by step, as evidently intended: collect the dates, then take the latest. */
  method LastActivityDate(items: seq<Record>, parse: Parser) returns (last: Option<int>)
    ensures last == LastActivity(items, parse)
  {
    var dates := CollectDates(items, parse);
    if dates == [] {
      return None;
    }
    var latest := dates[0].seconds;
    for k := 1 to |dates|
      invariant latest == Latest(dates[..k])
    {
      assert dates[..k + 1][..k] == dates[..k];
      if dates[k].seconds > latest {
        latest := dates[k].seconds;
      }
    }
    assert dates[..|dates|] == dates;
    last := Some(latest);
  }

  // ---------------------------------------------------------------- the last activity as written

  const CompareError := "can't compare offset-naive and offset-aware datetimes"
  const SubtractError := "can't subtract offset-naive and offset-aware datetimes"

  /** Some collected dates carry an offset and some do not. */
  predicate Mixed(ds: seq<Stamp>)
  {
    exists i, j :: 0 <= i < |ds| && 0 <= j < |ds| && ds[i].aware && !ds[j].aware
  }

  /**
   * `_get_last_activity_date` as written: `max` raises once it compares a
   * datetime with an offset to one without; otherwise the latest date,
   * which keeps its own kind.
   */
  function LastActivityAsWritten(items: seq<Record>, parse: Parser): (r: Result<Option<Stamp>, string>)
    ensures r.Err? <==> Mixed(Dates(items, parse))
    ensures r.Ok? ==> (r.value.Some? <==> LastActivity(items, parse).Some?)
    ensures r.Ok? && r.value.Some? ==> r.value.value.seconds == LastActivity(items, parse).value
  {
    var ds := Dates(items, parse);
    if ds == [] then Ok(None)
    else if Mixed(ds) then Err(CompareError)
    else Ok(Some(Stamp(Latest(ds), ds[0].aware)))
  }

  /**
   * `_get_last_activity_date` step by step, as written: `max` walks the
   * dates and raises at the first one whose kind differs from the first
   * date's.
   */
  method LastActivityDateAsWritten(items: seq<Record>, parse: Parser) returns (last: Result<Option<Stamp>, string>)
    ensures last == LastActivityAsWritten(items, parse)
  {
    var dates := CollectDates(items, parse);
    if dates == [] {
      return Ok(None);
    }
    var latest := dates[0].seconds;
    for k := 1 to |dates|
      invariant latest == Latest(dates[..k])
      invariant forall j :: 0 <= j < k ==> dates[j].aware == dates[0].aware
    {
      if dates[k].aware != dates[0].aware {
        if dates[k].aware {
          assert dates[k].aware && !dates[0].aware;
        } else {
          assert dates[0].aware && !dates[k].aware;
        }
        return Err(CompareError);
      }
      assert dates[..k + 1][..k] == dates[..k];
      if dates[k].seconds > latest {
        latest := dates[k].seconds;
      }
    }
    assert dates[..|dates|] == dates;
    last := Ok(Some(Stamp(latest, dates[0].aware)));
  }

  /**
   * Whether a student counts as active (`Some(true)`), inactive
   * (`Some(false)`) or neither (no activity at all), as evidently intended:
   * whole days since the last activity, at most seven for active.
   */
  function Recency(now: int, last: Option<int>): (r: Option<bool>)
    ensures r.None? <==> last.None?
    ensures r == Some(true) <==> last.Some? && (now - last.value) / SecondsPerDay <= ActiveDays
  {
    match last
    case None => None
    case Some(t) => Some((now - t) / SecondsPerDay <= ActiveDays)
  }

  /**
   * The same decision as written: `datetime.utcnow()` has no offset, so
   * subtracting a last activity that has one raises.
   */
  function RecencyAsWritten(now: int, items: seq<Record>, parse: Parser): Result<Option<bool>, string>
  {
    match LastActivityAsWritten(items, parse)
    case Err(e) => Err(e)
    case Ok(None) => Ok(None)
    case Ok(Some(t)) => if t.aware then Err(SubtractError) else Ok(Some((now - t.seconds) / SecondsPerDay <= ActiveDays))
  }

  /** How `_generate_class_analytics` judges a student's activity, read over its 100-item lists. */
  type Judge = Student -> Result<Option<bool>, string>

  /** The judgement as evidently intended: it never fails. */
  function RecencyJudge(now: int, parse: Parser): Judge
  {
    (s: Student) => Ok(Recency(now, LastActivity(ActivityItems(s, AnalyticsLimit), parse)))
  }

  function RecencyJudgeAsWritten(now: int, parse: Parser): Judge
  {
    (s: Student) => RecencyAsWritten(now, ActivityItems(s, AnalyticsLimit), parse)
  }

  // ---------------------------------------------------------------- class analytics

  const AnalyticsLimit := 100

  /** The running totals of the analytics loop. */
  datatype Tally = Tally(
    assessments: nat, activities: nat, plans: nat, conversations: nat,
    scores: seq<Value>, active: nat, inactive: nat)

  /** The truthy `average_score` of a student's performance record, if they have one. */
  function ScoreOf(s: Student): (r: Option<Value>)
    ensures r.Some? ==> Truthy(r.value)
  {
    match s.performance
    case Some(p) =>
      var v := Get(p, "average_score", Null);
      if p != map[] && Truthy(v) then Some(v) else None
    case None => None
  }

  /** One student's contribution to the totals, then their activity. */
  function TallyStep(t: Tally, s: Student, judged: Result<Option<bool>, string>): Result<Tally, string>
  {
    var counted := t.(
      assessments := t.assessments + |Take(s.assessments, AnalyticsLimit)|,
      activities := t.activities + |Take(s.activities, AnalyticsLimit)|,
      plans := t.plans + |Take(s.plans, AnalyticsLimit)|,
      conversations := t.conversations + |Take(s.conversations, AnalyticsLimit)|,
      scores := if ScoreOf(s).Some? then t.scores + [ScoreOf(s).value] else t.scores);
    match judged
    case Err(e) => Err(e)
    case Ok(None) => Ok(counted)
    case Ok(Some(true)) => Ok(counted.(active := counted.active + 1))
    case Ok(Some(false)) => Ok(counted.(inactive := counted.inactive + 1))
  }

  /** The sum of one per-student count over the students. */
  function CountSum(students: seq<Student>, count: Student -> nat): nat
  {
    if students == [] then 0
    else CountSum(students[..|students| - 1], count) + count(students[|students| - 1])
  }

  function AssessmentCount(s: Student): nat { |Take(s.assessments, AnalyticsLimit)| }
  function ActivityCount(s: Student): nat { |Take(s.activities, AnalyticsLimit)| }

  /** The totals after the loop has seen `students`, or the first error it meets. */
  function TallyOf(students: seq<Student>, judge: Judge): (r: Result<Tally, string>)
    ensures r.Ok? ==> r.value.active + r.value.inactive <= |students| && |r.value.scores| <= |students|
    ensures r.Ok? ==> r.value.assessments == CountSum(students, AssessmentCount)
    ensures r.Ok? ==> r.value.activities == CountSum(students, ActivityCount)
    ensures r.Ok? ==> forall k :: 0 <= k < |r.value.scores| ==> Truthy(r.value.scores[k])
  {
    if students == [] then Ok(Tally(0, 0, 0, 0, [], 0, 0))
    else
      var s := students[|students| - 1];
      match TallyOf(students[..|students| - 1], judge)
      case Err(e) => Err(e)
      case Ok(t) => TallyStep(t, s, judge(s))
  }

  /** The analytics of a class that has students. */
  datatype ClassAnalytics =
    | NoStudentsFound
    | Analytics(
        totalStudents: nat, activeStudents: nat, inactiveStudents: nat,
        totalAssessments: nat, totalActivities: nat, totalLessonPlans: nat, totalVoiceConversations: nat,
        classAverageScore: real, engagementRate: real,
        averageAssessmentsPerStudent: real, averageActivitiesPerStudent: real)

  /** Python's error for `+` on a non-number. */
  function AddError(v: Value): string
  {
    "unsupported operand type(s) for +: 'int' and '" + TypeName(v) + "'"
  }

  /** `sum(values)`: the first value that is not a number makes it fail. */
  function Sum(vs: seq<Value>): (r: Result<real, string>)
    ensures r.Ok? <==> forall k :: 0 <= k < |vs| ==> Number(vs[k]).Some?
  {
    if vs == [] then Ok(0.0)
    else
      match Sum(vs[..|vs| - 1])
      case Err(e) => Err(e)
      case Ok(total) =>
        assert forall k :: 0 <= k < |vs| - 1 ==> vs[..|vs| - 1][k] == vs[k];
        match Number(vs[|vs| - 1])
        case None => Err(AddError(vs[|vs| - 1]))
        case Some(x) => Ok(total + x)
  }

  /** Scores between 0 and 100 sum to between 0 and 100 times their number. */
  lemma {:induction false} ScoreSumBounds(vs: seq<Value>)
    requires forall k :: 0 <= k < |vs| ==> Number(vs[k]).Some? && 0.0 <= Number(vs[k]).value <= 100.0
    ensures Sum(vs).Ok?
    ensures 0.0 <= Sum(vs).value <= |vs| as real * 100.0
  {
    if vs != [] {
      var front := vs[..|vs| - 1];
      assert forall k :: 0 <= k < |front| ==> front[k] == vs[k];
      ScoreSumBounds(front);
      assert Sum(vs) == Ok(Sum(front).value + Number(vs[|vs| - 1]).value);
    }
  }

  /** The analytics from the totals of a non-empty class. */
  function Finish(n: nat, t: Tally): (r: Result<ClassAnalytics, string>)
    requires n > 0
    ensures r.Ok? <==> Sum(t.scores).Ok?
    ensures r.Ok? ==> r.value.Analytics? && r.value.totalStudents == n
  {
    match Sum(t.scores)
    case Err(e) => Err(e)
    case Ok(total) =>
      Ok(Analytics(
        n, t.active, t.inactive, t.assessments, t.activities, t.plans, t.conversations,
        if t.scores == [] then 0.0 else total / |t.scores| as real,
        t.active as real / n as real * 100.0,
        t.assessments as real / n as real,
        t.activities as real / n as real))
  }

  /** `_generate_class_analytics`, with the activity judged by `judge`. */
  function ClassAnalyticsWith(students: seq<Student>, judge: Judge): (r: Result<ClassAnalytics, string>)
    ensures students == [] <==> r == Ok(NoStudentsFound)
    ensures r.Ok? && students != [] ==> r.value.Analytics? && r.value.totalStudents == |students|
    ensures r.Err? ==> TallyOf(students, judge).Err? || Sum(TallyOf(students, judge).value.scores).Err?
  {
    if students == [] then Ok(NoStudentsFound)
    else
      match TallyOf(students, judge)
      case Err(e) => Err(e)
      case Ok(t) => Finish(|students|, t)
  }

  /** `_generate_class_analytics` as evidently intended. */
  function ClassAnalyticsOf(students: seq<Student>, now: int, parse: Parser): (r: Result<ClassAnalytics, string>)
    ensures students == [] <==> r == Ok(NoStudentsFound)
    ensures r.Ok? && students != [] ==> r.value.Analytics? && r.value.totalStudents == |students|
  {
    ClassAnalyticsWith(students, RecencyJudge(now, parse))
  }

  /** `_generate_class_analytics` as written. */
  function ClassAnalyticsAsWritten(students: seq<Student>, now: int, parse: Parser): Result<ClassAnalytics, string>
  {
    ClassAnalyticsWith(students, RecencyJudgeAsWritten(now, parse))
  }

  /**
   * An empty class has only its message; otherwise the class size is the
   * number of students, active and inactive students together are at most
   * that many, the engagement rate is a percentage, and the assessment and
   * activity totals add up the per-student counts.
   */
  lemma ClassAnalyticsShape(students: seq<Student>, judge: Judge)
    ensures ClassAnalyticsWith(students, judge) == Ok(NoStudentsFound) <==> students == []
    ensures ClassAnalyticsWith(students, judge).Ok? && students != [] ==>
      var a := ClassAnalyticsWith(students, judge).value;
      a.totalStudents == |students| &&
      a.activeStudents + a.inactiveStudents <= a.totalStudents &&
      0.0 <= a.engagementRate <= 100.0 &&
      a.totalAssessments == CountSum(students, AssessmentCount) &&
      a.totalActivities == CountSum(students, ActivityCount)
  {
    if students != [] && TallyOf(students, judge).Ok? {
      FinishBounds(|students|, TallyOf(students, judge).value);
    }
  }

  /** The engagement rate of totals over `n` students is a percentage. */
  lemma FinishBounds(n: nat, t: Tally)
    requires 0 < n && t.active + t.inactive <= n
    ensures Finish(n, t).Ok? ==> 0.0 <= Finish(n, t).value.engagementRate <= 100.0
  {
    RatioIsAFraction(t.active, n);
  }

  lemma RatioIsAFraction(a: nat, n: nat)
    requires 0 < n && a <= n
    ensures 0.0 <= a as real / n as real * 100.0 <= 100.0
  {
    assert a as real / n as real <= 1.0;
  }

  /** With every truthy average score between 0 and 100, so is the class average. */
  lemma ClassAverageIsAScore(students: seq<Student>, judge: Judge)
    requires forall k :: 0 <= k < |students| && ScoreOf(students[k]).Some? ==>
      Number(ScoreOf(students[k]).value).Some? && 0.0 <= Number(ScoreOf(students[k]).value).value <= 100.0
    ensures TallyOf(students, judge).Ok? && students != [] ==>
      ClassAnalyticsWith(students, judge).Ok? &&
      0.0 <= ClassAnalyticsWith(students, judge).value.classAverageScore <= 100.0
  {
    if students != [] && TallyOf(students, judge).Ok? {
      var t := TallyOf(students, judge).value;
      ScoresComeFromStudents(students, judge);
      FinishAverage(|students|, t);
    }
  }

  /** Scores between 0 and 100 average to a score between 0 and 100. */
  lemma FinishAverage(n: nat, t: Tally)
    requires n > 0
    requires forall k :: 0 <= k < |t.scores| ==> Number(t.scores[k]).Some? && 0.0 <= Number(t.scores[k]).value <= 100.0
    ensures Finish(n, t).Ok? && 0.0 <= Finish(n, t).value.classAverageScore <= 100.0
  {
    ScoreSumBounds(t.scores);
    if t.scores != [] {
      MeanIsAScore(Sum(t.scores).value, |t.scores|);
    }
  }

  lemma MeanIsAScore(total: real, m: nat)
    requires m > 0 && 0.0 <= total <= m as real * 100.0
    ensures 0.0 <= total / m as real <= 100.0
  {
  }

  /** Every score the loop collects is the truthy average score of one of the students. */
  lemma {:induction false} ScoresComeFromStudents(students: seq<Student>, judge: Judge)
    ensures TallyOf(students, judge).Ok? ==>
      forall k :: 0 <= k < |TallyOf(students, judge).value.scores| ==>
        exists j :: 0 <= j < |students| && ScoreOf(students[j]) == Some(TallyOf(students, judge).value.scores[k])
  {
    if students != [] {
      var front := students[..|students| - 1];
      ScoresComeFromStudents(front, judge);
      if TallyOf(students, judge).Ok? {
        var t := TallyOf(front, judge).value;
        var u := TallyOf(students, judge).value;
        forall k | 0 <= k < |u.scores|
          ensures exists j :: 0 <= j < |students| && ScoreOf(students[j]) == Some(u.scores[k])
        {
          if k < |t.scores| {
            var j :| 0 <= j < |front| && ScoreOf(front[j]) == Some(t.scores[k]);
            assert students[j] == front[j];
          } else {
            assert ScoreOf(students[|students| - 1]) == Some(u.scores[k]);
          }
        }
      }
    }
  }

  /** The analytics loop stops at its first error, which is then the result. */
  lemma {:induction false} TallyErrorPersists(students: seq<Student>, n: nat, judge: Judge)
    requires n <= |students| && TallyOf(students[..n], judge).Err?
    ensures TallyOf(students, judge) == TallyOf(students[..n], judge)
    decreases |students| - n
  {
    if n == |students| {
      assert students[..n] == students;
    } else {
      assert students[..n + 1][..n] == students[..n];
      TallyErrorPersists(students, n + 1, judge);
    }
  }

  /** `_generate_class_analytics` step by step, as written: the per-student loop, then the averages. */
  method GenerateClassAnalytics(students: seq<Student>, now: int, parse: Parser) returns (r: Result<ClassAnalytics, string>)
    ensures r == ClassAnalyticsAsWritten(students, now, parse)
  {
    if |students| == 0 {
      return Ok(NoStudentsFound);
    }
    var judge := RecencyJudgeAsWritten(now, parse);
    var t := Tally(0, 0, 0, 0, [], 0, 0);
    for i := 0 to |students|
      invariant TallyOf(students[..i], judge) == Ok(t)
    {
      assert students[..i + 1][..i] == students[..i] && students[..i + 1][i] == students[i];
      var u := TallyStudent(t, students[i], now, parse);
      if u.Err? {
        TallyErrorPersists(students, i + 1, judge);
        return Err(u.error);
      }
      t := u.value;
    }
    assert students[..|students|] == students;
    r := Finish(|students|, t);
  }

  /** The body of the analytics loop for one student, as written: the counts, then the activity check, which may raise. */
  method TallyStudent(t: Tally, s: Student, now: int, parse: Parser) returns (u: Result<Tally, string>)
    ensures u == TallyStep(t, s, RecencyJudgeAsWritten(now, parse)(s))
  {
    var counted := t.(
      assessments := t.assessments + |Take(s.assessments, AnalyticsLimit)|,
      activities := t.activities + |Take(s.activities, AnalyticsLimit)|,
      plans := t.plans + |Take(s.plans, AnalyticsLimit)|,
      conversations := t.conversations + |Take(s.conversations, AnalyticsLimit)|);
    var score := ScoreOf(s);
    if score.Some? {
      counted := counted.(scores := counted.scores + [score.value]);
    }
    var last := LastActivityDateAsWritten(ActivityItems(s, AnalyticsLimit), parse);
    assert RecencyJudgeAsWritten(now, parse)(s) == RecencyAsWritten(now, ActivityItems(s, AnalyticsLimit), parse);
    if last.Err? {
      return Err(last.error);
    }
    if last.value.Some? {
      var when := last.value.value;
      if when.aware {
        return Err(SubtractError);
      }
      if (now - when.seconds) / SecondsPerDay <= ActiveDays {
        counted := counted.(active := counted.active + 1);
      } else {
        counted := counted.(inactive := counted.inactive + 1);
      }
    }
    u := Ok(counted);
  }

  /**
   * As written, a student whose dates all carry an offset, as the
   * datetimes Firestore returns for its server timestamps do, makes the
   * analytics raise, where the intended analytics count the student as
   * active or inactive.
   */
  lemma OffsetDatesBreakAnalyticsAsWritten(s: Student, now: int, parse: Parser)
    requires Dates(ActivityItems(s, AnalyticsLimit), parse) != []
    requires forall k :: 0 <= k < |Dates(ActivityItems(s, AnalyticsLimit), parse)| ==>
      Dates(ActivityItems(s, AnalyticsLimit), parse)[k].aware
    requires ScoreOf(s).None? || Number(ScoreOf(s).value).Some?
    ensures ClassAnalyticsAsWritten([s], now, parse) == Err(SubtractError)
    ensures ClassAnalyticsOf([s], now, parse).Ok?
    ensures ClassAnalyticsOf([s], now, parse).value.activeStudents + ClassAnalyticsOf([s], now, parse).value.inactiveStudents == 1
  {
    var items := ActivityItems(s, AnalyticsLimit);
    var ds := Dates(items, parse);
    assert !Mixed(ds);
    assert LastActivityAsWritten(items, parse) == Ok(Some(Stamp(Latest(ds), true)));
    assert [s][..0] == [] && [s][0] == s;
    var zero := Tally(0, 0, 0, 0, [], 0, 0);
    var written := RecencyJudgeAsWritten(now, parse);
    assert written(s) == Err(SubtractError);
    assert TallyOf([s], written) == TallyStep(zero, s, written(s));
    var judge := RecencyJudge(now, parse);
    assert judge(s) == Ok(Recency(now, LastActivity(items, parse)));
    assert TallyOf([s], judge) == TallyStep(zero, s, judge(s));
    var t := TallyOf([s], judge).value;
    assert t.scores == [] || t.scores == [ScoreOf(s).value];
    if t.scores != [] {
      assert t.scores[..0] == [];
    }
  }

  // ---------------------------------------------------------------- sorting

  predicate InOrder(a: real, b: real, descending: bool)
  {
    if descending then a >= b else a <= b
  }

  /** The keys along `xs` never increase (descending) or never decrease (ascending). */
  predicate Ordered<T>(xs: seq<T>, key: T -> real, descending: bool)
  {
    forall i, j :: 0 <= i < j < |xs| ==> InOrder(key(xs[i]), key(xs[j]), descending)
  }

  /** Places `x` after every element that sorts before it or ties with it. */
  function Insert<T(==)>(xs: seq<T>, x: T, key: T -> real, descending: bool): (r: seq<T>)
    ensures multiset(r) == multiset(xs) + multiset{x}
    ensures |r| == |xs| + 1
    ensures forall j :: 0 <= j < |r| ==> r[j] == x || r[j] in xs
    decreases |xs|
  {
    if xs == [] then [x]
    else if InOrder(key(xs[0]), key(x), descending) then
      assert xs == [xs[0]] + xs[1..];
      [xs[0]] + Insert(xs[1..], x, key, descending)
    else [x] + xs
  }

  /** Inserting into an ordered list keeps it ordered. */
  lemma {:induction false} InsertKeepsOrder<T>(xs: seq<T>, x: T, key: T -> real, descending: bool)
    requires Ordered(xs, key, descending)
    ensures Ordered(Insert(xs, x, key, descending), key, descending)
    decreases |xs|
  {
    if xs != [] && InOrder(key(xs[0]), key(x), descending) {
      OrderedTail(xs, key, descending);
      InsertKeepsOrder(xs[1..], x, key, descending);
      InsertBehind(xs, x, key, descending);
    } else if xs != [] {
      InsertInFront(xs, x, key, descending);
    }
  }

  lemma OrderedTail<T>(xs: seq<T>, key: T -> real, descending: bool)
    requires xs != [] && Ordered(xs, key, descending)
    ensures Ordered(xs[1..], key, descending)
  {
    var tail := xs[1..];
    forall i, j | 0 <= i < j < |tail| ensures InOrder(key(tail[i]), key(tail[j]), descending) {
      assert tail[i] == xs[i + 1] && tail[j] == xs[j + 1];
    }
  }

  /** `x` goes behind the head, which sorts before everything inserted behind it. */
  lemma InsertBehind<T>(xs: seq<T>, x: T, key: T -> real, descending: bool)
    requires xs != [] && Ordered(xs, key, descending) && InOrder(key(xs[0]), key(x), descending)
    requires Ordered(Insert(xs[1..], x, key, descending), key, descending)
    ensures Ordered(Insert(xs, x, key, descending), key, descending)
  {
    var tail := xs[1..];
    var rest := Insert(tail, x, key, descending);
    var r := Insert(xs, x, key, descending);
    assert r == [xs[0]] + rest;
    forall j | 0 <= j < |rest| ensures InOrder(key(xs[0]), key(rest[j]), descending) {
      if rest[j] != x {
        var m :| 0 <= m < |tail| && tail[m] == rest[j];
        assert tail[m] == xs[m + 1];
      }
    }
    forall i, j | 0 <= i < j < |r| ensures InOrder(key(r[i]), key(r[j]), descending) {
      assert r[j] == rest[j - 1];
      if i > 0 {
        assert r[i] == rest[i - 1];
      }
    }
  }

  /** `x` goes in front when the head does not sort before it. */
  lemma InsertInFront<T>(xs: seq<T>, x: T, key: T -> real, descending: bool)
    requires xs != [] && Ordered(xs, key, descending) && !InOrder(key(xs[0]), key(x), descending)
    ensures Ordered(Insert(xs, x, key, descending), key, descending)
  {
    var r := Insert(xs, x, key, descending);
    assert r == [x] + xs;
    forall i, j | 0 <= i < j < |r| ensures InOrder(key(r[i]), key(r[j]), descending) {
      assert r[j] == xs[j - 1];
      if i > 0 {
        assert r[i] == xs[i - 1];
      } else if j > 1 {
        assert InOrder(key(xs[0]), key(xs[j - 1]), descending);
      }
    }
  }

  /** Python's `sorted(xs, key=key, reverse=descending)`: insertion sort, which keeps ties in their input order. */
  function SortBy<T(==)>(xs: seq<T>, key: T -> real, descending: bool): (r: seq<T>)
    ensures multiset(r) == multiset(xs)
    ensures |r| == |xs|
    ensures Ordered(r, key, descending)
  {
    if xs == [] then []
    else
      var sorted := SortBy(xs[..|xs| - 1], key, descending);
      assert xs == xs[..|xs| - 1] + [xs[|xs| - 1]];
      InsertKeepsOrder(sorted, xs[|xs| - 1], key, descending);
      Insert(sorted, xs[|xs| - 1], key, descending)
  }

  /** A sorted list holds exactly the elements it was sorted from. */
  lemma SortedMembers<T>(xs: seq<T>, key: T -> real, descending: bool, y: T)
    ensures y in SortBy(xs, key, descending) <==> y in xs
  {
    var r := SortBy(xs, key, descending);
    assert y in r <==> y in multiset(r);
    assert y in xs <==> y in multiset(xs);
  }

  // ---------------------------------------------------------------- recent class activity

  const RecentLimit := 20

  /** An entry of `recent_activities`; `score` is there for assessments only. */
  datatype ClassActivity = ClassActivity(
    kind: string, studentId: string, studentName: Value, activity: string,
    score: Option<Value>, timestamp: Value, details: Record)

  /** `profile.get("display_name", f"Student {student_id[:8]}")`. */
  function StudentName(s: Student): (name: Value)
    ensures "display_name" !in s.profile ==> name == Str("Student " + Take(s.userId, 8))
  {
    Get(s.profile, "display_name", Str("Student " + Take(s.userId, 8)))
  }

  function AssessmentEntry(s: Student, a: Record): ClassActivity
  {
    ClassActivity("assessment", s.userId, StudentName(s),
      "Completed assessment: " + Display(Get(a, "topic", Str("Unknown"))),
      Some(Get(a, "score", Null)), Get(a, "created_at", Null), a)
  }

  function ActivityEntry(s: Student, a: Record): ClassActivity
  {
    ClassActivity("activity", s.userId, StudentName(s),
      "Created " + Display(Get(a, "activity_type", Str("activity"))) + ": " + Display(Get(a, "title", Str("Untitled"))),
      None, Get(a, "created_at", Null), a)
  }

  function PlanEntry(s: Student, p: Record): ClassActivity
  {
    ClassActivity("lesson_plan", s.userId, StudentName(s),
      "Created lesson plan: " + Display(Get(p, "title", Str("Untitled"))),
      None, Get(p, "created_at", Null), p)
  }

  /** One student's entries: up to five assessments, five activities and three lesson plans, in that order. */
  function StudentEntries(s: Student): (es: seq<ClassActivity>)
    ensures |es| == |Take(s.assessments, 5)| + |Take(s.activities, 5)| + |Take(s.plans, 3)|
    ensures forall k :: 0 <= k < |es| ==> es[k].studentId == s.userId
  {
    var a := Take(s.assessments, 5);
    var b := Take(s.activities, 5);
    var c := Take(s.plans, 3);
    seq(|a|, i requires 0 <= i < |a| => AssessmentEntry(s, a[i]))
    + seq(|b|, i requires 0 <= i < |b| => ActivityEntry(s, b[i]))
    + seq(|c|, i requires 0 <= i < |c| => PlanEntry(s, c[i]))
  }

  /** Every student's entries, students in order. */
  function AllEntries(students: seq<Student>): (es: seq<ClassActivity>)
  {
    if students == [] then []
    else AllEntries(students[..|students| - 1]) + StudentEntries(students[|students| - 1])
  }

  /**
   * The sort key `x.get("timestamp") or datetime.min`, for timestamps the
   * sort can compare: `rank` orders the timestamps of one kind the way
   * Python compares them, and a missing timestamp sorts below every
   * present one. `rank` is left unconstrained: every ordering lemma about
   * the recent activities holds for any rank, so no result rests on a
   * particular choice of it.
   */
  function TimestampKey(rank: Value -> nat): ClassActivity -> real
  {
    (e: ClassActivity) => if Truthy(e.timestamp) then (rank(e.timestamp) + 1) as real else 0.0
  }

  /**
   * What a sort key is, for Python's `<`: `datetime.min` has no UTC offset,
   * while every datetime read back from the store has one; strings,
   * numbers (with `True`), lists and dicts are kinds of their own.
   */
  datatype KeyKind = NaiveKind | AwareKind | TextKind | NumberKind | ListKind | DictKind

  function KeyKindOf(timestamp: Value): (k: KeyKind)
    ensures k == NaiveKind <==> !Truthy(timestamp)
    ensures timestamp.DateTime? ==> k == AwareKind
  {
    if !Truthy(timestamp) then NaiveKind
    else match timestamp
      case DateTime(_) => AwareKind
      case Str(_) => TextKind
      case List(_) => ListKind
      case Obj(_) => DictKind
      case _ => NumberKind
  }

  /**
   * Whether `sort` can order the entries: with two or more, every key is
   * of one kind that `<` compares with itself. A comparison sort that
   * finishes has compared every pair of neighbours in its output, so keys
   * of two kinds `<` cannot compare always meet.
   */
  predicate Sortable(es: seq<ClassActivity>)
  {
    |es| <= 1 ||
    (KeyKindOf(es[0].timestamp) != DictKind && forall i :: 0 <= i < |es| ==> KeyKindOf(es[i].timestamp) == KeyKindOf(es[0].timestamp))
  }

  /** The `TypeError` of the sort. */
  const SortError := "'<' not supported between the timestamps of two class activities"

  /** `_get_recent_class_activities` as evidently intended: every entry, newest first, cut to `limit`. */
  function RecentActivities(students: seq<Student>, rank: Value -> nat, limit: nat): (r: seq<ClassActivity>)
    ensures |r| == if limit <= |AllEntries(students)| then limit else |AllEntries(students)|
    ensures forall a :: a in r ==> a in AllEntries(students)
  {
    var sorted := SortBy(AllEntries(students), TimestampKey(rank), true);
    var r := Take(sorted, limit);
    assert forall a :: a in r ==> a in sorted && a in multiset(sorted);
    r
  }

  /**
   * `_get_recent_class_activities` as written: the sort raises unless the
   * keys can be compared; otherwise the intended list.
   */
  function RecentActivitiesAsWritten(students: seq<Student>, rank: Value -> nat, limit: nat): (r: Result<seq<ClassActivity>, string>)
    ensures r.Ok? <==> Sortable(AllEntries(students))
    ensures r.Err? ==> r.error == SortError
    ensures r.Ok? ==> r.value == RecentActivities(students, rank, limit)
  {
    if Sortable(AllEntries(students)) then Ok(RecentActivities(students, rank, limit)) else Err(SortError)
  }

  /**
   * At most `limit` entries, newest first, each one of the students'
   * entries; and when there are no more than `limit` entries, all of them.
   * As written, this is the list whenever the sort goes through.
   */
  lemma RecentActivitiesAreNewest(students: seq<Student>, rank: Value -> nat, limit: nat)
    ensures var r := RecentActivities(students, rank, limit);
      |r| <= limit &&
      Ordered(r, TimestampKey(rank), true) &&
      (forall e :: e in r ==> e in AllEntries(students)) &&
      (|AllEntries(students)| <= limit ==> multiset(r) == multiset(AllEntries(students)))
  {
    var all := AllEntries(students);
    var sorted := SortBy(all, TimestampKey(rank), true);
    var r := Take(sorted, limit);
    forall e | e in r ensures e in all {
      SortedMembers(all, TimestampKey(rank), true, e);
    }
    assert Ordered(r, TimestampKey(rank), true) by {
      forall i, j | 0 <= i < j < |r|
        ensures InOrder(TimestampKey(rank)(r[i]), TimestampKey(rank)(r[j]), true)
      {
        assert r[i] == sorted[i] && r[j] == sorted[j];
      }
    }
    if |all| <= limit {
      assert r == sorted;
    }
  }

  /**
   * As written, a student with an assessment the store has stamped and a
   * lesson plan without a `created_at` makes the sort raise: the plan's
   * key is the naive `datetime.min`, the assessment's an aware datetime.
   */
  lemma MissingTimestampBreaksRecentActivities(s: Student, rank: Value -> nat, limit: nat)
    requires s.assessments != [] && Get(s.assessments[0], "created_at", Null).DateTime?
    requires s.plans != [] && "created_at" !in s.plans[0]
    ensures RecentActivitiesAsWritten([s], rank, limit) == Err(SortError)
  {
    var es := AllEntries([s]);
    assert [s][..0] == [] && [s][0] == s;
    assert AllEntries([s][..0]) == [];
    assert es == StudentEntries(s);
    var k := |Take(s.assessments, 5)| + |Take(s.activities, 5)|;
    assert es[0] == AssessmentEntry(s, s.assessments[0]);
    assert es[k] == PlanEntry(s, s.plans[0]);
    assert KeyKindOf(es[0].timestamp) == AwareKind;
    assert KeyKindOf(es[k].timestamp) == NaiveKind;
  }

  /** `_get_recent_class_activities` step by step: gather per student, then sort, which may raise, and cut. */
  method GetRecentClassActivities(students: seq<Student>, rank: Value -> nat, limit: nat) returns (r: Result<seq<ClassActivity>, string>)
    ensures r == RecentActivitiesAsWritten(students, rank, limit)
  {
    var all: seq<ClassActivity> := [];
    for i := 0 to |students|
      invariant all == AllEntries(students[..i])
    {
      assert students[..i + 1][..i] == students[..i];
      all := all + StudentEntries(students[i]);
    }
    assert students[..|students|] == students;
    if !Sortable(all) {
      return Err(SortError);
    }
    r := Ok(Take(SortBy(all, TimestampKey(rank), true), limit));
  }

  // ---------------------------------------------------------------- performance summary

  /** An entry of the performance summary; `score` is `averageScore` as a number. */
  datatype Performer = Performer(studentId: string, name: Value, averageScore: Value, score: real, totalAssessments: Value)

  datatype Band = HighBand | AverageBand | StrugglingBand

  /** At least 80 is high, below 60 is struggling, the rest is average. */
  function BandOf(score: real): (b: Band)
    ensures b == HighBand <==> score >= 80.0
    ensures b == StrugglingBand <==> score < 60.0
  {
    if score >= 80.0 then HighBand else if score < 60.0 then StrugglingBand else AverageBand
  }

  /** Python's error for an ordering comparison of a non-number with an `int`. */
  function OrderingError(op: string, v: Value): string
  {
    "'" + op + "' not supported between instances of '" + TypeName(v) + "' and 'int'"
  }

  /** The student's entry, when they have a (non-empty) performance record, or the comparison error. */
  function PerformerOf(s: Student): (r: Result<Option<Performer>, string>)
    ensures r.Ok? && r.value.Some? ==> s.performance.Some? && s.performance.value != map[]
    ensures r.Ok? && r.value.Some? ==> Number(r.value.value.averageScore) == Some(r.value.value.score)
  {
    match s.performance
    case None => Ok(None)
    case Some(p) =>
      if p == map[] then Ok(None)
      else
        var avg := Get(p, "average_score", Int(0));
        match Number(avg)
        case None => Err(OrderingError(">=", avg))
        case Some(x) => Ok(Some(Performer(s.userId, StudentName(s), avg, x, Get(p, "total_assessments", Int(0)))))
  }

  /** The three bands the loop fills: high, struggling and average performers, in student order. */
  datatype Bands = Bands(high: seq<Performer>, struggling: seq<Performer>, average: seq<Performer>)

  predicate BandsSound(b: Bands)
  {
    (forall k :: 0 <= k < |b.high| ==> BandOf(b.high[k].score) == HighBand) &&
    (forall k :: 0 <= k < |b.struggling| ==> BandOf(b.struggling[k].score) == StrugglingBand) &&
    (forall k :: 0 <= k < |b.average| ==> BandOf(b.average[k].score) == AverageBand)
  }

  /** The number of students with a non-empty performance record. */
  function Rated(students: seq<Student>): nat
  {
    if students == [] then 0
    else
      var s := students[|students| - 1];
      Rated(students[..|students| - 1]) + (if s.performance.Some? && s.performance.value != map[] then 1 else 0)
  }

  function AddToBand(b: Bands, p: Performer): (r: Bands)
  {
    match BandOf(p.score)
    case HighBand => b.(high := b.high + [p])
    case StrugglingBand => b.(struggling := b.struggling + [p])
    case AverageBand => b.(average := b.average + [p])
  }

  /** The bands after the loop has seen `students`, or the first comparison error. */
  function BandsOf(students: seq<Student>): (r: Result<Bands, string>)
    ensures r.Ok? ==> BandsSound(r.value)
    ensures r.Ok? ==> |r.value.high| + |r.value.struggling| + |r.value.average| == Rated(students)
  {
    if students == [] then Ok(Bands([], [], []))
    else
      match BandsOf(students[..|students| - 1])
      case Err(e) => Err(e)
      case Ok(b) => BandStep(b, students[|students| - 1])
  }

  /** One student's turn in the banding loop. */
  function BandStep(b: Bands, s: Student): (r: Result<Bands, string>)
  {
    match PerformerOf(s)
    case Err(e) => Err(e)
    case Ok(None) => Ok(b)
    case Ok(Some(p)) => Ok(AddToBand(b, p))
  }

  function ScoreKey(p: Performer): real { p.score }

  /** `_generate_performance_summary`; the distribution is `Distribution()`. */
  datatype Summary =
    | NoStudentsToAnalyze
    | Summary(highPerformers: seq<Performer>, strugglingStudents: seq<Performer>, averagePerformers: seq<Performer>)
  {
    /** The "high", "average" and "struggling" counts. */
    function Distribution(): (nat, nat, nat)
    {
      if NoStudentsToAnalyze? then (0, 0, 0)
      else (|highPerformers|, |averagePerformers|, |strugglingStudents|)
    }
  }

  function SummaryOf(students: seq<Student>): (r: Result<Summary, string>)
    ensures r == Ok(NoStudentsToAnalyze) <==> students == []
    ensures r.Err? <==> students != [] && BandsOf(students).Err?
  {
    if students == [] then Ok(NoStudentsToAnalyze)
    else
      match BandsOf(students)
      case Err(e) => Err(e)
      case Ok(b) => Ok(Summary(SortBy(b.high, ScoreKey, true), SortBy(b.struggling, ScoreKey, false), SortBy(b.average, ScoreKey, true)))
  }

  /**
   * Each performer is in the band of their score, high and average
   * performers are sorted by descending score and struggling students by
   * ascending score, and the distribution counts every student who has a
   * performance record once.
   */
  lemma SummaryIsBanded(students: seq<Student>)
    ensures SummaryOf(students) == Ok(NoStudentsToAnalyze) <==> students == []
    ensures SummaryOf(students).Ok? && students != [] ==>
      var m := SummaryOf(students).value;
      (forall p :: p in m.highPerformers ==> p.score >= 80.0) &&
      (forall p :: p in m.strugglingStudents ==> p.score < 60.0) &&
      (forall p :: p in m.averagePerformers ==> 60.0 <= p.score < 80.0) &&
      Ordered(m.highPerformers, ScoreKey, true) &&
      Ordered(m.strugglingStudents, ScoreKey, false) &&
      Ordered(m.averagePerformers, ScoreKey, true) &&
      m.Distribution().0 + m.Distribution().1 + m.Distribution().2 == Rated(students)
  {
    if students != [] && BandsOf(students).Ok? {
      var b := BandsOf(students).value;
      SortedStaysInBand(b.high, true, HighBand);
      SortedStaysInBand(b.struggling, false, StrugglingBand);
      SortedStaysInBand(b.average, true, AverageBand);
    }
  }

  /** Sorting a band keeps every member in it. */
  lemma SortedStaysInBand(xs: seq<Performer>, descending: bool, band: Band)
    requires forall k :: 0 <= k < |xs| ==> BandOf(xs[k].score) == band
    ensures forall p :: p in SortBy(xs, ScoreKey, descending) ==> BandOf(p.score) == band
  {
    forall p | p in SortBy(xs, ScoreKey, descending) ensures BandOf(p.score) == band {
      SortedMembers(xs, ScoreKey, descending, p);
    }
  }

  /** `_generate_performance_summary` step by step: the banding loop, then the sorts. */
  method GeneratePerformanceSummary(students: seq<Student>) returns (r: Result<Summary, string>)
    ensures r == SummaryOf(students)
  {
    if |students| == 0 {
      return Ok(NoStudentsToAnalyze);
    }
    var b := Bands([], [], []);
    for i := 0 to |students|
      invariant BandsOf(students[..i]) == Ok(b)
    {
      assert students[..i + 1][..i] == students[..i] && students[..i + 1][i] == students[i];
      var step := BandStudent(b, students[i]);
      if step.Err? {
        PrefixErrorPersists(students, i + 1);
        assert students[..|students|] == students;
        return Err(step.error);
      }
      b := step.value;
    }
    assert students[..|students|] == students;
    r := Ok(Summary(SortBy(b.high, ScoreKey, true), SortBy(b.struggling, ScoreKey, false), SortBy(b.average, ScoreKey, true)));
  }

  /** The body of the banding loop: the student's entry goes to the list of its band. */
  method BandStudent(b: Bands, s: Student) returns (r: Result<Bands, string>)
    ensures r == BandStep(b, s)
  {
    var p := PerformerOf(s);
    if p.Err? {
      return Err(p.error);
    }
    r := Ok(b);
    if p.value.Some? {
      var x := p.value.value;
      if x.score >= 80.0 {
        r := Ok(b.(high := b.high + [x]));
      } else if x.score < 60.0 {
        r := Ok(b.(struggling := b.struggling + [x]));
      } else {
        r := Ok(b.(average := b.average + [x]));
      }
    }
  }

  /** The banding loop stops at its first error, which is then the result. */
  lemma {:induction false} PrefixErrorPersists(students: seq<Student>, n: nat)
    requires 0 < n <= |students| && BandsOf(students[..n]).Err?
    ensures BandsOf(students) == BandsOf(students[..n])
    decreases |students| - n
  {
    if n == |students| {
      assert students[..n] == students;
    } else {
      assert students[..n + 1][..n] == students[..n];
      PrefixErrorPersists(students, n + 1);
    }
  }

  // ---------------------------------------------------------------- recommendations

  datatype Priority = High | Medium

  datatype Recommendation = Recommendation(category: string, recommendation: string, priority: Priority)

  /** The characters `strip('1234567890. []')` removes from a category. */
  const CategoryTrim: set<char> := {'1', '2', '3', '4', '5', '6', '7', '8', '9', '0', '.', ' ', '[', ']'}

  /** A category with nothing left to trim at either end. */
  predicate Trimmed(c: string)
  {
    c == [] || (c[0] !in CategoryTrim && c[|c| - 1] !in CategoryTrim)
  }

  /** High exactly when the recommendation mentions struggling or urgency, in any case. */
  function PriorityOf(text: string): (p: Priority)
    ensures p == High <==> Contains(Lower(text), "struggling") || Contains(Lower(text), "urgent")
  {
    if Contains(Lower(text), "struggling") || Contains(Lower(text), "urgent") then High else Medium
  }

  /** A recommendation from the text before and after " - ". */
  function FromParts(left: string, right: string): (r: Recommendation)
    ensures r.category == StripChars(left, CategoryTrim) && Trimmed(r.category)
    ensures r.recommendation == Strip(right)
    ensures r.priority == High <==>
      Contains(Lower(r.recommendation), "struggling") || Contains(Lower(r.recommendation), "urgent")
  {
    var text := Strip(right);
    Recommendation(StripChars(left, CategoryTrim), text, PriorityOf(text))
  }

  /** A line that starts, after whitespace, with a digit 1 to 9. */
  predicate Numbered(line: string)
  {
    var t := Strip(line);
    t != [] && '1' <= t[0] <= '9'
  }

  /**
   * One line of the model's reply: a numbered line that holds " - " gives
   * the category before it and the recommendation after it.
   */
  function ParseLine(line: string): (r: Option<Recommendation>)
    ensures r.Some? <==> Numbered(line) && |SplitOnce(line, " - ")| == 2
    ensures r.Some? ==> r.value == FromParts(SplitOnce(line, " - ")[0], SplitOnce(line, " - ")[1])
  {
    if Numbered(line) then
      var parts := SplitOnce(line, " - ");
      if |parts| == 2 then Some(FromParts(parts[0], parts[1])) else None
    else None
  }

  /** What `parse` gives for the lines that give something, in line order. */
  function Collected<T>(lines: seq<string>, parse: string -> Option<T>): (rs: seq<T>)
    ensures |rs| <= |lines|
  {
    if lines == [] then []
    else
      var r := parse(lines[|lines| - 1]);
      Collected(lines[..|lines| - 1], parse) + (if r.Some? then [r.value] else [])
  }

  /** Everything collected is what `parse` gives for one of the lines. */
  lemma {:induction false} CollectedComeFromLines<T>(lines: seq<string>, parse: string -> Option<T>)
    ensures forall k :: 0 <= k < |Collected(lines, parse)| ==>
      exists i :: 0 <= i < |lines| && parse(lines[i]) == Some(Collected(lines, parse)[k])
  {
    if lines != [] {
      var front := lines[..|lines| - 1];
      CollectedComeFromLines(front, parse);
      var rs := Collected(lines, parse);
      forall k | 0 <= k < |rs|
        ensures exists i :: 0 <= i < |lines| && parse(lines[i]) == Some(rs[k])
      {
        if k < |Collected(front, parse)| {
          var i :| 0 <= i < |front| && parse(front[i]) == Some(Collected(front, parse)[k]);
          assert lines[i] == front[i];
          assert rs[k] == Collected(front, parse)[k];
        } else {
          assert parse(lines[|lines| - 1]) == Some(rs[k]);
        }
      }
    } else {
      assert |Collected(lines, parse)| == 0;
    }
  }

  /** The recommendations of the reply's lines, in line order. */
  function ParsedLines(lines: seq<string>): seq<Recommendation>
  {
    Collected(lines, ParseLine)
  }

  /** The lines of a reply: `text.strip().split('\n')`. */
  function ReplyLines(text: string): seq<string>
  {
    SplitOn(Strip(text), '\n')
  }

  /** A property of everything `parse` gives holds of everything collected. */
  lemma {:induction false} CollectedAll<T>(lines: seq<string>, parse: string -> Option<T>, good: T -> bool)
    requires forall l :: parse(l).Some? ==> good(parse(l).value)
    ensures forall k :: 0 <= k < |Collected(lines, parse)| ==> good(Collected(lines, parse)[k])
  {
    if lines != [] {
      var front := lines[..|lines| - 1];
      CollectedAll(front, parse, good);
      var rs := Collected(lines, parse);
      assert forall k :: 0 <= k < |Collected(front, parse)| ==> rs[k] == Collected(front, parse)[k];
    } else {
      assert |Collected(lines, parse)| == 0;
    }
  }

  function HasTrimmedCategory(r: Recommendation): bool { Trimmed(r.category) }

  lemma ParsedCategoriesAreTrimmed()
    ensures forall l :: ParseLine(l).Some? ==> HasTrimmedCategory(ParseLine(l).value)
  {
  }

  /** Every parsed recommendation is what one of the lines gives, and its category is trimmed. */
  lemma ParsedLinesComeFromLines(lines: seq<string>)
    ensures |ParsedLines(lines)| <= |lines|
    ensures forall k :: 0 <= k < |ParsedLines(lines)| ==>
      exists i :: 0 <= i < |lines| && ParseLine(lines[i]) == Some(ParsedLines(lines)[k])
    ensures forall k :: 0 <= k < |ParsedLines(lines)| ==> Trimmed(ParsedLines(lines)[k].category)
  {
    CollectedComeFromLines(lines, ParseLine);
    ParsedCategoriesAreTrimmed();
    CollectedAll(lines, ParseLine, HasTrimmedCategory);
  }

  /** The parsing loop of `_generate_teacher_recommendations`. */
  method ParseRecommendations(text: string) returns (recs: seq<Recommendation>)
    ensures recs == ParsedLines(ReplyLines(text))
  {
    var lines := ReplyLines(text);
    var parse: string -> Option<Recommendation> := ParseLine;
    recs := [];
    for i := 0 to |lines|
      invariant recs == Collected(lines[..i], ParseLine)
    {
      assert lines[..i + 1][..i] == lines[..i];
      var r := parse(lines[i]);
      if r.Some? {
        recs := recs + [r.value];
      }
    }
    assert lines[..|lines|] == lines;
  }

  const EngagementAdvice := "Consider implementing more interactive activities to increase student engagement"
  const ChallengeAdvice := "Consider providing more challenging content for high-performing students"

  function InterventionAdvice(struggling: nat): string
  {
    "Provide additional support for " + NatToString(struggling) + " struggling students through personalized learning plans"
  }

  /** `class_analytics.get("engagement_rate", 0)`: the empty class has none. */
  function EngagementRate(a: ClassAnalytics): real
  {
    if a.Analytics? then a.engagementRate else 0.0
  }

  function ClassAverage(a: ClassAnalytics): real
  {
    if a.Analytics? then a.classAverageScore else 0.0
  }

  /** The recommendations built from the data when there is no model reply. */
  function FallbackRecommendations(a: ClassAnalytics, m: Summary): (recs: seq<Recommendation>)
  {
    var struggling := m.Distribution().2;
    Chosen(EngagementRate(a) < 50.0, Recommendation("Engagement", EngagementAdvice, High),
      struggling > 0, Recommendation("Intervention", InterventionAdvice(struggling), High),
      ClassAverage(a) > 85.0, Recommendation("Challenge", ChallengeAdvice, Medium))
  }

  /** Up to three recommendations with distinct categories, each present exactly when chosen, in order. */
  function Chosen(e: bool, first: Recommendation, i: bool, second: Recommendation, c: bool, third: Recommendation): seq<Recommendation>
  {
    (if e then [first] else []) + (if i then [second] else []) + (if c then [third] else [])
  }

  lemma ChosenInOrder(e: bool, first: Recommendation, i: bool, second: Recommendation, c: bool, third: Recommendation)
    requires first.category != second.category && first.category != third.category && second.category != third.category
    requires first.priority == High && second.priority == High && third.priority == Medium
    ensures var recs := Chosen(e, first, i, second, c, third);
      ((exists r :: r in recs && r.category == first.category) <==> e) &&
      ((exists r :: r in recs && r.category == second.category) <==> i) &&
      ((exists r :: r in recs && r.category == third.category) <==> c) &&
      (forall r :: r in recs ==> (r.priority == Medium <==> r.category == third.category)) &&
      (e ==> recs[0] == first)
  {
    var recs := Chosen(e, first, i, second, c, third);
    assert forall r :: r in recs ==> (r == first && e) || (r == second && i) || (r == third && c);
    if e { assert first in recs; }
    if i { assert second in recs; }
    if c { assert third in recs; }
  }

  /**
   * The fallback holds an engagement recommendation exactly when the
   * engagement rate is below 50 (and then first), an intervention exactly
   * when some student struggles and a challenge exactly when the class
   * average is above 85; only the challenge has medium priority.
   */
  lemma FallbackFollowsTheData(a: ClassAnalytics, m: Summary)
    ensures var recs := FallbackRecommendations(a, m);
      ((exists r :: r in recs && r.category == "Engagement") <==> EngagementRate(a) < 50.0) &&
      ((exists r :: r in recs && r.category == "Intervention") <==> m.Distribution().2 > 0) &&
      ((exists r :: r in recs && r.category == "Challenge") <==> ClassAverage(a) > 85.0) &&
      (forall r :: r in recs ==> (r.priority == Medium <==> r.category == "Challenge")) &&
      (EngagementRate(a) < 50.0 ==> recs[0] == Recommendation("Engagement", EngagementAdvice, High))
  {
    CategoriesDiffer();
    ChosenInOrder(EngagementRate(a) < 50.0, Recommendation("Engagement", EngagementAdvice, High),
      m.Distribution().2 > 0, Recommendation("Intervention", InterventionAdvice(m.Distribution().2), High),
      ClassAverage(a) > 85.0, Recommendation("Challenge", ChallengeAdvice, Medium));
  }

  lemma CategoriesDiffer()
    ensures "Engagement" != "Intervention" && "Engagement" != "Challenge" && "Intervention" != "Challenge"
  {
    assert "Engagement"[0] == 'E' && "Intervention"[0] == 'I' && "Challenge"[0] == 'C';
  }

  /**
   * `_generate_teacher_recommendations`: the parsed reply when there is a
   * model and it answers (`reply` is `None` without a model, an error when
   * the call raises), the fallback otherwise.
   */
  function TeacherRecommendations(reply: Option<Result<string, string>>, a: ClassAnalytics, m: Summary): (recs: seq<Recommendation>)
    ensures reply.None? || reply.value.Err? ==> recs == FallbackRecommendations(a, m)
    ensures reply.Some? && reply.value.Ok? ==> recs == ParsedLines(ReplyLines(reply.value.value))
  {
    match reply
    case Some(Ok(text)) => ParsedLines(ReplyLines(text))
    case _ => FallbackRecommendations(a, m)
  }

  // ---------------------------------------------------------------- the dashboard

  /** `_get_student_complete_history`; the counts of the source are the lengths of these lists. */
  datatype StudentHistory = StudentHistory(
    studentId: string, profile: Record,
    assessments: seq<Record>, performance: Option<Record>,
    activities: seq<Record>, visualAids: seq<Record>,
    plans: seq<Record>, conversations: seq<Record>,
    lastActive: Option<int>)

  /** The items `_get_student_complete_history` reads the last activity from. */
  function HistoryItems(s: Student): seq<Record>
  {
    Take(s.assessments, 50) + Take(s.activities, 50) + Take(s.plans, 50) + Take(s.conversations, 30)
  }

  /** `_get_student_complete_history` as evidently intended: the last activity never raises. */
  function HistoryOfFixed(s: Student, parse: Parser): (h: StudentHistory)
    ensures h.studentId == s.userId && h.profile == s.profile && h.performance == s.performance
    ensures h.assessments == Take(s.assessments, 50) && h.activities == Take(s.activities, 50)
    ensures h.visualAids == Take(s.visualAids, 50) && h.plans == Take(s.plans, 50) && h.conversations == Take(s.conversations, 30)
    ensures h.lastActive == LastActivity(HistoryItems(s), parse)
  {
    StudentHistory(s.userId, s.profile, Take(s.assessments, 50), s.performance, Take(s.activities, 50), Take(s.visualAids, 50),
      Take(s.plans, 50), Take(s.conversations, 30), LastActivity(HistoryItems(s), parse))
  }

  /**
   * `_get_student_complete_history` as written: it raises when the dates
   * of its items mix offset-aware and naive datetimes, and otherwise gives
   * the intended history.
   */
  function HistoryOf(s: Student, parse: Parser): (r: Result<StudentHistory, string>)
    ensures r.Err? <==> Mixed(Dates(HistoryItems(s), parse))
    ensures r.Err? ==> r.error == CompareError
    ensures r.Ok? ==> r.value == HistoryOfFixed(s, parse)
  {
    match LastActivityAsWritten(HistoryItems(s), parse)
    case Err(e) => Err(e)
    case Ok(_) => Ok(HistoryOfFixed(s, parse))
  }

  /** The histories of the students in order, or the first error. */
  function Histories(students: seq<Student>, parse: Parser): (r: Result<seq<StudentHistory>, string>)
    ensures r.Ok? ==> |r.value| == |students| && forall i :: 0 <= i < |students| ==> r.value[i] == HistoryOfFixed(students[i], parse)
  {
    if students == [] then Ok([])
    else
      match Histories(students[..|students| - 1], parse)
      case Err(e) => Err(e)
      case Ok(hs) =>
        match HistoryOf(students[|students| - 1], parse)
        case Err(e) => Err(e)
        case Ok(h) => Ok(hs + [h])
  }

  /** The histories go through exactly when every student's does. */
  lemma {:induction false} HistoriesFail(students: seq<Student>, parse: Parser)
    ensures Histories(students, parse).Ok? <==> forall i :: 0 <= i < |students| ==> HistoryOf(students[i], parse).Ok?
  {
    if students != [] {
      var front := students[..|students| - 1];
      HistoriesFail(front, parse);
      assert forall i :: 0 <= i < |front| ==> front[i] == students[i];
    }
  }

  /** Some student's history items mix dates with and without an offset. */
  predicate SomeHistoryMixed(students: seq<Student>, parse: Parser)
  {
    exists i :: 0 <= i < |students| && Mixed(Dates(HistoryItems(students[i]), parse))
  }

  /** The histories go through exactly when no student's history items mix dates with and without an offset. */
  lemma HistoriesGoThrough(students: seq<Student>, parse: Parser)
    ensures Histories(students, parse).Ok? <==> !SomeHistoryMixed(students, parse)
  {
    HistoriesFail(students, parse);
    if !Histories(students, parse).Ok? {
      var i :| 0 <= i < |students| && HistoryOf(students[i], parse).Err?;
      assert Mixed(Dates(HistoryItems(students[i]), parse));
    }
  }

  /** The history loop stops at its first error, which is then the result. */
  lemma {:induction false} HistoryErrorPersists(students: seq<Student>, n: nat, parse: Parser)
    requires n <= |students| && Histories(students[..n], parse).Err?
    ensures Histories(students, parse) == Histories(students[..n], parse)
    decreases |students| - n
  {
    if n == |students| {
      assert students[..n] == students;
    } else {
      assert students[..n + 1][..n] == students[..n];
      HistoryErrorPersists(students, n + 1, parse);
    }
  }

  datatype Dashboard = Dashboard(
    teacherId: string, classId: Option<string>, generatedAt: int, totalStudents: nat,
    students: seq<StudentHistory>, classAnalytics: ClassAnalytics,
    recentActivities: seq<ClassActivity>, performanceSummary: Summary,
    recommendations: seq<Recommendation>)

  /** The dashboard, or the error record `{"error", "teacher_id", "generated_at"}` when a step raises. */
  datatype DashboardReply =
    | Complete(dashboard: Dashboard)
    | Failed(error: string, teacherId: string, generatedAt: int)

  /**
   * `get_teacher_complete_dashboard` as written: the histories, the class
   * analytics, the recent activities and the performance summary, in that
   * order; the first step that raises gives the error record.
   */
  function DashboardOf(teacherId: string, classId: Option<string>, students: seq<Student>, now: int,
                       parse: Parser, rank: Value -> nat, reply: Option<Result<string, string>>): (r: DashboardReply)
    ensures r.Failed? ==> r.teacherId == teacherId && r.generatedAt == now
    ensures r.Complete? ==>
      r.dashboard.teacherId == teacherId && r.dashboard.totalStudents == |students|
      && ClassAnalyticsAsWritten(students, now, parse) == Ok(r.dashboard.classAnalytics)
  {
    match Histories(students, parse)
    case Err(e) => Failed(e, teacherId, now)
    case Ok(histories) =>
      match ClassAnalyticsAsWritten(students, now, parse)
      case Err(e) => Failed(e, teacherId, now)
      case Ok(a) =>
        match RecentActivitiesAsWritten(students, rank, RecentLimit)
        case Err(e) => Failed(e, teacherId, now)
        case Ok(recent) =>
          match SummaryOf(students)
          case Err(e) => Failed(e, teacherId, now)
          case Ok(m) =>
            Complete(Dashboard(teacherId, classId, now, |students|, histories, a, recent, m, TeacherRecommendations(reply, a, m)))
  }

  /** The dashboard as evidently intended: the histories, the analytics and the sort never raise. */
  function DashboardOfFixed(teacherId: string, classId: Option<string>, students: seq<Student>, now: int,
                            parse: Parser, rank: Value -> nat, reply: Option<Result<string, string>>): (r: DashboardReply)
    ensures r.Failed? ==> r.teacherId == teacherId && r.generatedAt == now
    ensures r.Complete? ==>
      r.dashboard.teacherId == teacherId && r.dashboard.totalStudents == |students|
      && ClassAnalyticsOf(students, now, parse) == Ok(r.dashboard.classAnalytics)
  {
    var histories := seq(|students|, i requires 0 <= i < |students| => HistoryOfFixed(students[i], parse));
    match ClassAnalyticsOf(students, now, parse)
    case Err(e) => Failed(e, teacherId, now)
    case Ok(a) =>
      match SummaryOf(students)
      case Err(e) => Failed(e, teacherId, now)
      case Ok(m) =>
        Complete(Dashboard(teacherId, classId, now, |students|, histories, a,
          RecentActivities(students, rank, RecentLimit), m, TeacherRecommendations(reply, a, m)))
  }

  /**
   * As written, the dashboard is the error record exactly when a history,
   * the analytics, the sort or the summary raise.
   */
  lemma DashboardFailsOnlyOnErrors(teacherId: string, classId: Option<string>, students: seq<Student>, now: int,
                                   parse: Parser, rank: Value -> nat, reply: Option<Result<string, string>>)
    ensures DashboardOf(teacherId, classId, students, now, parse, rank, reply).Failed? <==>
      SomeHistoryMixed(students, parse)
      || ClassAnalyticsAsWritten(students, now, parse).Err?
      || !Sortable(AllEntries(students))
      || SummaryOf(students).Err?
  {
    HistoriesGoThrough(students, parse);
    var d := DashboardOf(teacherId, classId, students, now, parse, rank, reply);
    if Histories(students, parse).Ok? {
      var a := ClassAnalyticsAsWritten(students, now, parse);
      if a.Ok? {
        var recent := RecentActivitiesAsWritten(students, rank, RecentLimit);
        if recent.Ok? {
          assert d.Failed? <==> SummaryOf(students).Err?;
        }
      }
    }
  }

  /** The intended dashboard is the error record exactly when the analytics or the summary raise. */
  lemma DashboardFixedFailsOnlyOnErrors(teacherId: string, classId: Option<string>, students: seq<Student>, now: int,
                                        parse: Parser, rank: Value -> nat, reply: Option<Result<string, string>>)
    ensures DashboardOfFixed(teacherId, classId, students, now, parse, rank, reply).Failed? <==>
      ClassAnalyticsOf(students, now, parse).Err? || SummaryOf(students).Err?
  {
  }

  /**
   * A complete dashboard has one history per student, in order, its
   * student count is the number of students, and it lists at most twenty
   * recent activities; as written and as intended alike.
   */
  lemma DashboardCoversEveryStudent(teacherId: string, classId: Option<string>, students: seq<Student>, now: int,
                                    parse: Parser, rank: Value -> nat, reply: Option<Result<string, string>>)
    ensures var d := DashboardOf(teacherId, classId, students, now, parse, rank, reply);
      d.Complete? ==>
        d.dashboard.totalStudents == |students| == |d.dashboard.students| &&
        (forall i :: 0 <= i < |students| ==> d.dashboard.students[i] == HistoryOfFixed(students[i], parse)) &&
        |d.dashboard.recentActivities| <= RecentLimit
    ensures var d := DashboardOfFixed(teacherId, classId, students, now, parse, rank, reply);
      d.Complete? ==>
        d.dashboard.totalStudents == |students| == |d.dashboard.students| &&
        (forall i :: 0 <= i < |students| ==> d.dashboard.students[i].studentId == students[i].userId) &&
        |d.dashboard.recentActivities| <= RecentLimit
  {
  }

  /** Every dated item of the list carries an offset. */
  predicate DatedAware(items: seq<Record>, parse: Parser)
  {
    forall i :: 0 <= i < |items| && CreatedAt(items[i], parse).Some? ==> CreatedAt(items[i], parse).value.aware
  }

  /** Every dated item the student has carries an offset, as the store's server timestamps do. */
  predicate StudentDatesAware(s: Student, parse: Parser)
  {
    DatedAware(s.assessments, parse) && DatedAware(s.activities, parse) && DatedAware(s.plans, parse) && DatedAware(s.conversations, parse)
  }

  lemma ConcatDatedAware(xs: seq<Record>, ys: seq<Record>, parse: Parser)
    requires DatedAware(xs, parse) && DatedAware(ys, parse)
    ensures DatedAware(xs + ys, parse)
  {
    forall i | 0 <= i < |xs + ys| && CreatedAt((xs + ys)[i], parse).Some?
      ensures CreatedAt((xs + ys)[i], parse).value.aware
    {
      if i < |xs| {
        assert (xs + ys)[i] == xs[i];
      } else {
        assert (xs + ys)[i] == ys[i - |xs|];
      }
    }
  }

  /** The first items of each of the student's lists are dated with offsets, so none of their dates lacks one. */
  lemma TakenDatesAware(s: Student, n: nat, m: nat, parse: Parser)
    requires StudentDatesAware(s, parse)
    ensures forall d :: d in Dates(Take(s.assessments, n) + Take(s.activities, n) + Take(s.plans, n) + Take(s.conversations, m), parse) ==> d.aware
  {
    var items := Take(s.assessments, n) + Take(s.activities, n) + Take(s.plans, n) + Take(s.conversations, m);
    ConcatDatedAware(Take(s.assessments, n), Take(s.activities, n), parse);
    ConcatDatedAware(Take(s.assessments, n) + Take(s.activities, n), Take(s.plans, n), parse);
    ConcatDatedAware(Take(s.assessments, n) + Take(s.activities, n) + Take(s.plans, n), Take(s.conversations, m), parse);
    DatesAreCreatedAts(items, parse);
  }

  /**
   * As written, a class of one student whose dated items all carry an
   * offset, with at least one date among the items the analytics read,
   * gets the error record of the subtraction; the intended dashboard fails
   * only if the performance summary does.
   */
  lemma AwareDatesBreakDashboardAsWritten(teacherId: string, classId: Option<string>, s: Student, now: int,
                                          parse: Parser, rank: Value -> nat, reply: Option<Result<string, string>>)
    requires StudentDatesAware(s, parse)
    requires Dates(ActivityItems(s, AnalyticsLimit), parse) != []
    requires ScoreOf(s).None? || Number(ScoreOf(s).value).Some?
    ensures DashboardOf(teacherId, classId, [s], now, parse, rank, reply) == Failed(SubtractError, teacherId, now)
    ensures DashboardOfFixed(teacherId, classId, [s], now, parse, rank, reply).Failed? <==> SummaryOf([s]).Err?
  {
    TakenDatesAware(s, 50, 30, parse);
    TakenDatesAware(s, AnalyticsLimit, AnalyticsLimit, parse);
    assert !Mixed(Dates(HistoryItems(s), parse));
    assert [s][..0] == [] && [s][0] == s;
    assert Histories([s][..0], parse) == Ok([]);
    assert HistoryOf(s, parse) == Ok(HistoryOfFixed(s, parse));
    assert Histories([s], parse) == Ok([] + [HistoryOfFixed(s, parse)]);
    var ds := Dates(ActivityItems(s, AnalyticsLimit), parse);
    assert forall k :: 0 <= k < |ds| ==> ds[k].aware by {
      forall k | 0 <= k < |ds| ensures ds[k].aware {
        assert ds[k] in ds;
      }
    }
    OffsetDatesBreakAnalyticsAsWritten(s, now, parse);
  }

  /** `get_teacher_complete_dashboard` step by step, as written. */
  method GetTeacherCompleteDashboard(teacherId: string, classId: Option<string>, students: seq<Student>, now: int,
                                     parse: Parser, rank: Value -> nat, reply: Option<Result<string, string>>)
    returns (r: DashboardReply)
    ensures r == DashboardOf(teacherId, classId, students, now, parse, rank, reply)
  {
    var histories := CollectHistories(students, parse);
    if histories.Err? {
      return Failed(histories.error, teacherId, now);
    }
    var analytics := GenerateClassAnalytics(students, now, parse);
    if analytics.Err? {
      return Failed(analytics.error, teacherId, now);
    }
    var recent := GetRecentClassActivities(students, rank, RecentLimit);
    if recent.Err? {
      return Failed(recent.error, teacherId, now);
    }
    var summary := GeneratePerformanceSummary(students);
    if summary.Err? {
      return Failed(summary.error, teacherId, now);
    }
    var recs: seq<Recommendation>;
    if reply.Some? && reply.value.Ok? {
      recs := ParseRecommendations(reply.value.value);
    } else {
      recs := FallbackRecommendations(analytics.value, summary.value);
    }
    assert recs == TeacherRecommendations(reply, analytics.value, summary.value);
    r := Complete(Dashboard(teacherId, classId, now, |students|, histories.value, analytics.value, recent.value, summary.value, recs));
  }

  /** The loop of `get_teacher_complete_dashboard` over the students, which stops at the first history that raises. */
  method CollectHistories(students: seq<Student>, parse: Parser) returns (r: Result<seq<StudentHistory>, string>)
    ensures r == Histories(students, parse)
  {
    var histories: seq<StudentHistory> := [];
    for i := 0 to |students|
      invariant Histories(students[..i], parse) == Ok(histories)
    {
      assert students[..i + 1][..i] == students[..i] && students[..i + 1][i] == students[i];
      var h := HistoryOf(students[i], parse);
      if h.Err? {
        HistoryErrorPersists(students, i + 1, parse);
        return Err(h.error);
      }
      histories := histories + [h.value];
    }
    assert students[..|students|] == students;
    r := Ok(histories);
  }
}
