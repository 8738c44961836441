/**
 * The planning DAO (dao/planning_dao.py): saving a lesson plan, the
 * per-user planning usage counters and the planning analytics over a
 * user's lesson plans. The lesson_plans and user_planning_history
 * collections are maps from document id to record; whether a write goes
 * through, fresh ids and the clock are parameters.
 */
module PlanningDao {
  import opened Wrappers
  import opened Values
  import AssessmentDao
  import UsageStats

  /** `total_plans_created`, `last_plan_created`, `total_{plan_type}_created`, `last_{plan_type}_created`. */
  const Planning := UsageStats.Counters("total_plans_created", "last_plan_created", "created")

  lemma PlanningIsSound()
    ensures UsageStats.Sound(Planning)
  {
    assert Planning.total[0] == 't' && Planning.last[0] == 'l';
  }

  /** The per-type counter of the type "plans" is the overall counter. */
  lemma PlansCounterIsTotal()
    ensures UsageStats.TypeKey(Planning, "plans") == Planning.total
  {
  }

  /**
   * A planning usage update counts one more plan and one more plan of this
   * type, and starts a first document with the user id.
   */
  lemma PlanningUsageCounts(existing: Option<Record>, userId: string, planType: string, now: string)
    requires UsageStats.UsageUpdate(existing, userId, Planning, planType, now).Some?
    ensures var doc := AssessmentDao.Merged(existing, UsageStats.UsageUpdate(existing, userId, Planning, planType, now).value);
      && doc[Planning.total] == Int(UsageStats.Before(existing, Planning.total) + 1)
      && doc[UsageStats.TypeKey(Planning, planType)] == Int(UsageStats.Before(existing, UsageStats.TypeKey(Planning, planType)) + 1)
      && (existing.None? ==> doc["user_id"] == Str(userId))
  {
    PlanningIsSound();
    UsageStats.UsageUpdateCounts(existing, userId, Planning, planType, now);
  }

  /** The counter of every other plan type (other than "plans" itself, which is the overall counter) is left as it was. */
  lemma OtherPlanTypesUntouched(existing: Record, userId: string, planType: string, other: string, now: string)
    requires UsageStats.UsageUpdate(Some(existing), userId, Planning, planType, now).Some?
    requires other != planType && other != "plans" && UsageStats.TypeKey(Planning, other) in existing
    ensures AssessmentDao.Merged(Some(existing), UsageStats.UsageUpdate(Some(existing), userId, Planning, planType, now).value)
      [UsageStats.TypeKey(Planning, other)] == existing[UsageStats.TypeKey(Planning, other)]
  {
    PlanningIsSound();
    if UsageStats.TypeKey(Planning, other) == Planning.total {
      PlansCounterIsTotal();
      UsageStats.TypeKeyInjective(Planning, other, "plans");
    }
    UsageStats.OtherKindsUntouched(existing, userId, Planning, planType, other, now);
  }

  // ---------------------------------------------------------------- analytics

  /** The first item a `set.update` cannot take, if any. */
  function FirstUnhashable(items: seq<Value>): (r: Option<Value>)
    ensures r.None? <==> forall i :: 0 <= i < |items| ==> Hashable(items[i])
    ensures r.Some? ==> r.value in items && !Hashable(r.value)
  {
    if items == [] then None
    else if !Hashable(items[0]) then Some(items[0])
    else FirstUnhashable(items[1..])
  }

  /** `v` is one of the grade levels a plan names: a member of its list of grades, or its single grade. */
  predicate GradeOf(doc: Record, v: Value)
  {
    "grades" in doc && (if doc["grades"].List? then v in doc["grades"].items else v == doc["grades"])
  }

  /** Every value this plan adds to the two sets can be put in a set. */
  predicate HashableFields(doc: Record)
  {
    && ("subject" in doc ==> Hashable(doc["subject"]))
    && ("grades" in doc ==> if doc["grades"].List? then FirstUnhashable(doc["grades"].items).None? else Hashable(doc["grades"]))
  }

  /** The subjects and grade levels collected so far. */
  datatype Taught = Taught(subjects: set<Value>, grades: set<Value>)

  /**
   * One plan of the analytics loop: its subject joins the subjects, and its
   * grades (every member of a list, or the single value) join the grade
   * levels; an unhashable value raises.
   */
  function CollectStep(t: Taught, doc: Record): (r: Result<Taught, string>)
    ensures r.Ok? <==> HashableFields(doc)
    ensures r.Ok? ==> forall v :: v in r.value.subjects <==> v in t.subjects || ("subject" in doc && v == doc["subject"])
    ensures r.Ok? ==> forall v :: v in r.value.grades <==> v in t.grades || GradeOf(doc, v)
    ensures r.Ok? ==> |r.value.subjects| <= |t.subjects| + 1
  {
    var subjects :=
      if "subject" !in doc then Ok(t.subjects)
      else if Hashable(doc["subject"]) then Ok(t.subjects + {doc["subject"]})
      else Err(UnhashableError(doc["subject"]));
    var grades :=
      if "grades" !in doc then Ok(t.grades)
      else if doc["grades"].List? then
        (match FirstUnhashable(doc["grades"].items)
         case None => Ok(t.grades + set g | g in doc["grades"].items)
         case Some(bad) => Err(UnhashableError(bad)))
      else if Hashable(doc["grades"]) then Ok(t.grades + {doc["grades"]})
      else Err(UnhashableError(doc["grades"]));
    if subjects.Err? then Err(subjects.error)
    else if grades.Err? then Err(grades.error)
    else Ok(Taught(subjects.value, grades.value))
  }

  /** The analytics loop over the plans the query found, in order; the first unhashable value raises. */
  function Collect(docs: seq<Record>): (r: Result<Taught, string>)
  {
    if docs == [] then Ok(Taught({}, {}))
    else
      var rest := Collect(docs[..|docs| - 1]);
      if rest.Err? then rest else CollectStep(rest.value, docs[|docs| - 1])
  }

  /** The loop goes through exactly when every plan's subject and grades can be put in a set. */
  lemma {:induction false} CollectSucceeds(docs: seq<Record>)
    ensures Collect(docs).Ok? <==> forall i :: 0 <= i < |docs| ==> HashableFields(docs[i])
  {
    if docs != [] {
      var init := docs[..|docs| - 1];
      assert forall i :: 0 <= i < |init| ==> init[i] == docs[i];
      CollectSucceeds(init);
    }
  }

  /** The subjects taught are exactly the stored subjects of the plans. */
  lemma {:induction false} CollectedSubjectsAreStored(docs: seq<Record>)
    requires Collect(docs).Ok?
    ensures forall v :: v in Collect(docs).value.subjects <==>
      (exists i :: 0 <= i < |docs| && "subject" in docs[i] && docs[i]["subject"] == v)
  {
    if docs != [] {
      var init := docs[..|docs| - 1];
      assert forall i :: 0 <= i < |init| ==> init[i] == docs[i];
      CollectedSubjectsAreStored(init);
      var last := |docs| - 1;
      forall v
        ensures v in Collect(docs).value.subjects <==>
          (exists i :: 0 <= i < |docs| && "subject" in docs[i] && docs[i]["subject"] == v)
      {
        if "subject" in docs[last] && docs[last]["subject"] == v {
          assert 0 <= last < |docs|;
        }
      }
    }
  }

  /** The grade levels are exactly the grades the plans name. */
  lemma {:induction false} CollectedGradesAreStored(docs: seq<Record>)
    requires Collect(docs).Ok?
    ensures forall v :: v in Collect(docs).value.grades <==> (exists i :: 0 <= i < |docs| && GradeOf(docs[i], v))
  {
    if docs != [] {
      var init := docs[..|docs| - 1];
      assert forall i :: 0 <= i < |init| ==> init[i] == docs[i];
      CollectedGradesAreStored(init);
      var last := |docs| - 1;
      forall v
        ensures v in Collect(docs).value.grades <==> (exists i :: 0 <= i < |docs| && GradeOf(docs[i], v))
      {
        if GradeOf(docs[last], v) {
          assert 0 <= last < |docs|;
        }
      }
    }
  }

  /** There are never more distinct subjects than plans. */
  lemma {:induction false} SubjectsAtMostPlans(docs: seq<Record>)
    requires Collect(docs).Ok?
    ensures |Collect(docs).value.subjects| <= |docs|
  {
    if docs != [] {
      SubjectsAtMostPlans(docs[..|docs| - 1]);
    }
  }

  /** `get_planning_analytics`: the report, or the error record when the loop raised. */
  datatype PlanningAnalytics =
    | Analytics(userId: string, period: string, startDate: string, endDate: string,
                totalLessonPlans: nat, subjectsTaught: set<Value>, gradeLevelsTaught: set<Value>)
    | Failed(userId: string, period: string, error: string)
  {
    /** `total_lesson_plans`, which the error record reports as 0. */
    function Total(): nat
    {
      if Analytics? then totalLessonPlans else 0
    }

    function UniqueSubjects(): nat
      requires Analytics?
    {
      |subjectsTaught|
    }

    function UniqueGradeLevels(): nat
      requires Analytics?
    {
      |gradeLevelsTaught|
    }
  }

  /** The analytics of the plans the query found. */
  function PlanningAnalyticsOf(userId: string, days: int, start: string, end: string, docs: seq<Record>): (r: PlanningAnalytics)
  {
    match Collect(docs)
    case Ok(t) => Analytics(userId, AssessmentDao.Period(days), start, end, |docs|, t.subjects, t.grades)
    case Err(e) => Failed(userId, AssessmentDao.Period(days), e)
  }

  /**
   * The analytics count every plan, report as subjects taught exactly the
   * distinct stored subjects (never more than there are plans) and as grade
   * levels exactly the grades named; a plan with an unhashable subject or
   * grade turns the report into the error record with total 0.
   */
  lemma AnalyticsReportStoredValues(userId: string, days: int, start: string, end: string, docs: seq<Record>)
    ensures var r := PlanningAnalyticsOf(userId, days, start, end, docs);
      && (r.Analytics? <==> forall i :: 0 <= i < |docs| ==> HashableFields(docs[i]))
      && (r.Analytics? ==> r.Total() == |docs| && r.UniqueSubjects() <= r.Total())
      && (r.Analytics? ==> forall v :: v in r.subjectsTaught <==>
            (exists i :: 0 <= i < |docs| && "subject" in docs[i] && docs[i]["subject"] == v))
      && (r.Analytics? ==> forall v :: v in r.gradeLevelsTaught <==> (exists i :: 0 <= i < |docs| && GradeOf(docs[i], v)))
      && (r.Failed? ==> r.Total() == 0)
  {
    CollectSucceeds(docs);
    if Collect(docs).Ok? {
      CollectedSubjectsAreStored(docs);
      CollectedGradesAreStored(docs);
      SubjectsAtMostPlans(docs);
    }
  }

  /** One more plan extends the loop's collection by one step. */
  lemma CollectPrefix(docs: seq<Record>, i: nat)
    requires i < |docs|
    ensures Collect(docs[..i + 1]) == if Collect(docs[..i]).Err? then Collect(docs[..i]) else CollectStep(Collect(docs[..i]).value, docs[i])
  {
    assert docs[..i + 1][..i] == docs[..i];
  }

  /** A failure at some plan is the failure of every longer run. */
  lemma {:induction false} CollectErrorPersists(docs: seq<Record>, i: nat)
    requires i <= |docs| && Collect(docs[..i]).Err?
    ensures Collect(docs) == Collect(docs[..i])
    decreases |docs| - i
  {
    if i == |docs| {
      assert docs[..i] == docs;
    } else {
      CollectPrefix(docs, i);
      CollectErrorPersists(docs, i + 1);
    }
  }

  /** The analytics loop: each plan adds its subject and its grades to the two sets. */
  method GetPlanningAnalytics(userId: string, days: int, start: string, end: string, docs: seq<Record>) returns (r: PlanningAnalytics)
    ensures r == PlanningAnalyticsOf(userId, days, start, end, docs)
  {
    var taught := Taught({}, {});
    var i := 0;
    while i < |docs|
      invariant 0 <= i <= |docs|
      invariant Collect(docs[..i]) == Ok(taught)
    {
      CollectPrefix(docs, i);
      var next := CollectStep(taught, docs[i]);
      if next.Err? {
        CollectErrorPersists(docs, i + 1);
        return Failed(userId, AssessmentDao.Period(days), next.error);
      }
      taught := next.value;
      i := i + 1;
    }
    assert docs[..|docs|] == docs;
    r := Analytics(userId, AssessmentDao.Period(days), start, end, |docs|, taught.subjects, taught.grades);
  }

  // ---------------------------------------------------------------- the store

  /** The lesson-plan and planning-history collections. */
  class PlanningStore {
    var plans: map<string, Record>
    var history: map<string, Record>

    constructor ()
      ensures plans == map[] && history == map[]
    {
      plans := map[];
      history := map[];
    }

    /**
     * `save_lesson_plan`: the caller's dict gets the user id and the
     * timestamps (it is returned as `stamped`) and is stored under a fresh
     * id, which is returned; `None` when the write fails.
     */
    method SaveLessonPlan(userId: string, data: Record, id: string, now: string, writeOk: bool)
      returns (r: Option<string>, stamped: Record)
      requires id !in plans
      modifies this
      ensures stamped == data + map["user_id" := Str(userId), "created_at" := DateTime(now), "updated_at" := DateTime(now)]
      ensures r.Some? <==> writeOk
      ensures writeOk ==> r.value == id && plans == old(plans)[id := stamped]
      ensures !writeOk ==> plans == old(plans)
      ensures history == old(history)
    {
      stamped := data + map["user_id" := Str(userId), "created_at" := DateTime(now), "updated_at" := DateTime(now)];
      if !writeOk {
        return None, stamped;
      }
      plans := plans[id := stamped];
      r := Some(id);
    }

    /**
     * `update_planning_usage_stats`: advances the user's history document
     * (or creates it) by a merge write; `false`, with nothing written, when
     * the write fails or a stored counter is not an integer.
     */
    method UpdatePlanningUsageStats(userId: string, planType: string, now: string, writeOk: bool) returns (ok: bool)
      modifies this
      ensures ok <==> writeOk && UsageStats.UsageUpdate(old(AssessmentDao.Lookup(history, userId)), userId, Planning, planType, now).Some?
      ensures ok ==> history == old(history)[userId := AssessmentDao.Merged(old(AssessmentDao.Lookup(history, userId)),
        UsageStats.UsageUpdate(old(AssessmentDao.Lookup(history, userId)), userId, Planning, planType, now).value)]
      ensures !ok ==> history == old(history)
      ensures plans == old(plans)
    {
      var existing := AssessmentDao.Lookup(history, userId);
      var written := UsageStats.UsageUpdate(existing, userId, Planning, planType, now);
      if !writeOk || written.None? {
        return false;
      }
      history := history[userId := AssessmentDao.Merged(existing, written.value)];
      ok := true;
    }
  }
}
