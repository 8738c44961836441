/**
 * The assessment DAO (dao/assessment_dao.py): saving an assessment, the
 * read-modify-write of a user's performance statistics, and the analytics
 * over a user's assessments. The two Firestore collections are maps from
 * document id to record; whether a write goes through, fresh ids and the
 * clock are parameters.
 */
module AssessmentDao {
  import opened Wrappers
  import opened Text
  import opened Values

  // ---------------------------------------------------------------- performance statistics

  /** A stored counter, 0 when missing; `None` when it is not an integer. */
  function Counter(doc: Record, key: string): (r: Option<int>)
    ensures key !in doc ==> r == Some(0)
    ensures key in doc && doc[key].Int? ==> r == Some(doc[key].i)
  {
    match Get(doc, key, Int(0))
    case Int(i) => Some(i)
    case _ => None
  }

  /** `(correct / answered) * 100 if answered > 0 else 0`, without the rounding to two places. */
  function Percent(correct: int, answered: int): (v: Value)
    ensures answered <= 0 ==> v == Int(0)
    ensures answered > 0 ==> v == Real(100.0 * (correct as real) / (answered as real))
  {
    if answered > 0 then Real(100.0 * (correct as real) / (answered as real)) else Int(0)
  }

  /** A percentage of `correct` out of `answered` lies between 0 and 100 when `correct` does between 0 and `answered`. */
  lemma PercentBounds(correct: int, answered: int)
    requires 0 <= correct <= answered
    ensures Number(Percent(correct, answered)).Some?
    ensures 0.0 <= Number(Percent(correct, answered)).value <= 100.0
  {
    if answered > 0 {
      var c := correct as real;
      var a := answered as real;
      assert c / a <= 1.0 by {
        assert c <= a;
      }
      assert 100.0 * c / a == 100.0 * (c / a);
    }
  }

  /** Every field a statistics update may write. */
  const StatsFields: set<string> := {"user_id", "created_at", "updated_at", "last_assessment_date",
    "total_assessments", "total_correct", "total_answered", "average_score", "last_assessment_score"}

  /**
   * The fields `update_user_performance_stats` writes: the counters of an
   * existing document advanced by this assessment and the average
   * recomputed from them, or, for a first assessment, counters of this
   * assessment alone. `None` when a stored counter is not a number the
   * update can add to.
   */
  function StatsUpdate(existing: Option<Record>, userId: string, correct: int, total: int, now: string): (w: Option<Record>)
    ensures existing.None? ==> w.Some?
    ensures existing.Some? ==> (w.Some? <==>
      Counter(existing.value, "total_assessments").Some? && Counter(existing.value, "total_correct").Some?
      && Counter(existing.value, "total_answered").Some?)
    ensures w.Some? ==> "total_assessments" in w.value && "total_correct" in w.value && "total_answered" in w.value
    ensures w.Some? ==> "average_score" in w.value && "last_assessment_score" in w.value
    ensures w.Some? ==> w.value["last_assessment_score"] == Percent(correct, total)
    ensures w.Some? ==> w.value.Keys <= StatsFields
  {
    if existing.None? then
      Some(map[
        "user_id" := Str(userId),
        "last_assessment_date" := DateTime(now),
        "created_at" := DateTime(now),
        "updated_at" := DateTime(now)]
      + map[
        "total_assessments" := Int(1),
        "total_correct" := Int(correct),
        "total_answered" := Int(total),
        "average_score" := Percent(correct, total),
        "last_assessment_score" := Percent(correct, total)])
    else
      var doc := existing.value;
      var assessments := Counter(doc, "total_assessments");
      var correctSoFar := Counter(doc, "total_correct");
      var answeredSoFar := Counter(doc, "total_answered");
      if assessments.None? || correctSoFar.None? || answeredSoFar.None? then None
      else
        Some(map[
          "last_assessment_date" := DateTime(now),
          "updated_at" := DateTime(now)]
        + map[
          "total_assessments" := Int(assessments.value + 1),
          "total_correct" := Int(correctSoFar.value + correct),
          "total_answered" := Int(answeredSoFar.value + total),
          "average_score" := Percent(correctSoFar.value + correct, answeredSoFar.value + total),
          "last_assessment_score" := Percent(correct, total)])
  }

  /** The document after a merge write: the written fields replace, every other stored field stays. */
  function Merged(existing: Option<Record>, written: Record): (doc: Record)
    ensures doc.Keys == written.Keys + (if existing.Some? then existing.value.Keys else {})
    ensures forall k :: k in written ==> doc[k] == written[k]
    ensures existing.Some? ==> forall k :: k in existing.value && k !in written ==> doc[k] == existing.value[k]
  {
    if existing.Some? then existing.value + written else written
  }

  /** The average a performance document reports is the percentage of its own totals. */
  predicate ConsistentStats(doc: Record)
  {
    && "total_correct" in doc && doc["total_correct"].Int?
    && "total_answered" in doc && doc["total_answered"].Int?
    && "average_score" in doc
    && doc["average_score"] == Percent(doc["total_correct"].i, doc["total_answered"].i)
  }

  /** Totals that make sense: no more correct answers than answers, none negative. */
  predicate SaneStats(doc: Record)
  {
    && Counter(doc, "total_correct").Some? && Counter(doc, "total_answered").Some?
    && 0 <= Counter(doc, "total_correct").value <= Counter(doc, "total_answered").value
  }

  /** The fields an update writes already agree with themselves. */
  lemma WrittenStatsAreConsistent(existing: Option<Record>, userId: string, correct: int, total: int, now: string)
    requires StatsUpdate(existing, userId, correct, total, now).Some?
    ensures var w := StatsUpdate(existing, userId, correct, total, now).value;
      && ConsistentStats(w)
      && w["total_assessments"] == Int(if existing.None? then 1 else Counter(existing.value, "total_assessments").value + 1)
      && w["total_correct"] == Int(if existing.None? then correct else Counter(existing.value, "total_correct").value + correct)
      && w["total_answered"] == Int(if existing.None? then total else Counter(existing.value, "total_answered").value + total)
  {
  }

  /** A merge keeps the written totals and average together, whatever else the document held. */
  lemma MergeKeepsConsistency(existing: Option<Record>, w: Record)
    requires ConsistentStats(w)
    ensures ConsistentStats(Merged(existing, w))
  {
    var doc := Merged(existing, w);
    assert doc["total_correct"] == w["total_correct"];
    assert doc["total_answered"] == w["total_answered"];
    assert doc["average_score"] == w["average_score"];
  }

  /**
   * Whatever the stored document held, a successful update leaves it with
   * an average that agrees with its totals, and the totals advance by this
   * assessment: one more assessment, its correct answers and its questions.
   */
  lemma UpdatedStatsAreConsistent(existing: Option<Record>, userId: string, correct: int, total: int, now: string)
    requires StatsUpdate(existing, userId, correct, total, now).Some?
    ensures var doc := Merged(existing, StatsUpdate(existing, userId, correct, total, now).value);
      && ConsistentStats(doc)
      && doc["total_assessments"] == Int(if existing.None? then 1 else Counter(existing.value, "total_assessments").value + 1)
      && doc["total_correct"] == Int(if existing.None? then correct else Counter(existing.value, "total_correct").value + correct)
      && doc["total_answered"] == Int(if existing.None? then total else Counter(existing.value, "total_answered").value + total)
  {
    var w := StatsUpdate(existing, userId, correct, total, now).value;
    WrittenStatsAreConsistent(existing, userId, correct, total, now);
    MergeKeepsConsistency(existing, w);
    var doc := Merged(existing, w);
    assert doc["total_assessments"] == w["total_assessments"];
  }

  /** The first assessment's average is its own score. */
  lemma FirstStatsAverageIsLastScore(userId: string, correct: int, total: int, now: string)
    ensures var doc := StatsUpdate(None, userId, correct, total, now).value;
      && doc["average_score"] == doc["last_assessment_score"]
      && doc["total_assessments"] == Int(1)
      && doc["user_id"] == Str(userId)
  {
    var doc := StatsUpdate(None, userId, correct, total, now).value;
    assert "user_id" in doc && doc["user_id"] == Str(userId);
  }

  /**
   * Sane totals stay sane, and the average stays between 0 and 100, when
   * an assessment reports between 0 and all of its questions correct.
   */
  lemma UpdateKeepsStatsSane(existing: Option<Record>, userId: string, correct: int, total: int, now: string)
    requires existing.Some? ==> SaneStats(existing.value) && Counter(existing.value, "total_assessments").Some?
    requires 0 <= correct <= total
    ensures StatsUpdate(existing, userId, correct, total, now).Some?
    ensures var doc := Merged(existing, StatsUpdate(existing, userId, correct, total, now).value);
      && SaneStats(doc)
      && Number(doc["average_score"]).Some? && 0.0 <= Number(doc["average_score"]).value <= 100.0
  {
    UpdatedStatsAreConsistent(existing, userId, correct, total, now);
    var doc := Merged(existing, StatsUpdate(existing, userId, correct, total, now).value);
    PercentBounds(doc["total_correct"].i, doc["total_answered"].i);
  }

  // ---------------------------------------------------------------- analytics

  /** A field as a number for `+=`: absent fields add nothing, and a value that is not a number makes the sum raise. */
  function FieldNumber(doc: Record, key: string): (r: Option<real>)
    ensures key !in doc ==> r == Some(0.0)
  {
    if key in doc then Number(doc[key]) else Some(0.0)
  }

  /** The sum of a field over the documents, in order; `None` when some value is not a number. */
  function FieldSum(docs: seq<Record>, key: string): (r: Option<real>)
    ensures r.Some? <==> forall i :: 0 <= i < |docs| ==> FieldNumber(docs[i], key).Some?
  {
    if docs == [] then Some(0.0)
    else
      var init := docs[..|docs| - 1];
      assert forall i :: 0 <= i < |init| ==> init[i] == docs[i];
      var last := FieldNumber(docs[|docs| - 1], key);
      var rest := FieldSum(init, key);
      if rest.Some? && last.Some? then Some(rest.value + last.value) else None
  }

  /** The documents as a list value. */
  function Objects(docs: seq<Record>): (v: Value)
    ensures v.List? && |v.items| == |docs|
  {
    List(seq(|docs|, i requires 0 <= i < |docs| => Obj(docs[i])))
  }

  /** `"last_{days}_days"`. */
  function Period(days: int): string
  {
    "last_" + IntToString(days) + "_days"
  }

  /** The analytics record: the documents, their number, the mean score over all of them (0 with none) and the questions answered. */
  function AnalyticsRecord(userId: string, days: int, start: string, end: string, docs: seq<Record>, scoreTotal: real, questions: real): (r: Record)
    ensures "total_assessments" in r && r["total_assessments"] == Int(|docs|)
    ensures "average_score" in r
    ensures docs == [] ==> r["average_score"] == Int(0)
    ensures docs != [] ==> r["average_score"] == Real(scoreTotal / (|docs| as real))
  {
    map[
      "user_id" := Str(userId),
      "period" := Str(Period(days)),
      "start_date" := Str(start),
      "end_date" := Str(end),
      "total_questions_answered" := Real(questions),
      "assessments" := Objects(docs)]
    + map[
      "total_assessments" := Int(|docs|),
      "average_score" := if docs == [] then Int(0) else Real(scoreTotal / (|docs| as real))]
  }

  /** The record an analytics failure yields. */
  function ErrorAnalytics(userId: string, days: int, message: string): (r: Record)
    ensures "total_assessments" in r && r["total_assessments"] == Int(0)
    ensures "error" in r
  {
    map[
      "user_id" := Str(userId),
      "period" := Str(Period(days)),
      "average_score" := Real(0.0),
      "error" := Str(message),
      "total_assessments" := Int(0)]
  }

  const SumError := "unsupported operand type(s) for +="

  /** `get_user_analytics` over the assessments its query found. */
  function UserAnalytics(userId: string, days: int, start: string, end: string, docs: seq<Record>): (r: Record)
    ensures "total_assessments" in r && "average_score" in r
    ensures FieldSum(docs, "score").None? || FieldSum(docs, "total_questions").None? ==>
      "error" in r && r["error"] == Str(SumError) && r["total_assessments"] == Int(0)
    ensures FieldSum(docs, "score").Some? && FieldSum(docs, "total_questions").Some? ==>
      r["total_assessments"] == Int(|docs|)
      && (docs != [] ==> r["average_score"] == Real(FieldSum(docs, "score").value / (|docs| as real)))
  {
    var scores := FieldSum(docs, "score");
    var questions := FieldSum(docs, "total_questions");
    if scores.Some? && questions.Some? then AnalyticsRecord(userId, days, start, end, docs, scores.value, questions.value)
    else ErrorAnalytics(userId, days, SumError)
  }

  /** One more document adds its field to the running sum. */
  lemma FieldSumStep(docs: seq<Record>, i: nat, key: string)
    requires i < |docs|
    ensures FieldSum(docs[..i + 1], key) ==
      (if FieldSum(docs[..i], key).Some? && FieldNumber(docs[i], key).Some?
       then Some(FieldSum(docs[..i], key).value + FieldNumber(docs[i], key).value) else None)
  {
    assert docs[..i + 1][..i] == docs[..i];
  }

  /** A field that is not a number anywhere makes the whole sum fail. */
  lemma FieldSumFails(docs: seq<Record>, i: nat, key: string)
    requires i < |docs| && FieldNumber(docs[i], key).None?
    ensures FieldSum(docs, key).None?
  {
  }

  /** The accumulating loop of `get_user_analytics`. */
  method GetUserAnalytics(userId: string, days: int, start: string, end: string, docs: seq<Record>) returns (r: Record)
    ensures r == UserAnalytics(userId, days, start, end, docs)
  {
    var totalScore := 0.0;
    var totalQuestions := 0.0;
    var i := 0;
    while i < |docs|
      invariant 0 <= i <= |docs|
      invariant FieldSum(docs[..i], "score") == Some(totalScore)
      invariant FieldSum(docs[..i], "total_questions") == Some(totalQuestions)
    {
      var score := FieldNumber(docs[i], "score");
      var questions := FieldNumber(docs[i], "total_questions");
      if score.None? || questions.None? {
        if score.None? {
          FieldSumFails(docs, i, "score");
        } else {
          FieldSumFails(docs, i, "total_questions");
        }
        return ErrorAnalytics(userId, days, SumError);
      }
      FieldSumStep(docs, i, "score");
      FieldSumStep(docs, i, "total_questions");
      totalScore := totalScore + score.value;
      totalQuestions := totalQuestions + questions.value;
      i := i + 1;
    }
    assert docs[..|docs|] == docs;
    r := AnalyticsRecord(userId, days, start, end, docs, totalScore, totalQuestions);
  }

  /** Scores between 0 and 100 sum to between 0 and 100 per document (absent scores count as 0). */
  lemma {:induction false} ScoreSumBounds(docs: seq<Record>)
    requires forall i :: 0 <= i < |docs| ==> FieldNumber(docs[i], "score").Some? && 0.0 <= FieldNumber(docs[i], "score").value <= 100.0
    ensures FieldSum(docs, "score").Some?
    ensures 0.0 <= FieldSum(docs, "score").value <= 100.0 * (|docs| as real)
  {
    if docs != [] {
      var init := docs[..|docs| - 1];
      assert forall i :: 0 <= i < |init| ==> init[i] == docs[i];
      ScoreSumBounds(init);
    }
  }

  /** A mean of scores totalling at most 100 per document is at most 100. */
  lemma MeanBounds(total: real, n: nat)
    requires n > 0 && 0.0 <= total <= 100.0 * (n as real)
    ensures 0.0 <= total / (n as real) <= 100.0
  {
    var m := n as real;
    assert total / m * m == total;
  }

  /** The analytics record of scores totalling at most 100 per document reports an average between 0 and 100. */
  lemma RecordAverageIsAScore(userId: string, days: int, start: string, end: string, docs: seq<Record>, scoreTotal: real, questions: real)
    requires 0.0 <= scoreTotal <= 100.0 * (|docs| as real)
    ensures var r := AnalyticsRecord(userId, days, start, end, docs, scoreTotal, questions);
      Number(r["average_score"]).Some? && 0.0 <= Number(r["average_score"]).value <= 100.0
  {
    if docs != [] {
      MeanBounds(scoreTotal, |docs|);
    }
  }

  /** When every score lies between 0 and 100, so does the reported average. */
  lemma AnalyticsAverageIsAScore(userId: string, days: int, start: string, end: string, docs: seq<Record>)
    requires forall i :: 0 <= i < |docs| ==> FieldNumber(docs[i], "score").Some? && 0.0 <= FieldNumber(docs[i], "score").value <= 100.0
    requires FieldSum(docs, "total_questions").Some?
    ensures var r := UserAnalytics(userId, days, start, end, docs);
      && r["total_assessments"] == Int(|docs|)
      && Number(r["average_score"]).Some? && 0.0 <= Number(r["average_score"]).value <= 100.0
  {
    ScoreSumBounds(docs);
    var s := FieldSum(docs, "score").value;
    var q := FieldSum(docs, "total_questions").value;
    RecordAverageIsAScore(userId, days, start, end, docs, s, q);
  }

  // ---------------------------------------------------------------- the store

  function Lookup(m: map<string, Record>, id: string): (r: Option<Record>)
    ensures r.Some? <==> id in m
    ensures r.Some? ==> r.value == m[id]
  {
    if id in m then Some(m[id]) else None
  }

  /** The user-performance and assessment collections. */
  class AssessmentStore {
    var performance: map<string, Record>
    var assessments: map<string, Record>

    constructor ()
      ensures performance == map[] && assessments == map[]
    {
      performance := map[];
      assessments := map[];
    }

    /** `get_user_performance`: the user's performance document, if there is one. */
    function GetUserPerformance(userId: string): (r: Option<Record>)
      reads this
      ensures r.Some? <==> userId in performance
    {
      Lookup(performance, userId)
    }

    /**
     * `update_user_performance_stats`: advances the user's document (or
     * creates it) by a merge write; `false`, with nothing written, when the
     * write fails or a stored counter is not an integer.
     */
    method UpdateUserPerformanceStats(userId: string, correct: int, total: int, now: string, writeOk: bool) returns (ok: bool)
      modifies this
      ensures ok <==> writeOk && StatsUpdate(old(Lookup(performance, userId)), userId, correct, total, now).Some?
      ensures ok ==> performance == old(performance)[userId :=
        Merged(old(Lookup(performance, userId)), StatsUpdate(old(Lookup(performance, userId)), userId, correct, total, now).value)]
      ensures !ok ==> performance == old(performance)
      ensures assessments == old(assessments)
    {
      var existing := Lookup(performance, userId);
      var written := StatsUpdate(existing, userId, correct, total, now);
      if !writeOk || written.None? {
        return false;
      }
      performance := performance[userId := Merged(existing, written.value)];
      ok := true;
    }

    /**
     * `save_assessment`: the caller's dict gets the user id and the
     * timestamps (it is returned as `stamped`), and the stamped dict is
     * stored under a fresh id, which is returned; `None` when the write
     * fails.
     */
    method SaveAssessment(userId: string, data: Record, id: string, now: string, writeOk: bool)
      returns (r: Option<string>, stamped: Record)
      requires id !in assessments
      modifies this
      ensures stamped == data + map["user_id" := Str(userId), "created_at" := DateTime(now), "updated_at" := DateTime(now)]
      ensures r.Some? <==> writeOk
      ensures writeOk ==> r.value == id && assessments == old(assessments)[id := stamped]
      ensures !writeOk ==> assessments == old(assessments)
      ensures performance == old(performance)
    {
      stamped := data + map["user_id" := Str(userId), "created_at" := DateTime(now), "updated_at" := DateTime(now)];
      if !writeOk {
        return None, stamped;
      }
      assessments := assessments[id := stamped];
      r := Some(id);
    }
  }
}
