/**
 * The assessment service (services/assessment_service.py): adaptive quiz
 * generation, open-ended scoring, the performance update and the
 * difficulty recommendation. The language model's reply and `json.loads`
 * are parameters; the stores are those of the assessment DAO.
 */
module AssessmentService {
  import opened Wrappers
  import opened Text
  import opened Values
  import opened DaoErrorHandler
  import opened AssessmentDao

  // ---------------------------------------------------------------- difficulty

  datatype Difficulty = Easy | Medium | Hard
  {
    /** The word the service returns and writes into the prompt. */
    function Label(): string
    {
      match this
      case Easy => "easy"
      case Medium => "medium"
      case Hard => "hard"
    }

    function Rank(): nat
    {
      match this
      case Easy => 0
      case Medium => 1
      case Hard => 2
    }
  }

  /** Above `high` is hard, below `low` is easy, anything between (bounds included) is medium. */
  function Band(x: real, high: real, low: real): (d: Difficulty)
    requires low <= high
    ensures d == Hard <==> x > high
    ensures d == Easy <==> x < low
  {
    if x > high then Hard else if x < low then Easy else Medium
  }

  /** The message of the `TypeError` a comparison with a value that is not a number raises. */
  function ComparisonError(v: Value, against: string): string
  {
    "'>' not supported between instances of '" + TypeName(v) + "' and '" + against + "'"
  }

  /**
   * `recommend_next_difficulty` on a dict: easy for an empty one; the
   * average score against 80 and 40 when the dict has one; otherwise the
   * legacy correct ratio (0.5 when absent) against 0.8 and 0.4. A value
   * that is not a number cannot be compared and raises.
   */
  function RecommendNextDifficulty(performance: Record): (r: Result<Difficulty, string>)
    ensures performance == map[] ==> r == Ok(Easy)
    ensures performance != map[] && "average_score" in performance ==>
      (r.Ok? <==> Number(performance["average_score"]).Some?)
      && (r.Ok? ==> r.value == Band(Number(performance["average_score"]).value, 80.0, 40.0))
    ensures performance != map[] && "average_score" !in performance && "correct_ratio" !in performance ==> r == Ok(Medium)
    ensures performance != map[] && "average_score" !in performance && "correct_ratio" in performance ==>
      (r.Ok? <==> Number(performance["correct_ratio"]).Some?)
      && (r.Ok? ==> r.value == Band(Number(performance["correct_ratio"]).value, 0.8, 0.4))
  {
    if performance == map[] then Ok(Easy)
    else if "average_score" in performance then
      var score := performance["average_score"];
      match Number(score)
      case None => Err(ComparisonError(score, "int"))
      case Some(x) => Ok(Band(x, 80.0, 40.0))
    else
      var ratio := Get(performance, "correct_ratio", Real(0.5));
      match Number(ratio)
      case None => Err(ComparisonError(ratio, "float"))
      case Some(x) => Ok(Band(x, 0.8, 0.4))
  }

  /**
   * `recommend_next_difficulty` on whatever value it is handed: a falsy
   * value is easy, a dict is judged as above, and any other value raises
   * at the membership test or at `.get`.
   */
  function RecommendFor(performance: Value): (r: Result<Difficulty, string>)
    ensures !Truthy(performance) ==> r == Ok(Easy)
    ensures performance.Obj? ==> r == RecommendNextDifficulty(performance.fields)
    ensures Truthy(performance) && !performance.Obj? ==> r.Err?
  {
    if !Truthy(performance) then Ok(Easy)
    else if performance.Obj? then RecommendNextDifficulty(performance.fields)
    else if performance.Str? || performance.List? then Err("'" + TypeName(performance) + "' object has no attribute 'get'")
    else Err("argument of type '" + TypeName(performance) + "' is not iterable")
  }

  /** A higher average never earns an easier quiz. */
  lemma DifficultyFollowsAverage(p: Record, q: Record)
    requires "average_score" in p && "average_score" in q
    requires Number(p["average_score"]).Some? && Number(q["average_score"]).Some?
    requires Number(p["average_score"]).value <= Number(q["average_score"]).value
    ensures RecommendNextDifficulty(p).Ok? && RecommendNextDifficulty(q).Ok?
    ensures RecommendNextDifficulty(p).value.Rank() <= RecommendNextDifficulty(q).value.Rank()
  {
    assert p != map[] && q != map[];
  }

  /** The thresholds themselves are medium: only strictly above 80 is hard, only strictly below 40 easy. */
  lemma ThresholdsAreMedium()
    ensures RecommendNextDifficulty(map["average_score" := Int(80)]) == Ok(Medium)
    ensures RecommendNextDifficulty(map["average_score" := Int(40)]) == Ok(Medium)
    ensures RecommendNextDifficulty(map["average_score" := Real(80.5)]) == Ok(Hard)
    ensures RecommendNextDifficulty(map["correct_ratio" := Real(0.8)]) == Ok(Medium)
    ensures RecommendNextDifficulty(map["user_id" := Str("u")]) == Ok(Medium)
  {
    var ratio := map["correct_ratio" := Real(0.8)];
    assert "correct_ratio" in ratio && "average_score" !in ratio;
    var other := map["user_id" := Str("u")];
    assert "user_id" in other && "average_score" !in other && "correct_ratio" !in other;
  }

  // ---------------------------------------------------------------- the difficulty of the next quiz

  /** The performance document, or `{}` when there is none. */
  function StoredPerformance(stored: Option<Record>): (p: Record)
    ensures stored.None? ==> p == map[]
  {
    if stored.Some? then stored.value else map[]
  }

  /** What `generate_quiz` hands to the recommendation as written: the document's `"performance"` entry. */
  function QuizPerformanceAsWritten(stored: Option<Record>): (v: Value)
    ensures stored.None? || "performance" !in stored.value ==> v == Obj(map[])
  {
    if stored.Some? && stored.value != map[] then Get(stored.value, "performance", Obj(map[])) else Obj(map[])
  }

  /** The quiz difficulty as written. */
  function QuizDifficultyAsWritten(stored: Option<Record>): (r: Result<Difficulty, string>)
    ensures stored.None? || "performance" !in stored.value ==> r == Ok(Easy)
  {
    RecommendFor(QuizPerformanceAsWritten(stored))
  }

  /**
   * The quiz difficulty judged, as `get_personalized_recommendations`
   * judges it, on the performance document itself.
   */
  function QuizDifficulty(stored: Option<Record>): (r: Result<Difficulty, string>)
    ensures stored.None? ==> r == Ok(Easy)
    ensures stored.Some? ==> r == RecommendNextDifficulty(stored.value)
  {
    RecommendNextDifficulty(StoredPerformance(stored))
  }

  /** Every stored average is a number the recommendation can compare. */
  lemma PercentIsNumber(correct: int, answered: int)
    ensures Number(Percent(correct, answered)).Some?
  {
  }

  /** "performance" is not among the fields a statistics update writes. */
  lemma PerformanceIsNotAStatsField()
    ensures "performance" !in StatsFields
  {
  }

  /** A document the statistics update has written holds no "performance" entry, unless it held one before. */
  lemma UpdatedDocHasNoPerformance(existing: Option<Record>, userId: string, correct: int, total: int, now: string)
    requires existing.Some? ==> "performance" !in existing.value
    requires StatsUpdate(existing, userId, correct, total, now).Some?
    ensures "performance" !in Merged(existing, StatsUpdate(existing, userId, correct, total, now).value)
  {
    PerformanceIsNotAStatsField();
  }

  /** On a consistent statistics document without a "performance" entry, the as-written rule says easy and the corrected one follows the average. */
  lemma StatsDocDifficulty(doc: Record)
    requires ConsistentStats(doc) && "performance" !in doc
    ensures QuizDifficultyAsWritten(Some(doc)) == Ok(Easy)
    ensures Number(doc["average_score"]).Some?
    ensures QuizDifficulty(Some(doc)) == Ok(Band(Number(doc["average_score"]).value, 80.0, 40.0))
  {
    PercentIsNumber(doc["total_correct"].i, doc["total_answered"].i);
  }

  /**
   * Performance documents are only ever written by the statistics update,
   * which never writes a `"performance"` entry: as written, every quiz is
   * easy whatever the user's record, while the corrected rule follows the
   * stored average.
   */
  lemma QuizDifficultyIgnoresStats(existing: Option<Record>, userId: string, correct: int, total: int, now: string)
    requires existing.Some? ==> "performance" !in existing.value
    requires StatsUpdate(existing, userId, correct, total, now).Some?
    ensures var doc := Merged(existing, StatsUpdate(existing, userId, correct, total, now).value);
      && QuizDifficultyAsWritten(Some(doc)) == Ok(Easy)
      && Number(doc["average_score"]).Some?
      && QuizDifficulty(Some(doc)) == Ok(Band(Number(doc["average_score"]).value, 80.0, 40.0))
  {
    var doc := Merged(existing, StatsUpdate(existing, userId, correct, total, now).value);
    UpdatedStatsAreConsistent(existing, userId, correct, total, now);
    UpdatedDocHasNoPerformance(existing, userId, correct, total, now);
    StatsDocDifficulty(doc);
  }

  /** A first quiz answered perfectly: as written the next quiz is still easy, corrected it is hard. */
  lemma PerfectScoreStillEasyAsWritten(userId: string, now: string)
    ensures var doc := Merged(None, StatsUpdate(None, userId, 10, 10, now).value);
      && QuizDifficultyAsWritten(Some(doc)) == Ok(Easy)
      && QuizDifficulty(Some(doc)) == Ok(Hard)
  {
    QuizDifficultyIgnoresStats(None, userId, 10, 10, now);
    var doc := Merged(None, StatsUpdate(None, userId, 10, 10, now).value);
    UpdatedStatsAreConsistent(None, userId, 10, 10, now);
    assert doc["average_score"] == Real(100.0 * 10.0 / 10.0);
  }

  // ---------------------------------------------------------------- generate_quiz

  /** The assessment document `generate_quiz` saves. */
  function QuizRecord(grade: int, topic: string, language: string, difficulty: Difficulty, quiz: Value): (r: Record)
    ensures "difficulty" in r && r["difficulty"] == Str(difficulty.Label())
    ensures "quiz" in r && r["quiz"] == quiz
    ensures "status" in r && r["status"] == Str("generated")
  {
    map[
      "grade" := Int(grade),
      "topic" := Str(topic),
      "language" := Str(language)]
    + map[
      "difficulty" := Str(difficulty.Label()),
      "quiz" := quiz,
      "status" := Str("generated")]
  }

  /** Every failure inside `generate_quiz`, as the caller sees it. */
  function QuizError(message: string): string
  {
    HandleServiceDaoErrors<Value>("generate_quiz", Err(OtherException("Error generating quiz: " + message))).error
  }

  /** The `TypeError` of `quiz["assessment_id"] = …` on a quiz that is not a dict. */
  function ItemAssignmentError(quiz: Value): string
  {
    if quiz.List? then "list indices must be integers or slices, not str"
    else "'" + TypeName(quiz) + "' object does not support item assignment"
  }

  /** Whether `generate_quiz` gets as far as writing the assessment, given the difficulty it judged. */
  predicate QuizReachesSave(difficulty: Result<Difficulty, string>, reply: Result<string, string>, decode: string -> Result<Value, string>)
  {
    difficulty.Ok? && reply.Ok? && decode(CleanJsonReply(reply.value)).Ok?
  }

  /** What `generate_quiz` returns, given the difficulty it judged. */
  function QuizOutcomeAt(difficulty: Result<Difficulty, string>, reply: Result<string, string>, decode: string -> Result<Value, string>,
                         id: string, writeOk: bool): (r: Result<Value, string>)
    ensures r.Ok? <==> (QuizReachesSave(difficulty, reply, decode) && writeOk && id != []
                        && decode(CleanJsonReply(reply.value)).value.Obj?)
    ensures r.Ok? ==> r.value == Obj(decode(CleanJsonReply(reply.value)).value.fields["assessment_id" := Str(id)])
  {
    if difficulty.Err? then Err(QuizError(difficulty.error))
    else if reply.Err? then Err(QuizError(reply.error))
    else
      var quiz := decode(CleanJsonReply(reply.value));
      if quiz.Err? then Err(QuizError(quiz.error))
      else
        var saved := EnsureDocumentId(if writeOk then Some(id) else None, "save_assessment");
        if saved.Err? then Err(QuizError(saved.error.Message()))
        else if !quiz.value.Obj? then Err(QuizError(ItemAssignmentError(quiz.value)))
        else Ok(Obj(quiz.value.fields["assessment_id" := Str(id)]))
  }

  /** What `generate_quiz` returns as written: the difficulty is judged on the document's absent `"performance"` entry. */
  function QuizOutcome(stored: Option<Record>, reply: Result<string, string>, decode: string -> Result<Value, string>,
                       id: string, writeOk: bool): (r: Result<Value, string>)
    ensures stored.None? || "performance" !in stored.value ==>
      (r.Ok? <==> reply.Ok? && decode(CleanJsonReply(reply.value)).Ok? && writeOk && id != []
                  && decode(CleanJsonReply(reply.value)).value.Obj?)
    ensures r.Ok? ==>
      reply.Ok? && decode(CleanJsonReply(reply.value)).Ok? && decode(CleanJsonReply(reply.value)).value.Obj?
      && r.value == Obj(decode(CleanJsonReply(reply.value)).value.fields["assessment_id" := Str(id)])
  {
    QuizOutcomeAt(QuizDifficultyAsWritten(stored), reply, decode, id, writeOk)
  }

  /** What `generate_quiz` returns with the difficulty judged on the performance document itself. */
  function QuizOutcomeFixed(stored: Option<Record>, reply: Result<string, string>, decode: string -> Result<Value, string>,
                            id: string, writeOk: bool): (r: Result<Value, string>)
    ensures r.Ok? <==> (QuizReachesSave(QuizDifficulty(stored), reply, decode) && writeOk && id != []
                        && decode(CleanJsonReply(reply.value)).value.Obj?)
    ensures r.Err? && QuizDifficulty(stored).Err? ==> r.error == QuizError(QuizDifficulty(stored).error)
    ensures r.Ok? ==> r.value == Obj(decode(CleanJsonReply(reply.value)).value.fields["assessment_id" := Str(id)])
  {
    QuizOutcomeAt(QuizDifficulty(stored), reply, decode, id, writeOk)
  }

  /** A saved quiz carries the difficulty the user's own record calls for. */
  lemma SavedQuizFollowsRecord(stored: Option<Record>, grade: int, topic: string, language: string, quiz: Value)
    requires QuizDifficulty(stored).Ok?
    ensures QuizRecord(grade, topic, language, QuizDifficulty(stored).value, quiz)["difficulty"]
      == Str(RecommendNextDifficulty(StoredPerformance(stored)).value.Label())
  {
  }

  /** The document `generate_quiz` saves for the user, stamped. */
  function SavedQuiz(grade: int, topic: string, language: string, userId: string, difficulty: Difficulty, quiz: Value, now: string): Record
  {
    QuizRecord(grade, topic, language, difficulty, quiz)
    + map["user_id" := Str(userId), "created_at" := DateTime(now), "updated_at" := DateTime(now)]
  }

  /**
   * The body of `generate_quiz`, given how it judges the difficulty:
   * reads the user's performance, asks for a quiz at that difficulty,
   * cleans and decodes the reply, saves the assessment and returns the
   * quiz with the new id. A quiz that decodes to something other than an
   * object is saved before the failure.
   */
  method GenerateQuizAt(store: AssessmentStore, grade: int, topic: string, language: string, userId: string,
                        reply: Result<string, string>, decode: string -> Result<Value, string>,
                        id: string, now: string, writeOk: bool, judge: Option<Record> -> Result<Difficulty, string>)
    returns (r: Result<Value, string>)
    requires id !in store.assessments
    modifies store
    ensures r == QuizOutcomeAt(judge(old(store.GetUserPerformance(userId))), reply, decode, id, writeOk)
    ensures QuizReachesSave(judge(old(store.GetUserPerformance(userId))), reply, decode) && writeOk ==>
      store.assessments == old(store.assessments)[id :=
        SavedQuiz(grade, topic, language, userId, judge(old(store.GetUserPerformance(userId))).value,
                  decode(CleanJsonReply(reply.value)).value, now)]
    ensures !(QuizReachesSave(judge(old(store.GetUserPerformance(userId))), reply, decode) && writeOk) ==>
      store.assessments == old(store.assessments)
    ensures store.performance == old(store.performance)
  {
    var stored := store.GetUserPerformance(userId);
    var difficulty := judge(stored);
    if difficulty.Err? {
      return Err(QuizError(difficulty.error));
    }
    if reply.Err? {
      return Err(QuizError(reply.error));
    }
    var quiz := decode(CleanJsonReply(reply.value));
    if quiz.Err? {
      return Err(QuizError(quiz.error));
    }
    var data := QuizRecord(grade, topic, language, difficulty.value, quiz.value);
    var savedId, stamped := store.SaveAssessment(userId, data, id, now, writeOk);
    var checked := EnsureDocumentId(savedId, "save_assessment");
    if checked.Err? {
      return Err(QuizError(checked.error.Message()));
    }
    if !quiz.value.Obj? {
      return Err(QuizError(ItemAssignmentError(quiz.value)));
    }
    r := Ok(Obj(quiz.value.fields["assessment_id" := Str(id)]));
  }

  /**
   * `generate_quiz` as written: the difficulty is judged on the
   * document's `"performance"` entry, which no statistics update writes,
   * so a user without one always gets an easy quiz.
   */
  method GenerateQuiz(store: AssessmentStore, grade: int, topic: string, language: string, userId: string,
                      reply: Result<string, string>, decode: string -> Result<Value, string>,
                      id: string, now: string, writeOk: bool) returns (r: Result<Value, string>)
    requires id !in store.assessments
    modifies store
    ensures r == QuizOutcome(old(store.GetUserPerformance(userId)), reply, decode, id, writeOk)
    ensures QuizReachesSave(QuizDifficultyAsWritten(old(store.GetUserPerformance(userId))), reply, decode) && writeOk ==>
      store.assessments == old(store.assessments)[id :=
        SavedQuiz(grade, topic, language, userId, QuizDifficultyAsWritten(old(store.GetUserPerformance(userId))).value,
                  decode(CleanJsonReply(reply.value)).value, now)]
    ensures !(QuizReachesSave(QuizDifficultyAsWritten(old(store.GetUserPerformance(userId))), reply, decode) && writeOk) ==>
      store.assessments == old(store.assessments)
    ensures old(store.GetUserPerformance(userId)).None? || "performance" !in old(store.GetUserPerformance(userId)).value ==>
      (id in store.assessments ==> store.assessments[id]["difficulty"] == Str("easy"))
    ensures store.performance == old(store.performance)
  {
    ghost var stored := store.GetUserPerformance(userId);
    r := GenerateQuizAt(store, grade, topic, language, userId, reply, decode, id, now, writeOk, QuizDifficultyAsWritten);
    if stored.None? || "performance" !in stored.value {
      assert QuizDifficultyAsWritten(stored) == Ok(Easy);
    }
  }

  /**
   * `generate_quiz` with the difficulty judged, as
   * `get_personalized_recommendations` judges it, on the performance
   * document itself.
   */
  method GenerateQuizFixed(store: AssessmentStore, grade: int, topic: string, language: string, userId: string,
                           reply: Result<string, string>, decode: string -> Result<Value, string>,
                           id: string, now: string, writeOk: bool) returns (r: Result<Value, string>)
    requires id !in store.assessments
    modifies store
    ensures r == QuizOutcomeFixed(old(store.GetUserPerformance(userId)), reply, decode, id, writeOk)
    ensures QuizReachesSave(QuizDifficulty(old(store.GetUserPerformance(userId))), reply, decode) && writeOk ==>
      store.assessments == old(store.assessments)[id :=
        SavedQuiz(grade, topic, language, userId, QuizDifficulty(old(store.GetUserPerformance(userId))).value,
                  decode(CleanJsonReply(reply.value)).value, now)]
      && store.assessments[id]["difficulty"] == old(PersonalizedRecommendations(store.GetUserPerformance(userId), RecentCount(store.assessments, userId, 5))).value["recommended_difficulty"]
    ensures !(QuizReachesSave(QuizDifficulty(old(store.GetUserPerformance(userId))), reply, decode) && writeOk) ==>
      store.assessments == old(store.assessments)
    ensures store.performance == old(store.performance)
  {
    r := GenerateQuizAt(store, grade, topic, language, userId, reply, decode, id, now, writeOk, QuizDifficulty);
  }

  // ---------------------------------------------------------------- score_open_ended

  /** A failure inside `score_open_ended`, as the caller sees it. */
  function ScoreError(message: string): string
  {
    HandleServiceDaoErrors<Value>("score_open_ended", Err(OtherException("Error scoring open-ended question: " + message))).error
  }

  /** `score_open_ended`: the decoded, cleaned reply, or the wrapped failure. */
  function ScoreOpenEnded(reply: Result<string, string>, decode: string -> Result<Value, string>): (r: Result<Value, string>)
    ensures r.Ok? <==> reply.Ok? && decode(CleanJsonReply(reply.value)).Ok?
    ensures r.Ok? ==> r.value == decode(CleanJsonReply(reply.value)).value
    ensures r.Err? ==> r.error == ScoreError(if reply.Err? then reply.error else decode(CleanJsonReply(reply.value)).error)
  {
    if reply.Err? then Err(ScoreError(reply.error))
    else
      var result := decode(CleanJsonReply(reply.value));
      if result.Err? then Err(ScoreError(result.error)) else Ok(result.value)
  }

  // ---------------------------------------------------------------- update_user_performance

  /** The failure `update_user_performance` raises for a failed update, as the caller sees it. */
  const UpdateFailed := "Service 'update_user_performance' encountered an error: Error updating user performance: Failed to update performance statistics in database"

  /**
   * `update_user_performance`: the statistics update, then the updated
   * document under `"performance"`; a failed update raises.
   */
  method UpdateUserPerformance(store: AssessmentStore, userId: string, correct: int, total: int, now: string, writeOk: bool)
    returns (r: Result<Record, string>)
    modifies store
    ensures r.Ok? <==> writeOk && StatsUpdate(old(store.GetUserPerformance(userId)), userId, correct, total, now).Some?
    ensures r.Ok? ==> userId in store.performance && ConsistentStats(store.performance[userId])
    ensures r.Ok? ==> r.value == map["status" := Str("updated"), "performance" := Obj(store.performance[userId])]
    ensures r.Err? ==> r.error == UpdateFailed
    ensures store.assessments == old(store.assessments)
  {
    ghost var existing := store.GetUserPerformance(userId);
    var ok := store.UpdateUserPerformanceStats(userId, correct, total, now, writeOk);
    if !ok {
      return Err(UpdateFailed);
    }
    UpdatedStatsAreConsistent(existing, userId, correct, total, now);
    var doc := store.GetUserPerformance(userId);
    r := Ok(map["status" := Str("updated"), "performance" := Obj(doc.value)]);
  }

  // ---------------------------------------------------------------- recommendations and saved results

  /** How many of the user's assessments a query limited to `limit` returns. */
  function RecentCount(assessments: map<string, Record>, userId: string, limit: nat): (n: nat)
    ensures n <= limit
  {
    var mine := set id | id in assessments && Get(assessments[id], "user_id", Null) == Str(userId);
    if |mine| < limit then |mine| else limit
  }

  /**
   * `get_personalized_recommendations`: the difficulty the stored document
   * calls for, the document, the number of recent assessments (at most
   * five) and the suggested next step; an uncomparable score raises.
   */
  function PersonalizedRecommendations(stored: Option<Record>, recent: nat): (r: Result<Record, string>)
    ensures r.Ok? <==> QuizDifficulty(stored).Ok?
    ensures r.Ok? ==> ("recommended_difficulty" in r.value
                       && r.value["recommended_difficulty"] == Str(QuizDifficulty(stored).value.Label()))
    ensures r.Err? ==> r.error == "Error getting personalized recommendations: " + QuizDifficulty(stored).error
  {
    var difficulty := QuizDifficulty(stored);
    if difficulty.Err? then Err("Error getting personalized recommendations: " + difficulty.error)
    else
      var word := difficulty.value.Label();
      Ok(map[
        "performance" := Obj(StoredPerformance(stored)),
        "recent_assessments" := Int(recent),
        "recommendations" := Obj(map[
          "next_steps" := Str("Try " + word + " difficulty questions"),
          "focus_areas" := Str("Continue practicing to improve")])]
      + map["recommended_difficulty" := Str(word)])
  }

  method GetPersonalizedRecommendations(store: AssessmentStore, userId: string) returns (r: Result<Record, string>)
    ensures r == PersonalizedRecommendations(store.GetUserPerformance(userId), RecentCount(store.assessments, userId, 5))
  {
    var stored := store.GetUserPerformance(userId);
    r := PersonalizedRecommendations(stored, RecentCount(store.assessments, userId, 5));
  }

  /** A failure inside `save_assessment_result`, as the caller sees it. */
  function SaveResultError(e: DaoError): string
  {
    HandleServiceDaoErrors<Value>("save_assessment_result", Err(OtherException("Error saving assessment result: " + e.Message()))).error
  }

  /**
   * `save_assessment_result`: stores the stamped result and reports its id;
   * a failed write surfaces as the missing-id error.
   */
  method SaveAssessmentResult(store: AssessmentStore, userId: string, data: Record, id: string, now: string, writeOk: bool)
    returns (r: Result<Record, string>)
    requires id !in store.assessments
    modifies store
    ensures r.Ok? <==> writeOk && id != []
    ensures r.Ok? ==> r.value == map["success" := Bool(true), "assessment_id" := Str(id)]
    ensures r.Err? ==> r.error == SaveResultError(EnsureDocumentId(if writeOk then Some(id) else None, "save_assessment_result").error)
    ensures writeOk ==> store.assessments == old(store.assessments)[id :=
      data + map["user_id" := Str(userId), "created_at" := DateTime(now), "updated_at" := DateTime(now)]]
    ensures !writeOk ==> store.assessments == old(store.assessments)
    ensures store.performance == old(store.performance)
  {
    var savedId, stamped := store.SaveAssessment(userId, data, id, now, writeOk);
    var checked := EnsureDocumentId(savedId, "save_assessment_result");
    if checked.Err? {
      return Err(SaveResultError(checked.error));
    }
    r := Ok(map["success" := Bool(true), "assessment_id" := Str(checked.value)]);
  }
}
