/**
 * The content DAO (dao/content_dao.py): the per-user content usage
 * counters and the content analytics, which count a user's activities and
 * visual aids. The user_content_history collection is a map from user id to
 * record; whether a write goes through and the clock are parameters, and a
 * query arrives as the documents it streamed or the error it raised.
 */
module ContentDao {
  import opened Wrappers
  import opened Values
  import AssessmentDao
  import UsageStats

  /** `total_content_generated`, `last_content_generated`, `total_{content_type}_generated`, `last_{content_type}_generated`. */
  const Content := UsageStats.Counters("total_content_generated", "last_content_generated", "generated")

  lemma ContentIsSound()
    ensures UsageStats.Sound(Content)
  {
    assert Content.total[0] == 't' && Content.last[0] == 'l';
  }

  /** The per-type counter of the type "content" is the overall counter. */
  lemma ContentCounterIsTotal()
    ensures UsageStats.TypeKey(Content, "content") == Content.total
  {
  }

  /**
   * A content usage update counts one more item and one more item of this
   * type, and starts a first document with the user id.
   */
  lemma ContentUsageCounts(existing: Option<Record>, userId: string, contentType: string, now: string)
    requires UsageStats.UsageUpdate(existing, userId, Content, contentType, now).Some?
    ensures var doc := AssessmentDao.Merged(existing, UsageStats.UsageUpdate(existing, userId, Content, contentType, now).value);
      && doc[Content.total] == Int(UsageStats.Before(existing, Content.total) + 1)
      && doc[UsageStats.TypeKey(Content, contentType)] == Int(UsageStats.Before(existing, UsageStats.TypeKey(Content, contentType)) + 1)
      && (existing.None? ==> doc["user_id"] == Str(userId))
  {
    ContentIsSound();
    UsageStats.UsageUpdateCounts(existing, userId, Content, contentType, now);
  }

  /** The counter of every other content type (other than "content" itself, the overall counter) is left as it was. */
  lemma OtherContentTypesUntouched(existing: Record, userId: string, contentType: string, other: string, now: string)
    requires UsageStats.UsageUpdate(Some(existing), userId, Content, contentType, now).Some?
    requires other != contentType && other != "content" && UsageStats.TypeKey(Content, other) in existing
    ensures AssessmentDao.Merged(Some(existing), UsageStats.UsageUpdate(Some(existing), userId, Content, contentType, now).value)
      [UsageStats.TypeKey(Content, other)] == existing[UsageStats.TypeKey(Content, other)]
  {
    ContentIsSound();
    if UsageStats.TypeKey(Content, other) == Content.total {
      ContentCounterIsTotal();
      UsageStats.TypeKeyInjective(Content, other, "content");
    }
    UsageStats.OtherKindsUntouched(existing, userId, Content, contentType, other, now);
  }

  // ---------------------------------------------------------------- analytics

  /**
   * `get_content_analytics` over what the two queries streamed: the
   * activities and the visual aids of the user in the period, counted; the
   * error record, with total 0, when either query raised (the activities
   * query is streamed first).
   */
  function ContentAnalytics(userId: string, days: int, start: string, end: string,
                            activities: Result<seq<Record>, string>, visualAids: Result<seq<Record>, string>): (r: Record)
    ensures "total_content_generated" in r && r["total_content_generated"].Int?
    ensures activities.Err? ==> r["total_content_generated"] == Int(0) && "error" in r && r["error"] == Str(activities.error)
    ensures activities.Ok? && visualAids.Err? ==>
      r["total_content_generated"] == Int(0) && "error" in r && r["error"] == Str(visualAids.error)
    ensures activities.Ok? && visualAids.Ok? ==> (
      && "error" !in r
      && "activities_generated" in r && r["activities_generated"] == Int(|activities.value|)
      && "visual_aids_generated" in r && r["visual_aids_generated"] == Int(|visualAids.value|))
  {
    if activities.Err? || visualAids.Err? then
      var e := if activities.Err? then activities.error else visualAids.error;
      map["user_id" := Str(userId), "period" := Str(AssessmentDao.Period(days)), "error" := Str(e)]
      + map["total_content_generated" := Int(0)]
    else
      map[
        "user_id" := Str(userId),
        "period" := Str(AssessmentDao.Period(days)),
        "start_date" := Str(start),
        "end_date" := Str(end)]
      + map[
        "total_content_generated" := Int(|activities.value| + |visualAids.value|),
        "activities_generated" := Int(|activities.value|),
        "visual_aids_generated" := Int(|visualAids.value|)]
  }

  /**
   * A report without an error counts every item exactly once: its total is
   * the activities plus the visual aids it reports, and it reports nothing
   * when either query failed.
   */
  lemma ContentTotalIsSum(userId: string, days: int, start: string, end: string,
                          activities: Result<seq<Record>, string>, visualAids: Result<seq<Record>, string>)
    ensures var r := ContentAnalytics(userId, days, start, end, activities, visualAids);
      && ("error" !in r <==> activities.Ok? && visualAids.Ok?)
      && ("error" !in r ==> r["total_content_generated"].i == r["activities_generated"].i + r["visual_aids_generated"].i)
      && ("error" in r ==> r["total_content_generated"].i == 0)
  {
  }

  // ---------------------------------------------------------------- the store

  /** The content-history collection. */
  class ContentStore {
    var history: map<string, Record>

    constructor ()
      ensures history == map[]
    {
      history := map[];
    }

    /**
     * `update_content_usage_stats`: advances the user's history document
     * (or creates it) by a merge write; `false`, with nothing written, when
     * the write fails or a stored counter is not an integer.
     */
    method UpdateContentUsageStats(userId: string, contentType: string, now: string, writeOk: bool) returns (ok: bool)
      modifies this
      ensures ok <==> writeOk && UsageStats.UsageUpdate(old(AssessmentDao.Lookup(history, userId)), userId, Content, contentType, now).Some?
      ensures ok ==> history == old(history)[userId := AssessmentDao.Merged(old(AssessmentDao.Lookup(history, userId)),
        UsageStats.UsageUpdate(old(AssessmentDao.Lookup(history, userId)), userId, Content, contentType, now).value)]
      ensures !ok ==> history == old(history)
    {
      var existing := AssessmentDao.Lookup(history, userId);
      var written := UsageStats.UsageUpdate(existing, userId, Content, contentType, now);
      if !writeOk || written.None? {
        return false;
      }
      history := history[userId := AssessmentDao.Merged(existing, written.value)];
      ok := true;
    }
  }
}
