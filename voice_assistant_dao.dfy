/**
 * The voice-assistant DAO (dao/voice_assistant_dao.py): saving a
 * conversation and the conversation analytics over a user's conversations.
 * The voice_conversations collection is a map from document id to record;
 * whether a write goes through, fresh ids and the clock are parameters.
 */
module VoiceAssistantDao {
  import opened Wrappers
  import opened Values
  import AssessmentDao

  /** The `TypeError` that `len(v)` raises for a value without a length. */
  function LenError(v: Value): string
  {
    "object of type '" + TypeName(v) + "' has no len()"
  }

  /** What one conversation adds to a length total: the length of the field when present, 0 when absent. */
  function FieldLength(doc: Record, key: string): (r: Result<nat, string>)
    ensures key !in doc ==> r == Ok(0)
    ensures key in doc ==> (r.Ok? <==> Len(doc[key]).Some?)
    ensures key in doc && r.Ok? ==> r.value == Len(doc[key]).value
  {
    if key !in doc then Ok(0)
    else match Len(doc[key])
      case Some(n) => Ok(n)
      case None => Err(LenError(doc[key]))
  }

  /** The two running totals of the analytics loop. */
  datatype Lengths = Lengths(transcript: nat, response: nat)

  /** One conversation of the analytics loop: the transcript's length is taken first, then the response's. */
  function TotalsStep(acc: Lengths, doc: Record): (r: Result<Lengths, string>)
    ensures r.Ok? <==> FieldLength(doc, "transcript").Ok? && FieldLength(doc, "ai_response").Ok?
    ensures r.Ok? ==> r.value.transcript == acc.transcript + FieldLength(doc, "transcript").value
    ensures r.Ok? ==> r.value.response == acc.response + FieldLength(doc, "ai_response").value
  {
    var t := FieldLength(doc, "transcript");
    var a := FieldLength(doc, "ai_response");
    if t.Err? then Err(t.error)
    else if a.Err? then Err(a.error)
    else Ok(Lengths(acc.transcript + t.value, acc.response + a.value))
  }

  /**
   * The analytics loop over the conversations, in order: each adds the
   * length of its transcript and of its AI response where present; the
   * first field without a length raises.
   */
  function Totals(docs: seq<Record>): (r: Result<Lengths, string>)
  {
    if docs == [] then Ok(Lengths(0, 0))
    else
      var rest := Totals(docs[..|docs| - 1]);
      if rest.Err? then rest else TotalsStep(rest.value, docs[|docs| - 1])
  }

  /** The loop goes through exactly when every present transcript and response has a length. */
  lemma {:induction false} TotalsSucceed(docs: seq<Record>)
    ensures Totals(docs).Ok? <==>
      forall i :: 0 <= i < |docs| ==> FieldLength(docs[i], "transcript").Ok? && FieldLength(docs[i], "ai_response").Ok?
  {
    if docs != [] {
      var init := docs[..|docs| - 1];
      assert forall i :: 0 <= i < |init| ==> init[i] == docs[i];
      TotalsSucceed(init);
    }
  }

  /** One more conversation allows `bound` more. */
  lemma MoreTimes(bound: nat, n: nat)
    ensures bound * (n + 1) == bound * n + bound
  {
  }

  /** Transcripts at most `bound` long total at most `bound` per conversation. */
  lemma {:induction false} TranscriptTotalBound(docs: seq<Record>, bound: nat)
    requires Totals(docs).Ok?
    requires forall i :: 0 <= i < |docs| ==> FieldLength(docs[i], "transcript").Ok? && FieldLength(docs[i], "transcript").value <= bound
    ensures Totals(docs).value.transcript <= bound * |docs|
  {
    if docs != [] {
      var init := docs[..|docs| - 1];
      assert forall i :: 0 <= i < |init| ==> init[i] == docs[i];
      TranscriptTotalBound(init, bound);
      var last := docs[|docs| - 1];
      assert Totals(docs).value.transcript == Totals(init).value.transcript + FieldLength(last, "transcript").value;
      MoreTimes(bound, |init|);
    }
  }

  /** Responses at most `bound` long total at most `bound` per conversation. */
  lemma {:induction false} ResponseTotalBound(docs: seq<Record>, bound: nat)
    requires Totals(docs).Ok?
    requires forall i :: 0 <= i < |docs| ==> FieldLength(docs[i], "ai_response").Ok? && FieldLength(docs[i], "ai_response").value <= bound
    ensures Totals(docs).value.response <= bound * |docs|
  {
    if docs != [] {
      var init := docs[..|docs| - 1];
      assert forall i :: 0 <= i < |init| ==> init[i] == docs[i];
      ResponseTotalBound(init, bound);
      var last := docs[|docs| - 1];
      assert Totals(docs).value.response == Totals(init).value.response + FieldLength(last, "ai_response").value;
      MoreTimes(bound, |init|);
    }
  }

  /** `total / len(conversations) if conversations else 0`, without the rounding to two places. */
  function Average(total: nat, count: nat): (v: Value)
  {
    if count > 0 then Real((total as real) / (count as real)) else Int(0)
  }

  /** `get_conversation_analytics`: the report, or the error record when the loop raised. */
  datatype ConversationAnalytics =
    | Report(userId: string, period: string, startDate: string, endDate: string, totalConversations: nat,
             averageTranscriptLength: Value, averageResponseLength: Value, totalTranscriptChars: nat, totalResponseChars: nat)
    | Failed(userId: string, period: string, error: string)
  {
    /** `total_conversations`, which the error record reports as 0. */
    function Total(): nat
    {
      if Report? then totalConversations else 0
    }
  }

  /** The analytics of the conversations the query found. */
  function ConversationAnalyticsOf(userId: string, days: int, start: string, end: string, docs: seq<Record>): (r: ConversationAnalytics)
  {
    match Totals(docs)
    case Ok(t) =>
      Report(userId, AssessmentDao.Period(days), start, end, |docs|,
             Average(t.transcript, |docs|), Average(t.response, |docs|), t.transcript, t.response)
    case Err(e) => Failed(userId, AssessmentDao.Period(days), e)
  }

  /** An average over some items, times their number, is the total; over none it is 0. */
  lemma AverageTimesCount(total: nat, count: nat)
    ensures count == 0 ==> Average(total, count) == Int(0)
    ensures count > 0 ==> Average(total, count).Real? && Average(total, count).r * (count as real) == total as real
  {
    if count > 0 {
      var n := count as real;
      assert (total as real) / n * n == total as real;
    }
  }

  /**
   * The analytics count every conversation and report exactly the totals
   * of the loop and their averages over all conversations; a field without
   * a length yields the error record with 0 conversations.
   */
  lemma AnalyticsAveragesTotals(userId: string, days: int, start: string, end: string, docs: seq<Record>)
    ensures var r := ConversationAnalyticsOf(userId, days, start, end, docs);
      && (r.Report? <==>
            forall i :: 0 <= i < |docs| ==> FieldLength(docs[i], "transcript").Ok? && FieldLength(docs[i], "ai_response").Ok?)
      && (r.Failed? ==> r.Total() == 0)
      && (r.Report? ==> (
            && r.Total() == |docs|
            && r.totalTranscriptChars == Totals(docs).value.transcript
            && r.totalResponseChars == Totals(docs).value.response
            && r.averageTranscriptLength == Average(r.totalTranscriptChars, |docs|)
            && r.averageResponseLength == Average(r.totalResponseChars, |docs|)))
  {
    TotalsSucceed(docs);
  }

  /**
   * When every transcript and response is at most `bound` characters long,
   * the reported averages are at most `bound` too.
   */
  lemma AveragesAreBounded(userId: string, days: int, start: string, end: string, docs: seq<Record>, bound: nat)
    requires forall i :: 0 <= i < |docs| ==> FieldLength(docs[i], "transcript").Ok? && FieldLength(docs[i], "transcript").value <= bound
    requires forall i :: 0 <= i < |docs| ==> FieldLength(docs[i], "ai_response").Ok? && FieldLength(docs[i], "ai_response").value <= bound
    ensures var r := ConversationAnalyticsOf(userId, days, start, end, docs);
      && r.Report?
      && Number(r.averageTranscriptLength).Some? && Number(r.averageTranscriptLength).value <= bound as real
      && Number(r.averageResponseLength).Some? && Number(r.averageResponseLength).value <= bound as real
  {
    TotalsSucceed(docs);
    TranscriptTotalBound(docs, bound);
    ResponseTotalBound(docs, bound);
    if docs != [] {
      var n := |docs| as real;
      var t := Totals(docs).value;
      AverageAtMost(t.transcript, |docs|, bound);
      AverageAtMost(t.response, |docs|, bound);
    }
  }

  /** A total of at most `bound` per item averages to at most `bound`. */
  lemma AverageAtMost(total: nat, count: nat, bound: nat)
    requires count > 0 && total <= bound * count
    ensures Number(Average(total, count)).value <= bound as real
  {
    var n := count as real;
    assert (total as real) <= (bound as real) * n;
    assert (total as real) / n * n == total as real;
  }

  /** One more conversation extends the loop's totals by one step. */
  lemma TotalsPrefix(docs: seq<Record>, i: nat)
    requires i < |docs|
    ensures Totals(docs[..i + 1]) == if Totals(docs[..i]).Err? then Totals(docs[..i]) else TotalsStep(Totals(docs[..i]).value, docs[i])
  {
    assert docs[..i + 1][..i] == docs[..i];
  }

  /** A failure at some conversation is the failure of every longer run. */
  lemma {:induction false} TotalsErrorPersists(docs: seq<Record>, i: nat)
    requires i <= |docs| && Totals(docs[..i]).Err?
    ensures Totals(docs) == Totals(docs[..i])
    decreases |docs| - i
  {
    if i == |docs| {
      assert docs[..i] == docs;
    } else {
      TotalsPrefix(docs, i);
      TotalsErrorPersists(docs, i + 1);
    }
  }

  /** The analytics loop: each conversation adds the lengths of its transcript and response. */
  method GetConversationAnalytics(userId: string, days: int, start: string, end: string, docs: seq<Record>) returns (r: ConversationAnalytics)
    ensures r == ConversationAnalyticsOf(userId, days, start, end, docs)
  {
    var transcriptTotal: nat := 0;
    var responseTotal: nat := 0;
    var i := 0;
    while i < |docs|
      invariant 0 <= i <= |docs|
      invariant Totals(docs[..i]) == Ok(Lengths(transcriptTotal, responseTotal))
    {
      TotalsPrefix(docs, i);
      var next := TotalsStep(Lengths(transcriptTotal, responseTotal), docs[i]);
      if next.Err? {
        TotalsErrorPersists(docs, i + 1);
        return Failed(userId, AssessmentDao.Period(days), next.error);
      }
      transcriptTotal := next.value.transcript;
      responseTotal := next.value.response;
      i := i + 1;
    }
    assert docs[..|docs|] == docs;
    r := Report(userId, AssessmentDao.Period(days), start, end, |docs|, Average(transcriptTotal, |docs|),
                Average(responseTotal, |docs|), transcriptTotal, responseTotal);
  }

  // ---------------------------------------------------------------- the store

  /** The voice-conversation collection. */
  class ConversationStore {
    var conversations: map<string, Record>

    constructor ()
      ensures conversations == map[]
    {
      conversations := map[];
    }

    /**
     * `save_conversation`: the caller's dict gets the user id and the
     * timestamps (it is returned as `stamped`) and is stored under a fresh
     * id, which is returned; `None` when the write fails.
     */
    method SaveConversation(userId: string, data: Record, id: string, now: string, writeOk: bool)
      returns (r: Option<string>, stamped: Record)
      requires id !in conversations
      modifies this
      ensures stamped == data + map["user_id" := Str(userId), "created_at" := DateTime(now), "updated_at" := DateTime(now)]
      ensures r.Some? <==> writeOk
      ensures writeOk ==> r.value == id && conversations == old(conversations)[id := stamped]
      ensures !writeOk ==> conversations == old(conversations)
    {
      stamped := data + map["user_id" := Str(userId), "created_at" := DateTime(now), "updated_at" := DateTime(now)];
      if !writeOk {
        return None, stamped;
      }
      conversations := conversations[id := stamped];
      r := Some(id);
    }
  }
}
