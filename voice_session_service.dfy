/**
 * The session store of the voice assistant
 * (services/voice_session_service.py): the in-memory sessions keyed by id,
 * their expiry after thirty idle minutes, the bounded conversation history,
 * the periodic summary, and the fallbacks of the context-aware reply and
 * of the topic. Times are whole seconds; the language model's replies and
 * `json.loads` are parameters.
 */
module VoiceSessionService {
  import opened Wrappers
  import opened Text
  import opened Values

  const SessionTimeoutMinutes := 30
  const MaxContextHistory := 10
  /** The summary is refreshed on every third interaction. */
  const SummaryEvery := 3
  const SummaryLimit := 300
  const TopicLimit := 50
  const DefaultTopic := "General Education"

  datatype Interaction = Interaction(userMessage: string, assistantResponse: string, timestamp: string)

  /** `ConversationContext`. */
  datatype Session = Session(
    sessionId: string,
    userId: string,
    createdAt: int,
    lastInteractionAt: int,
    history: seq<Interaction>,
    contextSummary: string,
    topic: string,
    totalInteractions: nat,
    durationMinutes: real)

  // ---------------------------------------------------------------- sessions as values

  /** `f"session_{user_id}_{uuid.uuid4().hex[:8]}"`, with the random part given. */
  function NewSessionId(userId: string, hex8: string): (id: string)
    ensures StartsWith(id, "session_")
  {
    "session_" + userId + "_" + hex8
  }

  /** A fresh session: no history, no interactions, created and last seen now. */
  function NewSession(id: string, userId: string, now: int): (s: Session)
    ensures s.sessionId == id && s.userId == userId
    ensures s.history == [] && s.totalInteractions == 0
    ensures s.createdAt == now && s.lastInteractionAt == now
    ensures s.contextSummary == [] && s.topic == [] && s.durationMinutes == 0.0
  {
    Session(id, userId, now, now, [], "", "", 0, 0.0)
  }

  /** A session idle since before `now` minus the timeout has expired. */
  predicate Expired(s: Session, now: int)
  {
    s.lastInteractionAt < now - SessionTimeoutMinutes * 60
  }

  /** A session seen again: last interaction now, duration measured from its creation. */
  function Refreshed(s: Session, now: int): (r: Session)
    ensures r.lastInteractionAt == now && !Expired(r, now)
    ensures r.durationMinutes == (now - s.createdAt) as real / 60.0
    ensures r == s.(lastInteractionAt := now, durationMinutes := r.durationMinutes)
  {
    s.(lastInteractionAt := now, durationMinutes := (now - s.createdAt) as real / 60.0)
  }

  /** The last `n` items, or all of them when there are no more than `n`. */
  function Recent<T>(xs: seq<T>, n: nat): (r: seq<T>)
    ensures |r| == if |xs| > n then n else |xs|
    ensures r == xs[|xs| - |r|..]
  {
    if |xs| > n then xs[|xs| - n..] else xs
  }

  /** `.strip()`, then `[:300]`. */
  function Summary(reply: string): (s: string)
    ensures |s| <= SummaryLimit
  {
    Take(Strip(reply), SummaryLimit)
  }

  /**
   * `_update_session_context` on one session: the interaction appended and
   * the history cut to the last ten, one more interaction counted, and on
   * every third interaction with at least two remembered turns the summary
   * replaced by the model's, when it answers.
   */
  function WithInteraction(s: Session, x: Interaction, summaryReply: Result<string, string>): (r: Session)
    ensures r.totalInteractions == s.totalInteractions + 1
    ensures r.history == Recent(s.history + [x], MaxContextHistory)
    ensures r.history[|r.history| - 1] == x
    ensures r.contextSummary != s.contextSummary ==>
      r.totalInteractions % SummaryEvery == 0 && |r.history| >= 2 && summaryReply.Ok? && r.contextSummary == Summary(summaryReply.value)
    ensures r.totalInteractions % SummaryEvery == 0 && |r.history| >= 2 && summaryReply.Ok? ==> r.contextSummary == Summary(summaryReply.value)
    ensures r.sessionId == s.sessionId && r.userId == s.userId && r.topic == s.topic
    ensures r.createdAt == s.createdAt && r.lastInteractionAt == s.lastInteractionAt && r.durationMinutes == s.durationMinutes
  {
    var history := Recent(s.history + [x], MaxContextHistory);
    var count := s.totalInteractions + 1;
    var summary := if count % SummaryEvery == 0 && |history| >= 2 && summaryReply.Ok? then Summary(summaryReply.value) else s.contextSummary;
    s.(history := history, totalInteractions := count, contextSummary := summary)
  }

  /** The history never grows past ten, and while it is short nothing is dropped. */
  lemma HistoryIsBounded(s: Session, x: Interaction, summaryReply: Result<string, string>)
    ensures |WithInteraction(s, x, summaryReply).history| <= MaxContextHistory
    ensures |s.history| < MaxContextHistory ==> WithInteraction(s, x, summaryReply).history == s.history + [x]
    ensures |s.history| >= MaxContextHistory ==> WithInteraction(s, x, summaryReply).history == (s.history + [x])[|s.history| + 1 - MaxContextHistory..]
  {
  }

  /** `.strip().replace('"', '')[:50]`, or the default topic when the model fails. */
  function IdentifyTopic(reply: Result<string, string>): (topic: string)
    ensures |topic| <= TopicLimit
    ensures reply.Err? ==> topic == DefaultTopic
    ensures reply.Ok? ==> '"' !in topic && topic == Take(RemoveChar(Strip(reply.value), '"'), TopicLimit)
  {
    if reply.Ok? then Take(RemoveChar(Strip(reply.value), '"'), TopicLimit) else DefaultTopic
  }

  /**
   * The context-aware reply after the first turn: the stripped `"answer"`
   * of the model's JSON when there is a non-empty one, and the base reply
   * whenever the model fails, the reply does not decode to an object, the
   * answer is not a string, or it is blank. A missing answer defaults to
   * the base reply before the strip, so that it comes back stripped.
   */
  function ContextualResponse(base: string, reply: Result<string, string>, decode: string -> Result<Value, string>): (r: string)
    ensures reply.Err? ==> r == base
    ensures r != base && r != Strip(base) ==>
      && reply.Ok? && decode(CleanJsonReply(reply.value)).Ok?
      && decode(CleanJsonReply(reply.value)).value.Obj?
      && "answer" in decode(CleanJsonReply(reply.value)).value.fields
      && decode(CleanJsonReply(reply.value)).value.fields["answer"].Str?
      && r == Strip(decode(CleanJsonReply(reply.value)).value.fields["answer"].s) && r != []
    ensures r == [] ==> base == []
    ensures r == base || r == Strip(base) || reply.Ok?
  {
    if reply.Err? then base
    else
      match decode(CleanJsonReply(reply.value))
      case Ok(Obj(fields)) =>
        (match Get(fields, "answer", Str(base))
         case Str(answer) => if Strip(answer) != [] then Strip(answer) else base
         case _ => base)
      case _ => base
  }

  /** A reply whose answer is present and not blank is taken, stripped. */
  lemma AnswerIsTaken(base: string, reply: string, decode: string -> Result<Value, string>, fields: Record, answer: string)
    requires decode(CleanJsonReply(reply)) == Ok(Obj(fields))
    requires "answer" in fields && fields["answer"] == Str(answer) && Strip(answer) != []
    ensures ContextualResponse(base, Ok(reply), decode) == Strip(answer)
  {
    assert Get(fields, "answer", Str(base)) == Str(answer);
  }

  /** The summary, the topic and the history stay within their limits, and each session is filed under its own id. */
  predicate WellFormed(id: string, s: Session)
  {
    && s.sessionId == id
    && |s.history| <= MaxContextHistory
    && |s.contextSummary| <= SummaryLimit
    && |s.topic| <= TopicLimit
  }

  /** An interaction keeps a session within its limits. */
  lemma InteractionKeepsWellFormed(id: string, s: Session, x: Interaction, summaryReply: Result<string, string>)
    requires WellFormed(id, s)
    ensures WellFormed(id, WithInteraction(s, x, summaryReply))
  {
  }

  /** The steps of `_update_session_context` on one session. */
  method AddInteraction(s: Session, x: Interaction, summaryReply: Result<string, string>) returns (r: Session)
    ensures r == WithInteraction(s, x, summaryReply)
  {
    var history := s.history + [x];
    var count := s.totalInteractions + 1;
    if |history| > MaxContextHistory {
      history := history[|history| - MaxContextHistory..];
    }
    var summary := s.contextSummary;
    if count % SummaryEvery == 0 && |history| >= 2 && summaryReply.Ok? {
      summary := Summary(summaryReply.value);
    }
    r := s.(history := history, totalInteractions := count, contextSummary := summary);
  }

  /** The sessions that have not expired by `now`, unchanged. */
  function Unexpired(sessions: map<string, Session>, now: int): (live: map<string, Session>)
    ensures forall id :: id in live <==> id in sessions && !Expired(sessions[id], now)
    ensures forall id :: id in live ==> live[id] == sessions[id]
  {
    map id | id in sessions && !Expired(sessions[id], now) :: sessions[id]
  }

  /** Cleaning up twice at the same moment removes nothing more. */
  lemma CleanupIsIdempotent(sessions: map<string, Session>, now: int)
    ensures Unexpired(Unexpired(sessions, now), now) == Unexpired(sessions, now)
  {
    var once := Unexpired(sessions, now);
    assert Unexpired(once, now).Keys == once.Keys;
  }

  /** A later cleanup removes every session an earlier one removed. */
  lemma LaterCleanupRemovesMore(sessions: map<string, Session>, earlier: int, later: int)
    requires earlier <= later
    ensures Unexpired(sessions, later).Keys <= Unexpired(sessions, earlier).Keys
  {
  }

  /** Whether a request continues a live session: a non-empty id that is still there. */
  predicate Continues(sessionId: Option<string>, live: map<string, Session>)
  {
    sessionId.Some? && sessionId.value != [] && sessionId.value in live
  }

  /** `get_session_info` on one session. */
  function SessionInfo(s: Session): (info: Record)
    ensures "session_id" in info && info["session_id"] == Str(s.sessionId)
    ensures "user_id" in info && info["user_id"] == Str(s.userId)
    ensures "total_interactions" in info && info["total_interactions"] == Int(s.totalInteractions)
    ensures "is_active" in info && info["is_active"] == Bool(true)
  {
    map[
      "created_at" := Int(s.createdAt),
      "last_interaction_at" := Int(s.lastInteractionAt),
      "topic" := Str(s.topic),
      "session_duration_minutes" := Real(s.durationMinutes),
      "context_summary" := Str(s.contextSummary)]
    + map[
      "session_id" := Str(s.sessionId),
      "user_id" := Str(s.userId),
      "total_interactions" := Int(s.totalInteractions),
      "is_active" := Bool(true)]
  }

  /** The ids of a user's sessions. */
  function UserSessionIds(sessions: map<string, Session>, userId: string): (ids: set<string>)
    ensures forall id :: id in ids <==> id in sessions && sessions[id].userId == userId
  {
    set id | id in sessions && sessions[id].userId == userId
  }

  /** The record names, under "session_id", one of the given sessions. */
  predicate NamesOneOf(info: Record, ids: set<string>)
  {
    "session_id" in info && info["session_id"].Str? && info["session_id"].s in ids
  }

  lemma NamesMore(info: Record, ids: set<string>, id: string)
    requires NamesOneOf(info, ids)
    ensures NamesOneOf(info, ids + {id})
  {
  }

  /** The ids of the user's sessions, each once, in the order the loop meets them. */
  method CollectUserSessionIds(sessions: map<string, Session>, userId: string) returns (ids: seq<string>)
    ensures |ids| == |UserSessionIds(sessions, userId)|
    ensures forall k :: 0 <= k < |ids| ==> ids[k] in UserSessionIds(sessions, userId)
    ensures forall id :: id in UserSessionIds(sessions, userId) ==> id in ids
  {
    ids := [];
    ghost var listed: set<string> := {};
    var todo := sessions.Keys;
    while todo != {}
      invariant todo <= sessions.Keys
      invariant listed == UserSessionIds(sessions, userId) - todo
      invariant |ids| == |listed|
      invariant forall k :: 0 <= k < |ids| ==> ids[k] in listed
      invariant forall id :: id in listed ==> id in ids
      decreases |todo|
    {
      var id :| id in todo;
      if sessions[id].userId == userId {
        assert id !in listed;
        ids := ids + [id];
        listed := listed + {id};
      }
      todo := todo - {id};
    }
  }

  /** The details of the user's sessions, each once. */
  method CollectUserInfos(sessions: map<string, Session>, userId: string) returns (infos: seq<Record>)
    requires forall id :: id in sessions ==> sessions[id].sessionId == id
    ensures |infos| == |UserSessionIds(sessions, userId)|
    ensures forall id :: id in UserSessionIds(sessions, userId) ==> SessionInfo(sessions[id]) in infos
    ensures forall k :: 0 <= k < |infos| ==> NamesOneOf(infos[k], UserSessionIds(sessions, userId))
  {
    var ids := CollectUserSessionIds(sessions, userId);
    infos := seq(|ids|, k requires 0 <= k < |ids| => SessionInfo(sessions[ids[k]]));
    forall id | id in UserSessionIds(sessions, userId)
      ensures SessionInfo(sessions[id]) in infos
    {
      var k :| 0 <= k < |ids| && ids[k] == id;
      assert infos[k] == SessionInfo(sessions[id]);
    }
  }

  // ---------------------------------------------------------------- the service

  class SessionStore {
    var activeSessions: map<string, Session>

    predicate Valid()
      reads this
    {
      forall id :: id in activeSessions ==> WellFormed(id, activeSessions[id])
    }

    constructor ()
      ensures activeSessions == map[] && Valid()
    {
      activeSessions := map[];
    }

    /** `_cleanup_expired_sessions`: collects the expired ids, then removes them. */
    method CleanupExpiredSessions(now: int)
      requires Valid()
      modifies this
      ensures Valid()
      ensures activeSessions == Unexpired(old(activeSessions), now)
    {
      var expired: set<string> := {};
      var todo := activeSessions.Keys;
      while todo != {}
        invariant todo <= activeSessions.Keys
        invariant forall id :: id in expired <==> id in activeSessions && id !in todo && Expired(activeSessions[id], now)
        decreases |todo|
      {
        var id :| id in todo;
        if Expired(activeSessions[id], now) {
          expired := expired + {id};
        }
        todo := todo - {id};
      }
      var kept := activeSessions - expired;
      assert kept == Unexpired(activeSessions, now) by {
        assert kept.Keys == Unexpired(activeSessions, now).Keys;
      }
      activeSessions := kept;
    }

    /**
     * `_get_or_create_session`: after the cleanup, a live session asked for
     * by id is refreshed and returned; otherwise one new session is filed
     * under a new id and returned.
     */
    method GetOrCreateSession(userId: string, sessionId: Option<string>, now: int, hex8: string) returns (s: Session)
      requires Valid()
      modifies this
      ensures Valid()
      ensures Continues(sessionId, Unexpired(old(activeSessions), now)) ==>
        && s == Refreshed(Unexpired(old(activeSessions), now)[sessionId.value], now)
        && activeSessions == Unexpired(old(activeSessions), now)[sessionId.value := s]
        && activeSessions.Keys == Unexpired(old(activeSessions), now).Keys
      ensures !Continues(sessionId, Unexpired(old(activeSessions), now)) ==>
        && s == NewSession(NewSessionId(userId, hex8), userId, now)
        && activeSessions == Unexpired(old(activeSessions), now)[s.sessionId := s]
        && activeSessions.Keys == Unexpired(old(activeSessions), now).Keys + {s.sessionId}
      ensures s.sessionId in activeSessions && activeSessions[s.sessionId] == s
    {
      CleanupExpiredSessions(now);
      if sessionId.Some? && sessionId.value != [] && sessionId.value in activeSessions {
        s := Refreshed(activeSessions[sessionId.value], now);
        activeSessions := activeSessions[sessionId.value := s];
        return;
      }
      var id := NewSessionId(userId, hex8);
      s := NewSession(id, userId, now);
      activeSessions := activeSessions[id := s];
    }

    /**
     * `_enhance_response_with_context`: on the first turn the topic is
     * identified and the base reply returned; afterwards the reply is the
     * context-aware one and the session is left as it is.
     */
    method EnhanceResponseWithContext(id: string, base: string, topicReply: Result<string, string>,
                                      contextReply: Result<string, string>, decode: string -> Result<Value, string>)
      returns (response: string)
      requires Valid() && id in activeSessions
      modifies this
      ensures Valid()
      ensures old(activeSessions[id].history) == [] ==>
        response == base && activeSessions == old(activeSessions)[id := old(activeSessions[id]).(topic := IdentifyTopic(topicReply))]
      ensures old(activeSessions[id].history) != [] ==>
        response == ContextualResponse(base, contextReply, decode) && activeSessions == old(activeSessions)
    {
      var s := activeSessions[id];
      if s.history == [] {
        activeSessions := activeSessions[id := s.(topic := IdentifyTopic(topicReply))];
        return base;
      }
      response := ContextualResponse(base, contextReply, decode);
    }

    /** `_update_session_context`: the session gets the new interaction, the count and possibly a new summary. */
    method UpdateSessionContext(id: string, transcript: string, aiResponse: string, timestamp: string,
                                summaryReply: Result<string, string>)
      requires Valid() && id in activeSessions
      modifies this
      ensures Valid()
      ensures activeSessions == old(activeSessions)[id :=
        WithInteraction(old(activeSessions[id]), Interaction(transcript, aiResponse, timestamp), summaryReply)]
    {
      var s := activeSessions[id];
      var x := Interaction(transcript, aiResponse, timestamp);
      var updated := AddInteraction(s, x, summaryReply);
      InteractionKeepsWellFormed(id, s, x, summaryReply);
      activeSessions := activeSessions[id := updated];
    }

    /** `get_session_info`: the session's details, or `None` for an id that is not active. */
    function GetSessionInfo(id: string): (info: Option<Record>)
      reads this
      ensures info.None? <==> id !in activeSessions
      ensures info.Some? ==> info.value == SessionInfo(activeSessions[id])
    {
      if id in activeSessions then Some(SessionInfo(activeSessions[id])) else None
    }

    /** `end_session`: `true` exactly when the session was active; it is gone afterwards. */
    method EndSession(id: string) returns (ended: bool)
      requires Valid()
      modifies this
      ensures Valid()
      ensures ended <==> id in old(activeSessions)
      ensures activeSessions == old(activeSessions) - {id}
      ensures GetSessionInfo(id).None?
    {
      ended := id in activeSessions;
      activeSessions := activeSessions - {id};
    }

    /** `get_user_active_sessions`: the details of exactly the user's sessions, each once. */
    method GetUserActiveSessions(userId: string) returns (infos: seq<Record>)
      requires Valid()
      ensures |infos| == |UserSessionIds(activeSessions, userId)|
      ensures forall id :: id in UserSessionIds(activeSessions, userId) ==> SessionInfo(activeSessions[id]) in infos
      ensures forall k :: 0 <= k < |infos| ==> NamesOneOf(infos[k], UserSessionIds(activeSessions, userId))
    {
      infos := CollectUserInfos(activeSessions, userId);
    }
  }
}
