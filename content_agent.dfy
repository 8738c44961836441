/**
 * The content agent's deterministic policies: how ADK enhancement
 * branches, the multimedia suggestions, recommendations, confidence, next
 * steps and the fallback content. Content generation and every
 * reasoning-engine call are oracles.
 */
module ContentAgent {
  import opened Wrappers
  import opened Text
  import opened Values
  import opened AgentPolicy

  /** The fields of `ContentRequest` the policies read. */
  datatype ContentRequest = ContentRequest(
    topic: string,
    contentType: string,
    gradeLevel: string,
    duration: int,
    contentFormat: string)

  /** What the reasoning engine answers to each request; `Err` when the call raises. */
  datatype EngineReplies = EngineReplies(
    enhancement: Result<Value, string>,
    multimedia: Result<Value, string>,
    recommendations: Result<Value, string>)

  /** The three suggestions `_generate_multimedia_suggestions` always makes. */
  function BaseSuggestions(topic: string): seq<Value>
  {
    [ Obj(map["type" := Str("image"), "description" := Str("Visual diagram for " + topic)]),
      Obj(map["type" := Str("video"), "description" := Str("Introduction video"), "duration" := Str("3-5 minutes")]),
      Obj(map["type" := Str("interactive"), "description" := Str("Practice exercise")]) ]
  }

  /**
   * `_generate_multimedia_suggestions` (only ever called with an engine):
   * the three fixed suggestions, then every item of the engine's reply
   * when it is a list; a raising call or any other reply adds nothing.
   */
  function MultimediaSuggestions(req: ContentRequest, reply: Result<Value, string>): (r: seq<Value>)
    ensures |r| >= 3 && r[..3] == BaseSuggestions(req.topic)
    ensures reply.Ok? && reply.value.List? ==> r[3..] == reply.value.items
    ensures !(reply.Ok? && reply.value.List?) ==> |r| == 3
  {
    BaseSuggestions(req.topic) + (if reply.Ok? && reply.value.List? then reply.value.items else [])
  }

  /** The formats that get multimedia elements. */
  predicate RichFormat(format: string)
  {
    format == "multimedia" || format == "interactive"
  }

  /**
   * `_enhance_with_adk`: without an engine the content is only marked
   * unavailable; when the enhancement call raises it is marked failed; when
   * it answers, the answer is recorded and multimedia elements are added
   * for multimedia and interactive formats. No other field changes.
   */
  function EnhanceWithAdk(content: Record, req: ContentRequest, engineExists: bool, replies: EngineReplies): (r: Record)
    ensures r.Keys == content.Keys + {"adk_enhancement"} + (if "multimedia_elements" in r then {"multimedia_elements"} else {})
    ensures forall k :: k in content && k != "adk_enhancement" && k != "multimedia_elements" ==> r[k] == content[k]
    ensures !engineExists ==> r["adk_enhancement"] == UnavailableMarker()
    ensures engineExists && replies.enhancement.Err? ==> r["adk_enhancement"] == FailedMarker()
    ensures engineExists && replies.enhancement.Ok? ==> r["adk_enhancement"] == replies.enhancement.value
    ensures engineExists && replies.enhancement.Ok? && RichFormat(req.contentFormat) ==>
      "multimedia_elements" in r && r["multimedia_elements"] == List(MultimediaSuggestions(req, replies.multimedia))
    ensures "multimedia_elements" in content && !(engineExists && replies.enhancement.Ok? && RichFormat(req.contentFormat)) ==>
      r["multimedia_elements"] == content["multimedia_elements"]
  {
    if !engineExists then content["adk_enhancement" := UnavailableMarker()]
    else if replies.enhancement.Err? then content["adk_enhancement" := FailedMarker()]
    else
      var enhanced := content["adk_enhancement" := replies.enhancement.value];
      if RichFormat(req.contentFormat) then
        enhanced["multimedia_elements" := List(MultimediaSuggestions(req, replies.multimedia))]
      else enhanced
  }

  const ReviewAgeAppropriate := "Review content for age-appropriateness"
  const AddInteractive := "Add interactive elements to increase engagement"

  /** The content-type recommendation of the `elif` chain, if any. */
  function TypeRecommendation(contentType: string): (r: seq<string>)
    ensures |r| <= 1
    ensures |r| == 1 <==> contentType in {"quiz", "presentation", "worksheet"}
  {
    if contentType == "quiz" then ["Include varied question types for comprehensive assessment"]
    else if contentType == "presentation" then ["Use visual aids and minimal text per slide"]
    else if contentType == "worksheet" then ["Provide clear instructions and examples"]
    else []
  }

  /**
   * `_generate_recommendations`: the two fixed items, the content-type item
   * for quizzes, presentations and worksheets, then the engine's list when
   * it returned one of strings, cut to five.
   */
  function GenerateRecommendations(req: ContentRequest, engineUsable: bool, reply: Result<Value, string>): (r: seq<string>)
    ensures 2 + |TypeRecommendation(req.contentType)| <= |r| <= 5
    ensures r[..2] == [ReviewAgeAppropriate, AddInteractive]
    ensures r[2..2 + |TypeRecommendation(req.contentType)|] == TypeRecommendation(req.contentType)
    ensures !engineUsable || reply.Err? ==> |r| == 2 + |TypeRecommendation(req.contentType)|
    ensures engineUsable && reply.Ok? && StringItems(reply.value).Some? ==>
      r[2 + |TypeRecommendation(req.contentType)|..]
        == Take(StringItems(reply.value).value, 3 - |TypeRecommendation(req.contentType)|)
  {
    var base := [ReviewAgeAppropriate, AddInteractive] + TypeRecommendation(req.contentType);
    var r := TopFive(base, if engineUsable && reply.Ok? then StringItems(reply.value) else None);
    assert r[..2] == base[..2];
    assert r[2..|base|] == base[2..];
    r
  }

  /** `_calculate_confidence`, in hundredths: 0.75, plus 0.15 with ADK, plus 0.1 when the content lists learning objectives. */
  function CalculateConfidence(adkEnabled: bool, content: Record): (c: nat)
    ensures 75 <= c <= 100
    ensures c == 100 <==> adkEnabled && Truthy(Get(content, "learning_objectives", Null))
    ensures c == 75 <==> !adkEnabled && !Truthy(Get(content, "learning_objectives", Null))
  {
    CapAtOne(75 + (if adkEnabled then 15 else 0) + (if Truthy(Get(content, "learning_objectives", Null)) then 10 else 0))
  }

  const TestWithAudience := "Test content with sample audience"
  const GatherMultimedia := "Gather multimedia resources"
  const SetUpRubrics := "Set up assessment rubrics"

  /**
   * `_generate_next_steps`: customise the content and test it, then gather
   * multimedia exactly for the multimedia format and set up rubrics
   * exactly for quizzes, in that order.
   */
  function GenerateNextSteps(req: ContentRequest): (steps: seq<string>)
    ensures 2 <= |steps| <= 4
    ensures steps[..2] == ["Review and customize the " + req.contentType, TestWithAudience]
    ensures GatherMultimedia in steps <==> req.contentFormat == "multimedia"
    ensures SetUpRubrics in steps <==> req.contentType == "quiz"
    ensures req.contentType == "quiz" ==> steps[|steps| - 1] == SetUpRubrics
  {
    var steps := ["Review and customize the " + req.contentType, TestWithAudience]
      + (if req.contentFormat == "multimedia" then [GatherMultimedia] else [])
      + (if req.contentType == "quiz" then [SetUpRubrics] else []);
    assert steps[0][0] == 'R' && GatherMultimedia[0] == 'G' && SetUpRubrics[0] == 'S';
    steps
  }

  /** The `ContentResponse` fields the policies decide; confidence in hundredths. */
  datatype ContentResponse = ContentResponse(
    content: Record,
    fallbackError: Option<string>,
    recommendations: seq<string>,
    nextSteps: seq<string>,
    confidence: nat)

  /**
   * `_generate_fallback_response`: basic content that only echoes the
   * request's type, topic and duration, marked as a fallback; confidence
   * 0.4.
   */
  function FallbackResponse(req: ContentRequest, error: string): (resp: ContentResponse)
    ensures resp.content.Keys == {"title", "type", "content", "duration", "status"}
    ensures resp.content["title"] == Str("Basic " + req.contentType + " for " + req.topic)
    ensures resp.content["type"] == Str(req.contentType) && resp.content["duration"] == Int(req.duration)
    ensures resp.content["status"] == Str("fallback_generated")
    ensures resp.fallbackError == Some(error)
    ensures |resp.recommendations| == 1 && |resp.nextSteps| == 2
    ensures resp.confidence == 40
  {
    ContentResponse(
      map[
        "title" := Str("Basic " + req.contentType + " for " + req.topic),
        "type" := Str(req.contentType),
        "content" := Str("Introduction to " + req.topic),
        "duration" := Int(req.duration),
        "status" := Str("fallback_generated")],
      Some(error),
      ["Review and enhance manually"],
      ["Add detailed content", "Include multimedia elements"],
      40)
  }

  /**
   * `handle_content_request`: generate the content, enhance it when ADK is
   * enabled, then attach recommendations, confidence and next steps; when
   * generation raises, the fallback response carries the error.
   */
  function HandleContentRequest(
    req: ContentRequest, adkEnabled: bool, engineExists: bool,
    generated: Result<Record, string>, replies: EngineReplies): (resp: ContentResponse)
    ensures resp.fallbackError.Some? <==> generated.Err?
    ensures generated.Err? ==> resp == FallbackResponse(req, generated.error)
    ensures generated.Ok? ==>
      && resp.nextSteps == GenerateNextSteps(req)
      && 75 <= resp.confidence
      && generated.value.Keys <= resp.content.Keys
      && ("adk_enhancement" in resp.content <==> adkEnabled || "adk_enhancement" in generated.value)
  {
    match generated
    case Err(e) => FallbackResponse(req, e)
    case Ok(content) =>
      var enhanced := if adkEnabled then EnhanceWithAdk(content, req, engineExists, replies) else content;
      ContentResponse(
        enhanced,
        None,
        GenerateRecommendations(req, adkEnabled && engineExists, replies.recommendations),
        GenerateNextSteps(req),
        CalculateConfidence(adkEnabled, enhanced))
  }
}
