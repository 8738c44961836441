/**
 * The activities service: interactive stories (validation, cleaning and
 * defaulting the model's JSON, the word-capped fallbacks), AR scenes
 * (defaulting and fallbacks), and badges (classification, the duplicate
 * check of `assign_badge`, the display helpers) plus the activity-type
 * filter. The language model, `json.loads`, text-to-speech and the DAO's
 * ids are oracles.
 */
module ActivitiesService {
  import opened Wrappers
  import opened Text
  import opened Values
  import opened DaoErrorHandler

  // ---------------------------------------------------------------------
  // Story requests
  // ---------------------------------------------------------------------

  /** The checks `generate_interactive_story` makes before generating: a grade in 1..12 and a topic that is not blank. */
  function ValidateStoryRequest(grade: int, topic: string): (r: Option<Exception>)
    ensures r.None? <==> 1 <= grade <= 12 && !IsBlank(topic)
    ensures !(1 <= grade <= 12) ==> r == Some(ValueError("Grade must be an integer between 1 and 12"))
  {
    if grade < 1 || grade > 12 then Some(ValueError("Grade must be an integer between 1 and 12"))
    else if IsBlank(topic) then Some(ValueError("Topic cannot be empty"))
    else None
  }

  // ---------------------------------------------------------------------
  // Cleaning the model's reply
  // ---------------------------------------------------------------------

  const Fence := "```"
  const JsonFence := "```json"

  /**
   * The cleaning in `_parse_story_response`: strip, drop a leading
   * "```json", then a leading "```", then a trailing "```", and strip
   * again.
   */
  function CleanStoryResponse(response: string): (r: string)
    ensures |r| <= |response|
  {
    var t := Strip(response);
    var t1 := if StartsWith(t, JsonFence) then t[7..] else t;
    var t2 := if StartsWith(t1, Fence) then t1[3..] else t1;
    var t3 := if EndsWith(t2, Fence) then t2[..|t2| - 3] else t2;
    Strip(t3)
  }

  /** A reply wrapped in a "```json" fence comes out as the stripped text inside it. */
  lemma FencedReplyUnwraps(body: string)
    requires body == [] || body[0] != '`'
    ensures CleanStoryResponse(JsonFence + body + Fence) == Strip(body)
  {
    var s := JsonFence + body + Fence;
    StripLeftNoop(s, Whitespace);
    StripRightNoop(s, Whitespace);
    assert Strip(s) == s;
    assert s[..7] == JsonFence;
    var t1 := s[7..];
    assert t1 == body + Fence;
    if body == [] {
      assert t1 == Fence;
      assert t1[3..] == [];
    } else {
      assert !StartsWith(t1, Fence) by { assert t1[0] == body[0]; }
      assert EndsWith(t1, Fence) by { assert t1[|t1| - 3..] == Fence; }
      assert t1[..|t1| - 3] == body;
    }
  }

  /** A reply with no backquote at either end is only stripped. */
  lemma UnfencedReplyIsStripped(response: string)
    requires var t := Strip(response); t == [] || (t[0] != '`' && t[|t| - 1] != '`')
    ensures CleanStoryResponse(response) == Strip(response)
  {
    var t := Strip(response);
    if t != [] {
      assert !StartsWith(t, JsonFence) && !StartsWith(t, Fence) by { assert t[0] != JsonFence[0]; }
      assert !EndsWith(t, Fence) by { assert t[|t| - 1] != Fence[2]; }
    }
    StripCharsIdempotent(response, Whitespace);
  }

  // ---------------------------------------------------------------------
  // Story defaults
  // ---------------------------------------------------------------------

  /**
   * A parsed story: the fields `_parse_story_response` guarantees, which
   * are all the rest of the service reads from it.
   */
  datatype Story = Story(
    title: Value,
    storyText: string,
    thinkAboutIt: Value,
    whatYouLearn: Value,
    learningObjectives: seq<Value>,
    vocabularyWords: seq<Value>,
    subject: Value)

  /**
   * The text fields the model may return as a list: a missing field gets
   * its default, a list is `" ".join`ed (which raises unless every item is
   * a string), anything else is kept.
   */
  function TextField(m: Record, key: string, default: string): (r: Result<Value, string>)
    ensures r.Err? <==> key in m && m[key].List? && StringItems(m[key]).None?
    ensures r.Ok? && key !in m ==> r.value == Str(default)
    ensures r.Ok? && key in m && m[key].List? ==> r.value == Str(Join(" ", StringItems(m[key]).value))
    ensures key in m && !m[key].List? ==> r == Ok(m[key])
  {
    if key !in m then Ok(Str(default))
    else if !m[key].List? then Ok(m[key])
    else match StringItems(m[key])
      case None => Err("sequence item: expected str instance")
      case Some(items) => Ok(Str(Join(" ", items)))
  }

  /** The list fields the model may return as a single value: a missing field gets its default, a non-list is wrapped in a list. */
  function ListField(m: Record, key: string, default: seq<Value>): (r: seq<Value>)
    ensures key !in m ==> r == default
    ensures key in m && m[key].List? ==> r == m[key].items
    ensures key in m && !m[key].List? ==> r == [m[key]]
  {
    if key !in m then default
    else if m[key].List? then m[key].items
    else [m[key]]
  }

  /**
   * The defaulting in `_parse_story_response`, applied to a decoded dict:
   * every missing story field gets a default built from the topic, fields
   * the model returned with the right type are kept, and the parse raises
   * when a list it must join holds a non-string or when the story text is
   * not a string (its word count calls `split`).
   */
  function FillStoryDefaults(m: Record, topic: string): (r: Result<Story, string>)
    ensures r.Err? <==>
      || ("think_about_it" in m && m["think_about_it"].List? && StringItems(m["think_about_it"]).None?)
      || ("what_you_learn" in m && m["what_you_learn"].List? && StringItems(m["what_you_learn"]).None?)
      || ("story_text" in m && !m["story_text"].Str?)
    ensures r.Ok? ==> r.value.title == Get(m, "title", Str("Learning Adventure: " + topic))
    ensures r.Ok? && "story_text" in m ==> Str(r.value.storyText) == m["story_text"]
    ensures r.Ok? && "subject" in m ==> r.value.subject == m["subject"]
    ensures r.Ok? && "subject" !in m ==> r.value.subject == Str(topic)
    ensures r.Ok? && "think_about_it" in m && m["think_about_it"].Str? ==> r.value.thinkAboutIt == m["think_about_it"]
    ensures r.Ok? && "learning_objectives" in m && m["learning_objectives"].List? ==>
      r.value.learningObjectives == m["learning_objectives"].items
  {
    var storyText := Get(m, "story_text", Str("Let's explore the wonderful world of " + topic + "!"));
    match TextField(m, "think_about_it", "Think about how " + topic + " relates to your daily life.")
    case Err(e) => Err(e)
    case Ok(think) =>
      match TextField(m, "what_you_learn", "You will learn important concepts about " + topic + ".")
      case Err(e) => Err(e)
      case Ok(learn) =>
        if !storyText.Str? then Err("'" + TypeName(storyText) + "' object has no attribute 'split'")
        else
          Ok(Story(
            Get(m, "title", Str("Learning Adventure: " + topic)),
            storyText.s,
            think,
            learn,
            ListField(m, "learning_objectives", [Str("Learn about " + topic)]),
            ListField(m, "vocabulary_words", []),
            Get(m, "subject", Str(topic))))
  }

  // ---------------------------------------------------------------------
  // Word caps and the fallback stories
  // ---------------------------------------------------------------------

  /** The number of words the fallback story keeps for a grade. */
  function StoryLength(grade: int): (n: nat)
    ensures n == 300 <==> grade <= 3
    ensures n == 400 <==> 3 < grade <= 6
    ensures n == 500 <==> grade > 6
  {
    if grade <= 3 then 300 else if grade <= 6 then 400 else 500
  }

  /**
   * The trimming in `_create_fallback_story`: a text with more than `cap`
   * words becomes its first `cap` words joined by single spaces with "..."
   * glued to the last one; a shorter text is kept as it is.
   */
  function TrimStory(text: string, cap: nat): (r: string)
    ensures |Words(text)| <= cap ==> r == text
    ensures |Words(text)| > cap > 0 ==>
      Words(r) == Words(text)[..cap - 1] + [Words(text)[cap - 1] + "..."]
  {
    var ws := Words(text);
    if |ws| > cap then
      var r := Join(" ", ws[..cap]) + "...";
      if cap > 0 then
        WordsAreWords(text);
        TrimmedWords(ws, cap);
        r
      else r
    else text
  }

  lemma TrimmedWords(ws: seq<string>, cap: nat)
    requires 0 < cap < |ws|
    requires forall w :: w in ws ==> IsWord(w)
    ensures Words(Join(" ", ws[..cap]) + "...") == ws[..cap - 1] + [ws[cap - 1] + "..."]
  {
    var parts := ws[..cap];
    JoinAppendLast(" ", parts, "...");
    var glued := parts[..cap - 1] + [parts[cap - 1] + "..."];
    assert parts[..cap - 1] == ws[..cap - 1];
    forall k | 0 <= k < |glued| ensures IsWord(glued[k]) {
      if k < cap - 1 {
        assert glued[k] == ws[k];
      } else {
        var w := ws[cap - 1];
        assert IsWord(w);
        assert glued[k] == w + "...";
        assert '.' !in Whitespace;
      }
    }
    WordsOfJoin(glued);
  }

  /** `" ".join(text.split()[:cap])`: the first `cap` words, single-spaced. */
  function CapWords(text: string, cap: nat): (r: string)
    ensures Words(r) == Take(Words(text), cap)
  {
    var ws := Take(Words(text), cap);
    WordsAreWords(text);
    assert forall k :: 0 <= k < |ws| ==> ws[k] in Words(text);
    WordsOfJoin(ws);
    Join(" ", ws)
  }

  /**
   * The prose of a fallback template once the topic is filled in: the
   * story, the questions to think about and the learning summary.
   */
  datatype FallbackProse = FallbackProse(story: string, thinkAboutIt: string, whatYouLearn: string)

  function TopicVocabulary(topic: string, more: seq<string>): seq<Value>
  {
    [Str(Lower(topic))] + seq(|more|, i requires 0 <= i < |more| => Str(more[i]))
  }

  /**
   * `_create_fallback_story_data`, what an undecodable reply parses to: the
   * template story cut to 250 words up to grade 3 and 350 up to grade 6
   * (re-spaced in both cases), uncut above grade 6.
   */
  function FallbackStoryData(grade: int, topic: string, prose: FallbackProse): (s: Story)
    ensures grade <= 3 ==> Words(s.storyText) == Take(Words(prose.story), 250)
    ensures 3 < grade <= 6 ==> Words(s.storyText) == Take(Words(prose.story), 350)
    ensures grade > 6 ==> s.storyText == prose.story
    ensures s.subject == Str(topic) && |s.learningObjectives| == 4 && |s.vocabularyWords| == 8
  {
    Story(
      Str("Understanding " + topic + ": A Comprehensive Learning Experience"),
      if grade <= 3 then CapWords(prose.story, 250)
      else if grade <= 6 then CapWords(prose.story, 350)
      else prose.story,
      Str(prose.thinkAboutIt),
      Str(prose.whatYouLearn),
      [ Str("Understand fundamental concepts of " + topic),
        Str("Identify real-world applications of " + topic),
        Str("Appreciate the importance of " + topic + " in our world"),
        Str("Develop critical thinking skills related to " + topic) ],
      TopicVocabulary(topic, ["concepts", "principles", "applications", "discovery", "investigation", "understanding", "knowledge"]),
      Str(topic))
  }

  /** What `generate_interactive_story` returns: the story, where its audio is, and the request it answers. */
  datatype StoryResult = StoryResult(
    storyId: string,
    story: Story,
    audioFilename: string,
    gradeLevel: int,
    topic: string,
    language: string)

  /**
   * `_create_fallback_story`: the template story trimmed to the grade's
   * length, with the fallback audio file.
   */
  function FallbackStory(grade: int, topic: string, language: string, prose: FallbackProse, storyId: string): (r: StoryResult)
    ensures |Words(prose.story)| > StoryLength(grade) ==> |Words(r.story.storyText)| == StoryLength(grade)
    ensures |Words(prose.story)| <= StoryLength(grade) ==> r.story.storyText == prose.story
    ensures r.audioFilename == "fallback_audio.mp3"
    ensures r.gradeLevel == grade && r.topic == topic && r.language == language
  {
    var text := TrimStory(prose.story, StoryLength(grade));
    StoryResult(
      storyId,
      Story(
        Str("Discovering the World of " + topic + ": An Educational Adventure"),
        text,
        Str(prose.thinkAboutIt),
        Str(prose.whatYouLearn),
        [ Str("Understand the basic principles and concepts of " + topic),
          Str("Explore real-world applications and examples of " + topic),
          Str("Develop critical thinking skills related to " + topic),
          Str("Make connections between " + topic + " and other subjects") ],
        TopicVocabulary(topic, ["concepts", "principles", "applications", "connections", "research", "discovery", "understanding"]),
        Str(topic)),
      "fallback_audio.mp3",
      grade,
      topic,
      language)
  }

  /**
   * `_parse_story_response`: clean the reply and decode it; a reply that
   * does not decode parses to the fallback story data, a decoded dict gets
   * its defaults, and anything else decoded makes the defaulting raise.
   */
  function ParseStoryResponse(
    response: string, grade: int, topic: string, decode: string -> Option<Value>, prose: FallbackProse): (r: Result<Story, string>)
    ensures decode(CleanStoryResponse(response)).None? ==> r == Ok(FallbackStoryData(grade, topic, prose))
    ensures decode(CleanStoryResponse(response)).Some? && decode(CleanStoryResponse(response)).value.Obj? ==>
      r == FillStoryDefaults(decode(CleanStoryResponse(response)).value.fields, topic)
    ensures decode(CleanStoryResponse(response)).Some? && !decode(CleanStoryResponse(response)).value.Obj? ==> r.Err?
  {
    match decode(CleanStoryResponse(response))
    case None => Ok(FallbackStoryData(grade, topic, prose))
    case Some(Obj(m)) => FillStoryDefaults(m, topic)
    case Some(v) => Err("'" + TypeName(v) + "' object does not support item assignment")
  }

  /**
   * `generate_interactive_story`: an invalid grade or topic raises (and
   * leaves through the service decorator); after that every failure (the
   * model call, an empty reply, a parse that raises, the save) yields the
   * fallback story, so a valid request always gets a story.
   */
  function GenerateInteractiveStory(
    grade: int, topic: string, language: string,
    reply: Result<string, string>, decode: string -> Option<Value>, dataProse: FallbackProse,
    audioFilename: string, saved: Result<string, string>,
    storyProse: FallbackProse, fallbackId: string): (r: Result<StoryResult, string>)
    ensures r.Err? <==> ValidateStoryRequest(grade, topic).Some?
    ensures r.Ok? ==> r.value.gradeLevel == grade && r.value.topic == topic && r.value.language == language
    ensures r.Ok? && (reply.Err? || reply.value == [] || saved.Err?) ==>
      r.value == FallbackStory(grade, topic, language, storyProse, fallbackId)
    ensures (r.Ok? && reply.Ok? && reply.value != [] && saved.Ok? &&
      ParseStoryResponse(reply.value, grade, topic, decode, dataProse).Ok?) ==>
      r.value == StoryResult(saved.value, ParseStoryResponse(reply.value, grade, topic, decode, dataProse).value,
        audioFilename, grade, topic, language)
  {
    var outcome: Result<StoryResult, Exception> :=
      match ValidateStoryRequest(grade, topic)
      case Some(e) => Err(e)
      case None =>
        var fallback := FallbackStory(grade, topic, language, storyProse, fallbackId);
        if reply.Err? || reply.value == [] then Ok(fallback)
        else match ParseStoryResponse(reply.value, grade, topic, decode, dataProse)
          case Err(_) => Ok(fallback)
          case Ok(story) =>
            if saved.Err? then Ok(fallback)
            else Ok(StoryResult(saved.value, story, audioFilename, grade, topic, language));
    HandleServiceDaoErrors("generate_interactive_story", outcome)
  }

  // ---------------------------------------------------------------------
  // AR scenes
  // ---------------------------------------------------------------------

  /** The fields every scene `_parse_ar_response` returns is guaranteed to have. */
  predicate HasSceneFields(scene: Record)
  {
    "scene_name" in scene && "environment" in scene && "objects" in scene && "interactions" in scene
  }

  /** The value `_parse_ar_response` gives each scene field the model left out. */
  function SceneDefaults(topic: string): (d: Record)
    ensures HasSceneFields(d)
  {
    map[
      "scene_name" := Str("Explore " + topic),
      "environment" := Obj(map["setting" := Str("A 3D learning environment for " + topic)]),
      "objects" := List([]),
      "interactions" := List([])]
  }

  /**
   * The defaulting in `_parse_ar_response`: a missing name, environment,
   * object list or interaction list gets its default; everything the model
   * returned is kept as it is, and nothing else is added.
   */
  function FillSceneDefaults(m: Record, topic: string): (r: Record)
    ensures HasSceneFields(r)
    ensures r.Keys == m.Keys + SceneDefaults(topic).Keys
    ensures forall k :: k in m ==> r[k] == m[k]
    ensures forall k :: k in r && k !in m ==> r[k] == SceneDefaults(topic)[k]
  {
    SceneDefaults(topic) + m
  }

  /** Defaulting a scene a second time changes nothing. */
  lemma FillSceneDefaultsIdempotent(m: Record, topic: string)
    ensures FillSceneDefaults(FillSceneDefaults(m, topic), topic) == FillSceneDefaults(m, topic)
  {
    var once := FillSceneDefaults(m, topic);
    assert FillSceneDefaults(once, topic).Keys == once.Keys;
  }

  /** `_create_fallback_ar_data`: a named scene with a bare setting and no objects or interactions. */
  function FallbackArData(topic: string): (r: Record)
    ensures HasSceneFields(r)
    ensures r["objects"] == List([]) && r["interactions"] == List([])
  {
    map[
      "scene_name" := Str("Explore " + topic),
      "environment" := Obj(map["setting" := Str("Learning space for " + topic)]),
      "objects" := List([]),
      "interactions" := List([])]
  }

  /** `grade_level or "flexible"`: a missing or zero grade reads as flexible. */
  function GradeOrFlexible(gradeLevel: Option<int>): (v: Value)
    ensures v == Str("flexible") <==> gradeLevel.None? || gradeLevel.value == 0
  {
    if gradeLevel.Some? && gradeLevel.value != 0 then Int(gradeLevel.value) else Str("flexible")
  }

  /**
   * `_create_fallback_ar_scene`: one display object and one exploration
   * interaction about the topic, with its own fresh id.
   */
  function FallbackArScene(topic: string, gradeLevel: Option<int>, sceneId: string): (r: Record)
    ensures HasSceneFields(r) && "scene_id" in r
    ensures r["scene_id"] == Str(sceneId)
    ensures "grade_level" in r && r["grade_level"] == GradeOrFlexible(gradeLevel)
  {
    map[
      "scene_id" := Str(sceneId),
      "scene_name" := Str("Explore " + topic),
      "educational_objective" := Str("Learn about " + topic + " through immersive experience"),
      "environment" := Obj(map[
        "setting" := Str("A 3D classroom environment focused on " + topic),
        "lighting" := Str("Bright and welcoming"),
        "atmosphere" := Str("Educational and engaging")]),
      "objects" := List([Obj(map[
        "name" := Str(topic + " Display"),
        "description" := Str("Interactive display about " + topic),
        "interactions" := StrList(["Touch to explore", "Rotate to view"]),
        "learning_purpose" := Str("Understand " + topic + " concepts")])]),
      "interactions" := List([Obj(map[
        "type" := Str("exploration"),
        "description" := Str("Walk around and discover"),
        "learning_outcome" := Str("Basic understanding of " + topic),
        "feedback_mechanism" := Str("Visual highlights and audio cues")])]),
      "grade_level" := GradeOrFlexible(gradeLevel)]
  }

  /**
   * `_parse_ar_response`: a reply that does not decode parses to the
   * fallback AR data and a decoded dict gets its defaults; any other decoded
   * value makes the membership tests or the assignments raise.
   */
  function ParseArResponse(response: string, topic: string, decode: string -> Option<Value>): (r: Result<Record, string>)
    ensures r.Ok? ==> HasSceneFields(r.value)
    ensures r.Err? <==> decode(response).Some? && !decode(response).value.Obj?
    ensures decode(response).None? ==> r == Ok(FallbackArData(topic))
    ensures decode(response).Some? && decode(response).value.Obj? ==>
      r == Ok(FillSceneDefaults(decode(response).value.fields, topic))
  {
    match decode(response)
    case None => Ok(FallbackArData(topic))
    case Some(Obj(m)) => Ok(FillSceneDefaults(m, topic))
    case Some(v) => Err("'" + TypeName(v) + "' object does not support item assignment")
  }

  /**
   * `generate_ar_scene`: a blank topic raises through the service
   * decorator; otherwise the parsed scene, saved, comes back under the id
   * the save returned (the scene's own fields written after it), and any
   * failure on the way yields the fallback scene. Every scene returned has
   * an id, a name, an environment, objects and interactions.
   */
  function GenerateArScene(
    topic: string, gradeLevel: Option<int>, reply: Result<string, string>,
    decode: string -> Option<Value>, saved: Result<string, string>, fallbackId: string): (r: Result<Record, string>)
    ensures r.Err? <==> IsBlank(topic)
    ensures r.Ok? ==> HasSceneFields(r.value) && "scene_id" in r.value
    ensures r.Ok? && (reply.Err? || saved.Err?) ==> r.value == FallbackArScene(topic, gradeLevel, fallbackId)
    ensures r.Ok? && reply.Ok? && saved.Ok? && ParseArResponse(reply.value, topic, decode).Ok? ==>
      var scene := ParseArResponse(reply.value, topic, decode).value;
      && r.value.Keys == scene.Keys + {"scene_id"}
      && (forall k :: k in scene ==> r.value[k] == scene[k])
      && ("scene_id" !in scene ==> r.value["scene_id"] == Str(saved.value))
  {
    if IsBlank(topic) then
      HandleServiceDaoErrors("generate_ar_prompt", Err(ValueError("Topic cannot be empty")))
    else
      var fallback := FallbackArScene(topic, gradeLevel, fallbackId);
      if reply.Err? || saved.Err? then Ok(fallback)
      else match ParseArResponse(reply.value, topic, decode)
        case Err(_) => Ok(fallback)
        case Ok(scene) => Ok(map["scene_id" := Str(saved.value)] + scene)
  }

  // ---------------------------------------------------------------------
  // Badges
  // ---------------------------------------------------------------------

  /** The four badge types, with the points each is worth (`_calculate_badge_points`). */
  datatype BadgeType = Achievement | Consistency | Mastery | Participation
  {
    function Name(): string
    {
      match this
      case Achievement => "achievement"
      case Consistency => "consistency"
      case Mastery => "mastery"
      case Participation => "participation"
    }

    function Points(): nat
    {
      match this
      case Participation => 10
      case Consistency => 25
      case Achievement => 50
      case Mastery => 100
    }
  }

  /** The badge-name keywords, tested on the lower-cased name. */
  predicate Mentions(badgeName: string, word: string)
  {
    Contains(Lower(badgeName), word)
  }

  /**
   * `_determine_badge_type`: achievement/complete, else streak/daily, else
   * master/expert, else participation; the first group that matches wins.
   */
  function DetermineBadgeType(badgeName: string): (t: BadgeType)
    ensures t == Achievement <==> Mentions(badgeName, "achievement") || Mentions(badgeName, "complete")
    ensures t == Participation <==>
      !(Mentions(badgeName, "achievement") || Mentions(badgeName, "complete") || Mentions(badgeName, "streak")
        || Mentions(badgeName, "daily") || Mentions(badgeName, "master") || Mentions(badgeName, "expert"))
  {
    if Mentions(badgeName, "achievement") || Mentions(badgeName, "complete") then Achievement
    else if Mentions(badgeName, "streak") || Mentions(badgeName, "daily") then Consistency
    else if Mentions(badgeName, "master") || Mentions(badgeName, "expert") then Mastery
    else Participation
  }

  /** `_calculate_badge_points`: 10, 25, 50 or 100 by type; a mastery badge is worth the most. */
  function BadgePoints(badgeName: string): (p: nat)
    ensures p in {10, 25, 50, 100}
    ensures p == 10 <==> DetermineBadgeType(badgeName) == Participation
    ensures p == 100 <==> DetermineBadgeType(badgeName) == Mastery
  {
    DetermineBadgeType(badgeName).Points()
  }

  /** `_get_badge_rarity`: master/expert is rare, else achievement is uncommon, else common. */
  function BadgeRarity(badgeName: string): (r: string)
    ensures r == "rare" <==> Mentions(badgeName, "master") || Mentions(badgeName, "expert")
    ensures r == "uncommon" <==> Mentions(badgeName, "achievement") && !(Mentions(badgeName, "master") || Mentions(badgeName, "expert"))
    ensures r in {"rare", "uncommon", "common"}
  {
    if Mentions(badgeName, "master") || Mentions(badgeName, "expert") then "rare"
    else if Mentions(badgeName, "achievement") then "uncommon"
    else "common"
  }

  /** Every mastery badge is rare, and every uncommon badge is an achievement badge. */
  lemma RarityFollowsType(badgeName: string)
    ensures DetermineBadgeType(badgeName) == Mastery ==> BadgeRarity(badgeName) == "rare"
    ensures BadgeRarity(badgeName) == "uncommon" ==> DetermineBadgeType(badgeName) == Achievement
  {
  }

  /**
   * The two classifications test the keywords in different orders, so a
   * rare badge need not be a mastery badge: a "daily_expert" badge is a
   * consistency badge worth 25 points.
   */
  lemma RareNeedNotBeMastery(badgeName: string)
    requires Mentions(badgeName, "daily") && Mentions(badgeName, "expert")
    requires !Mentions(badgeName, "achievement") && !Mentions(badgeName, "complete")
    ensures DetermineBadgeType(badgeName) == Consistency
    ensures BadgeRarity(badgeName) == "rare" && BadgePoints(badgeName) == 25
  {
  }

  /** `_get_badge_description`. */
  function BadgeDescription(badgeName: string): (d: string)
    ensures StartsWith(d, "Earned the '" + badgeName + "'")
  {
    var lead := "Earned the '" + badgeName + "'";
    var d := lead + " badge for outstanding achievement!";
    assert d[..|lead|] == lead;
    d
  }

  /** `_get_badge_display_name`: underscores become spaces, then each word is title-cased. */
  function DisplayName(badgeName: string): (r: string)
    ensures |r| == |badgeName|
    ensures '_' !in r
    ensures forall i :: 0 <= i < |r| && !IsLetter(badgeName[i]) && badgeName[i] != '_' ==> r[i] == badgeName[i]
  {
    var spaced := ReplaceChar(badgeName, '_', ' ');
    TitleFromKeepsNonLetters(spaced, false);
    TitleFrom(spaced, false)
  }

  /** `_get_badge_icon_url`: the icon of the badge's type. */
  function IconUrl(badgeName: string): (u: string)
    ensures StartsWith(u, "/static/badges/" + DetermineBadgeType(badgeName).Name())
    ensures EndsWith(u, "_badge.png")
  {
    "/static/badges/" + DetermineBadgeType(badgeName).Name() + "_badge.png"
  }

  /**
   * The dict `assign_badge` hands the DAO: the name, the criteria (an empty
   * dict when none or empty ones were given), and the four classifications.
   */
  function BadgeData(badgeName: string, criteria: Option<Record>): (d: Record)
    ensures "badge" in d && d["badge"] == Str(badgeName)
    ensures "points_earned" in d && d["points_earned"] == Int(BadgePoints(badgeName))
  {
    map[
      "badge" := Str(badgeName),
      "criteria_met" := Obj(if criteria.Some? then criteria.value else map[]),
      "badge_type" := Str(DetermineBadgeType(badgeName).Name()),
      "points_earned" := Int(BadgePoints(badgeName)),
      "description" := Str(BadgeDescription(badgeName)),
      "rarity" := Str(BadgeRarity(badgeName))]
  }

  /**
   * The badge document as the DAO stores and reads it back: the badge data
   * with the owner, the assignment time, the active status and the
   * document id.
   */
  function StoredBadge(userId: string, badgeName: string, criteria: Option<Record>, badgeId: string, now: string): (d: Record)
    ensures "badge" in d && d["badge"] == Str(badgeName)
    ensures "assigned_at" in d && d["assigned_at"] == DateTime(now)
  {
    BadgeData(badgeName, criteria)
      + map["user_id" := Str(userId), "assigned_at" := DateTime(now), "status" := Str("active"), "badge_id" := Str(badgeId)]
  }

  /** `badge.get("badge") == badge_name` for some badge of the list. */
  predicate HasBadgeNamed(badges: seq<Record>, badgeName: string)
  {
    exists i :: 0 <= i < |badges| && Get(badges[i], "badge", Null) == Str(badgeName)
  }

  /** No two badges of the list carry the same name. */
  predicate DistinctBadgeNames(badges: seq<Record>)
  {
    forall i, j :: 0 <= i < j < |badges| ==> Get(badges[i], "badge", Null) != Get(badges[j], "badge", Null)
  }

  /** A badge just stored is found by the duplicate check. */
  lemma StoredBadgeIsFound(badges: seq<Record>, userId: string, badgeName: string, criteria: Option<Record>, badgeId: string, now: string)
    ensures HasBadgeNamed(badges + [StoredBadge(userId, badgeName, criteria, badgeId, now)], badgeName)
  {
    var all := badges + [StoredBadge(userId, badgeName, criteria, badgeId, now)];
    assert Get(all[|badges|], "badge", Null) == Str(badgeName);
  }

  /** Appending a badge whose name the list does not hold keeps the names distinct. */
  lemma AppendNewNameKeepsDistinct(badges: seq<Record>, added: Record, badgeName: string)
    requires DistinctBadgeNames(badges)
    requires !HasBadgeNamed(badges, badgeName)
    requires Get(added, "badge", Null) == Str(badgeName)
    ensures DistinctBadgeNames(badges + [added])
  {
    var all := badges + [added];
    forall i, j | 0 <= i < j < |all|
      ensures Get(all[i], "badge", Null) != Get(all[j], "badge", Null)
    {
      if j == |badges| {
        assert all[i] == badges[i];
      } else {
        assert all[i] == badges[i] && all[j] == badges[j];
      }
    }
  }

  /** The duplicate check of `assign_badge`: a scan for a badge of the given name. */
  method FindBadgeNamed(badges: seq<Record>, badgeName: string) returns (found: bool)
    ensures found <==> HasBadgeNamed(badges, badgeName)
  {
    var i := 0;
    while i < |badges|
      invariant 0 <= i <= |badges|
      invariant forall j :: 0 <= j < i ==> Get(badges[j], "badge", Null) != Str(badgeName)
    {
      if Get(badges[i], "badge", Null) == Str(badgeName) {
        return true;
      }
      i := i + 1;
    }
    return false;
  }

  /** Every badge of the list can be decorated by `enhance`. */
  predicate AllDecorated(stored: seq<Record>, enhance: Record -> Result<Record, string>)
  {
    forall i :: 0 <= i < |stored| ==> enhance(stored[i]).Ok?
  }

  /** The decorating loop of `get_user_badges`: stops at the first badge that cannot be decorated. */
  method EnhanceBadges(stored: seq<Record>, enhance: Record -> Result<Record, string>) returns (r: Result<seq<Record>, string>)
    ensures r.Ok? <==> AllDecorated(stored, enhance)
    ensures r.Ok? ==> |r.value| == |stored| && forall i :: 0 <= i < |stored| ==> enhance(stored[i]) == Ok(r.value[i])
  {
    var enhanced: seq<Record> := [];
    var i := 0;
    while i < |stored|
      invariant 0 <= i <= |stored|
      invariant |enhanced| == i
      invariant forall j :: 0 <= j < i ==> enhance(stored[j]) == Ok(enhanced[j])
    {
      match enhance(stored[i])
      case Err(e) =>
        assert !AllDecorated(stored, enhance);
        return Err(e);
      case Ok(b) =>
        enhanced := enhanced + [b];
      i := i + 1;
    }
    return Ok(enhanced);
  }

  /** A badge as `assign_badge` stores it: a string name and a `datetime` assignment time. */
  predicate IsStoredBadge(b: Record)
  {
    "badge" in b && b["badge"].Str? && "assigned_at" in b && b["assigned_at"].DateTime?
  }

  predicate AllStored(badges: seq<Record>)
  {
    forall i :: 0 <= i < |badges| ==> IsStoredBadge(badges[i])
  }

  /** Appending a stored badge to stored badges keeps them all stored. */
  lemma AppendStoredKeepsStored(badges: seq<Record>, added: Record)
    requires AllStored(badges) && IsStoredBadge(added)
    ensures AllStored(badges + [added])
  {
    var all := badges + [added];
    forall i | 0 <= i < |all| ensures IsStoredBadge(all[i]) {
      if i < |badges| { assert all[i] == badges[i]; }
    }
  }

  /** Replacing one user's badges by a sound list keeps every user's badges sound. */
  lemma PutKeepsBooksSound(books: map<string, seq<Record>>, userId: string, list: seq<Record>)
    requires BooksSound(books)
    requires DistinctBadgeNames(list) && AllStored(list)
    ensures BooksSound(books[userId := list])
  {
  }

  /** Every user's badges have distinct names and are all stored badges. */
  predicate BooksSound(books: map<string, seq<Record>>)
  {
    forall u :: u in books ==> DistinctBadgeNames(books[u]) && AllStored(books[u])
  }

  /** As written, a list holding any stored badge cannot be listed. */
  lemma StoredBadgesBreakListingAsWritten(badges: seq<Record>)
    requires AllStored(badges) && badges != []
    ensures !AllDecorated(badges, EnhanceBadgeAsWritten)
  {
    assert EnhanceBadgeAsWritten(badges[0]).Err?;
  }

  /** With the date derived as intended, every list of stored badges is listed. */
  lemma StoredBadgesAreListed(badges: seq<Record>)
    requires AllStored(badges)
    ensures AllDecorated(badges, EnhanceBadge)
  {
    forall i | 0 <= i < |badges|
      ensures EnhanceBadge(badges[i]).Ok?
    {
      assert IsStoredBadge(badges[i]);
    }
  }

  /**
   * A store exception raised inside `assign_badge`: the DAO decorator of the
   * failing operation classifies it, and the service decorator reports it.
   */
  function StoreFailure(op: string, message: string): (e: string)
    ensures e == "Service 'assign_badge' failed: " + ClassifyException(op, message).Message()
  {
    var raised := HandleDaoErrors(op, Raised(OtherException(message)));
    HandleServiceDaoErrors<Value>("assign_badge", Err(Dao(raised.error))).error
  }

  /** What `assign_badge` reports for a valid request. */
  datatype BadgeAssignment =
    | AlreadyExists(badge: string)
    | Assigned(badgeId: string, badge: string, pointsEarned: nat)

  /**
   * The badges the DAO holds, by user (the `badges` sub-collection of each
   * user's document).
   */
  class BadgeBook {
    var badges: map<string, seq<Record>>

    /** No user holds two badges of the same name. */
    predicate Valid()
      reads this
    {
      BooksSound(badges)
    }

    constructor()
      ensures badges == map[] && Valid()
    {
      badges := map[];
    }

    function BadgesOf(userId: string): seq<Record>
      reads this
    {
      if userId in badges then badges[userId] else []
    }

    /**
     * `assign_badge`: the user id must be present and the name not blank;
     * a badge the user already holds is reported and not stored again;
     * otherwise the badge is stored with its classifications and the
     * points it earns are returned. No user ever holds two badges of the
     * same name. `readFailure` and `writeFailure` are the messages of the
     * exceptions the store raises, if any, when the user's badges are read
     * and when the new badge is written; the service re-raises them.
     */
    method AssignBadge(userId: Option<string>, badgeName: string, criteria: Option<Record>, badgeId: string, now: string,
                       readFailure: Option<string>, writeFailure: Option<string>)
      returns (r: Result<BadgeAssignment, string>)
      requires Valid()
      modifies this
      ensures Valid()
      ensures r.Err? <==>
        || userId.None? || userId.value == [] || IsBlank(badgeName) || readFailure.Some?
        || (!HasBadgeNamed(old(BadgesOf(userId.value)), badgeName) && writeFailure.Some?)
      ensures userId.Some? && userId.value != [] && !IsBlank(badgeName) && readFailure.Some? ==>
        r == Err(StoreFailure("get_user_badges", readFailure.value))
      ensures userId.Some? && userId.value != [] && !IsBlank(badgeName) && readFailure.None?
              && !HasBadgeNamed(old(BadgesOf(userId.value)), badgeName) && writeFailure.Some? ==>
        r == Err(StoreFailure("assign_user_badge", writeFailure.value))
      ensures r.Ok? ==> (r.value.AlreadyExists? <==> HasBadgeNamed(old(BadgesOf(userId.value)), badgeName))
      ensures r.Ok? && r.value.Assigned? ==>
        && r.value == Assigned(badgeId, badgeName, BadgePoints(badgeName))
        && badges == old(badges)[userId.value := old(BadgesOf(userId.value)) + [StoredBadge(userId.value, badgeName, criteria, badgeId, now)]]
      ensures !(r.Ok? && r.value.Assigned?) ==> badges == old(badges)
    {
      var checked := EnsureDocumentId(userId, "user_id");
      if checked.Err? {
        r := HandleServiceDaoErrors("assign_badge", Err(Dao(checked.error)));
        return;
      }
      var uid := checked.value;
      if IsBlank(badgeName) {
        r := HandleServiceDaoErrors("assign_badge", Err(ValueError("Badge name cannot be empty")));
        return;
      }
      if readFailure.Some? {
        r := Err(StoreFailure("get_user_badges", readFailure.value));
        return;
      }
      var existing := BadgesOf(uid);
      var found := FindBadgeNamed(existing, badgeName);
      if found {
        r := Ok(AlreadyExists(badgeName));
        return;
      }
      if writeFailure.Some? {
        r := Err(StoreFailure("assign_user_badge", writeFailure.value));
        return;
      }
      var stored := StoredBadge(uid, badgeName, criteria, badgeId, now);
      AppendNewNameKeepsDistinct(existing, stored, badgeName);
      AppendStoredKeepsStored(existing, stored);
      PutKeepsBooksSound(badges, uid, existing + [stored]);
      badges := badges[uid := existing + [stored]];
      r := Ok(Assigned(badgeId, badgeName, BadgePoints(badgeName)));
    }

    /**
     * `get_user_badges`: every badge of the user, each with its display
     * name, icon and achievement date; one badge that cannot be decorated
     * makes the whole call raise. As written the date is cut from
     * `assigned_at` with `split`, so a user holding any badge gets an error.
     */
    method GetUserBadges(userId: Option<string>) returns (r: Result<seq<Record>, string>)
      ensures r.Ok? <==> userId.Some? && userId.value != [] && AllDecorated(BadgesOf(userId.value), EnhanceBadgeAsWritten)
      ensures r.Ok? ==> (|r.value| == |BadgesOf(userId.value)| &&
        forall i :: 0 <= i < |r.value| ==> EnhanceBadgeAsWritten(BadgesOf(userId.value)[i]) == Ok(r.value[i]))
      ensures Valid() && userId.Some? && BadgesOf(userId.value) != [] ==> r.Err?
    {
      var checked := EnsureDocumentId(userId, "user_id");
      if checked.Err? {
        r := HandleServiceDaoErrors("get_user_badges", Err(Dao(checked.error)));
        return;
      }
      var stored := BadgesOf(checked.value);
      if Valid() && stored != [] {
        StoredBadgesBreakListingAsWritten(stored);
      }
      var listed := EnhanceBadges(stored, EnhanceBadgeAsWritten);
      if listed.Err? {
        r := Err("Service 'get_user_badges' encountered an error: " + listed.error);
      } else {
        r := Ok(listed.value);
      }
    }

    /** `get_user_badges` with the achievement date derived as intended: every stored badge is listed. */
    method GetUserBadgesFixed(userId: Option<string>) returns (r: Result<seq<Record>, string>)
      ensures r.Ok? <==> userId.Some? && userId.value != [] && AllDecorated(BadgesOf(userId.value), EnhanceBadge)
      ensures r.Ok? ==> (|r.value| == |BadgesOf(userId.value)| &&
        forall i :: 0 <= i < |r.value| ==> EnhanceBadge(BadgesOf(userId.value)[i]) == Ok(r.value[i]))
      ensures Valid() && userId.Some? && userId.value != [] ==> r.Ok?
    {
      var checked := EnsureDocumentId(userId, "user_id");
      if checked.Err? {
        r := HandleServiceDaoErrors("get_user_badges", Err(Dao(checked.error)));
        return;
      }
      var stored := BadgesOf(checked.value);
      if Valid() {
        StoredBadgesAreListed(stored);
      }
      var listed := EnhanceBadges(stored, EnhanceBadge);
      if listed.Err? {
        r := Err("Service 'get_user_badges' encountered an error: " + listed.error);
      } else {
        r := Ok(listed.value);
      }
    }
  }

  /** `{**badge, display_name, icon_url, achievement_date}` with the date derived by `date`. */
  function DecorateBadge(b: Record, date: Result<Value, string>): (r: Result<Record, string>)
    ensures r.Ok? <==> Get(b, "badge", Str("")).Str? && date.Ok?
    ensures r.Ok? ==>
      && b.Keys <= r.value.Keys && "display_name" in r.value && "achievement_date" in r.value
      && r.value["display_name"] == Str(DisplayName(Get(b, "badge", Str("")).s))
      && r.value["achievement_date"] == date.value
      && forall k :: k in b && k != "display_name" && k != "icon_url" && k != "achievement_date" ==> r.value[k] == b[k]
  {
    match Get(b, "badge", Str(""))
    case Str(name) =>
      if date.Err? then Err(date.error)
      else Ok(b + map[
        "display_name" := Str(DisplayName(name)),
        "icon_url" := Str(IconUrl(name)),
        "achievement_date" := date.value])
    case other => Err("'" + TypeName(other) + "' object has no attribute 'replace'")
  }

  /** One badge of `get_user_badges`, as written. */
  function EnhanceBadgeAsWritten(b: Record): (r: Result<Record, string>)
    ensures Get(b, "assigned_at", Null).DateTime? ==> r.Err?
    ensures r.Ok? ==>
      DateOfAsWritten(Get(b, "assigned_at", Null)).Ok?
      && "achievement_date" in r.value && r.value["achievement_date"] == DateOfAsWritten(Get(b, "assigned_at", Null)).value
  {
    DecorateBadge(b, DateOfAsWritten(Get(b, "assigned_at", Null)))
  }

  /** One badge of `get_user_badges`, with the date derived as intended. */
  function EnhanceBadge(b: Record): (r: Result<Record, string>)
    ensures r.Ok? <==> Get(b, "badge", Str("")).Str? && DateOf(Get(b, "assigned_at", Null)).Ok?
    ensures r.Ok? ==> "achievement_date" in r.value && r.value["achievement_date"] == DateOf(Get(b, "assigned_at", Null)).value
  {
    DecorateBadge(b, DateOf(Get(b, "assigned_at", Null)))
  }

  /**
   * As written, every badge `assign_badge` stored makes `get_user_badges`
   * raise: its `assigned_at` is a `datetime`, which has no `split`.
   */
  lemma StoredBadgeBreaksListingAsWritten(userId: string, badgeName: string, criteria: Option<Record>, badgeId: string, now: string)
    ensures EnhanceBadgeAsWritten(StoredBadge(userId, badgeName, criteria, badgeId, now)).Err?
  {
  }

  /**
   * With the date derived as intended, every badge `assign_badge` stored
   * is listed with its display name and the date part of its assignment
   * time.
   */
  lemma StoredBadgeIsListed(userId: string, badgeName: string, criteria: Option<Record>, badgeId: string, now: string)
    ensures var r := EnhanceBadge(StoredBadge(userId, badgeName, criteria, badgeId, now));
      && r.Ok?
      && r.value["display_name"] == Str(DisplayName(badgeName))
      && r.value["achievement_date"] == Str(DatePart(now))
  {
  }

  // ---------------------------------------------------------------------
  // Activities
  // ---------------------------------------------------------------------

  /** The activities whose `type` is `activityType`, in their order. */
  function OfType(activities: seq<Record>, activityType: string): (r: seq<Record>)
    ensures |r| <= |activities|
    ensures forall a :: a in r <==> a in activities && Get(a, "type", Null) == Str(activityType)
  {
    if activities == [] then []
    else
      var rest := OfType(activities[1..], activityType);
      assert forall a :: a in activities <==> a == activities[0] || a in activities[1..];
      if Get(activities[0], "type", Null) == Str(activityType) then [activities[0]] + rest else rest
  }

  /**
   * `get_user_activities` after the DAO has fetched the user's recent
   * activities: the user id must be present, and a non-empty type keeps
   * only the activities of that type.
   */
  function GetUserActivities(userId: Option<string>, fetched: seq<Record>, activityType: Option<string>): (r: Result<seq<Record>, string>)
    ensures r.Ok? <==> userId.Some? && userId.value != []
    ensures r.Ok? && (activityType.None? || activityType.value == []) ==> r.value == fetched
    ensures r.Ok? && activityType.Some? && activityType.value != [] ==> r.value == OfType(fetched, activityType.value)
  {
    match EnsureDocumentId(userId, "user_id")
    case Err(e) => HandleServiceDaoErrors("get_user_activities", Err(Dao(e)))
    case Ok(_) =>
      if activityType.Some? && activityType.value != [] then Ok(OfType(fetched, activityType.value)) else Ok(fetched)
  }
}
