/**
 * The visual-aid service (services/visual_aid_service.py): request
 * validation, the prompt enrichment by grade and subject, topic extraction,
 * and the generate, list, search and delete operations over the visual-aid
 * store. The image generator is the model in `ImageGenerator`; ids, the
 * clock and whether the store's write succeeds are parameters.
 */
module VisualAidService {
  import opened Wrappers
  import opened Text
  import opened Values
  import opened DaoErrorHandler
  import opened ImageGenerator
  import opened VisualAidDao

  // ---------------------------------------------------------------- validation

  /** `if grade_level`: a grade of 0 counts as no grade. */
  predicate GradeGiven(grade: Option<int>)
  {
    grade.Some? && grade.value != 0
  }

  /** `if subject`: an empty subject counts as none. */
  predicate SubjectGiven(subject: Option<string>)
  {
    subject.Some? && subject.value != []
  }

  /** The checks at the top of `generate_visual_aid`, in order. */
  function ValidateVisualAidRequest(prompt: string, assetType: string, grade: Option<int>): (r: Result<(), Exception>)
    ensures r.Ok? <==>
      (!IsBlank(prompt) && (assetType == "image" || assetType == "video")
       && !(GradeGiven(grade) && (grade.value < 1 || grade.value > 12)))
    ensures r.Err? ==> r.error.ValueError?
    ensures IsBlank(prompt) ==> r == Err(ValueError("Prompt cannot be empty"))
  {
    if IsBlank(prompt) then Err(ValueError("Prompt cannot be empty"))
    else if assetType != "image" && assetType != "video" then Err(ValueError("Asset type must be 'image' or 'video'"))
    else if GradeGiven(grade) && (grade.value < 1 || grade.value > 12) then Err(ValueError("Grade level must be between 1 and 12"))
    else Ok(())
  }

  // ---------------------------------------------------------------- grade tables

  /** `_get_age_range_for_grade`: the twelve-entry table, "6-18" for any other grade. */
  function AgeRange(grade: int): (r: string)
    ensures !(1 <= grade <= 12) ==> r == "6-18"
  {
    if grade == 1 then "6-7"
    else if grade == 2 then "7-8"
    else if grade == 3 then "8-9"
    else if grade == 4 then "9-10"
    else if grade == 5 then "10-11"
    else if grade == 6 then "11-12"
    else if grade == 7 then "12-13"
    else if grade == 8 then "13-14"
    else if grade == 9 then "14-15"
    else if grade == 10 then "15-16"
    else if grade == 11 then "16-17"
    else if grade == 12 then "17-18"
    else "6-18"
  }

  lemma AgeRangeYoung(grade: int)
    requires 1 <= grade <= 6
    ensures AgeRange(grade) == NatToString(grade + 5) + "-" + NatToString(grade + 6)
  {
  }

  lemma AgeRangeOlder(grade: int)
    requires 7 <= grade <= 12
    ensures AgeRange(grade) == NatToString(grade + 5) + "-" + NatToString(grade + 6)
  {
  }

  /** For each grade the table gives the two ages of that grade's pupils: grade plus five to grade plus six. */
  lemma AgeRangeIsPupilsAges(grade: int)
    requires 1 <= grade <= 12
    ensures AgeRange(grade) == NatToString(grade + 5) + "-" + NatToString(grade + 6)
  {
    if grade <= 6 {
      AgeRangeYoung(grade);
    } else {
      AgeRangeOlder(grade);
    }
  }

  const SimpleVisuals := "simple and colorful"
  const ModerateVisuals := "moderate with clear visuals"
  const DetailedVisuals := "detailed with comprehensive information"
  const AdvancedVisuals := "advanced with sophisticated data representation"

  /** `_get_complexity_for_grade`: four bands, split after grades 3, 6 and 9. */
  function Complexity(grade: int): (r: string)
    ensures r == SimpleVisuals <==> grade <= 3
    ensures r == ModerateVisuals <==> 3 < grade <= 6
    ensures r == DetailedVisuals <==> 6 < grade <= 9
    ensures r == AdvancedVisuals <==> 9 < grade
  {
    if grade <= 3 then SimpleVisuals
    else if grade <= 6 then ModerateVisuals
    else if grade <= 9 then DetailedVisuals
    else AdvancedVisuals
  }

  /** The complexity an infographic asks for: "moderate" when no grade is given. */
  function InfographicComplexity(grade: Option<int>): (r: string)
    ensures !GradeGiven(grade) ==> r == "moderate"
    ensures GradeGiven(grade) ==> r == Complexity(grade.value)
  {
    if GradeGiven(grade) then Complexity(grade.value) else "moderate"
  }

  // ---------------------------------------------------------------- prompt enrichment

  const StyleRequirements: seq<string> :=
    ["Educational illustration style", "Clear, informative, and engaging", "Suitable for classroom use", "Professional educational quality"]

  /** The enhancements of `_enhance_prompt_for_education`: two for a grade, one for a subject, then the four style items. */
  function Enhancements(grade: Option<int>, subject: Option<string>): (r: seq<string>)
    ensures |r| == (if GradeGiven(grade) then 2 else 0) + (if SubjectGiven(subject) then 1 else 0) + 4
    ensures r[|r| - 4..] == StyleRequirements
    ensures GradeGiven(grade) ==>
      r[0] == "Age-appropriate for " + AgeRange(grade.value) + " year olds (grade " + IntToString(grade.value) + ")"
    ensures SubjectGiven(subject) ==> r[|r| - 5] == "Focused on " + subject.value + " education"
  {
    (if GradeGiven(grade) then
       [ "Age-appropriate for " + AgeRange(grade.value) + " year olds (grade " + IntToString(grade.value) + ")",
         "Educational complexity suitable for grade " + IntToString(grade.value) ]
     else [])
    + (if SubjectGiven(subject) then ["Focused on " + subject.value + " education"] else [])
    + StyleRequirements
  }

  /** Joining two non-empty lists is joining each and gluing with the separator. */
  lemma {:induction false} JoinConcat(sep: string, xs: seq<string>, ys: seq<string>)
    requires xs != [] && ys != []
    ensures Join(sep, xs + ys) == Join(sep, xs) + sep + Join(sep, ys)
  {
    if |xs| > 1 {
      JoinConcat(sep, xs[1..], ys);
      assert (xs + ys)[1..] == xs[1..] + ys;
    } else {
      assert (xs + ys)[1..] == ys;
    }
  }

  const StyleHeading := "\n\nStyle requirements: "

  /**
   * `_enhance_prompt_for_education`: the prompt, then the style heading and
   * the enhancements separated by commas.
   */
  function EnhancePrompt(prompt: string, grade: Option<int>, subject: Option<string>): (r: string)
    ensures |r| >= |prompt| + |StyleHeading| && r[..|prompt|] == prompt
  {
    prompt + StyleHeading + Join(", ", Enhancements(grade, subject))
  }

  /** The enhanced prompt keeps the teacher's prompt in front and always ends with the four style items. */
  lemma EnhancedPromptShape(prompt: string, grade: Option<int>, subject: Option<string>)
    ensures StartsWith(EnhancePrompt(prompt, grade, subject), prompt + StyleHeading)
    ensures EndsWith(EnhancePrompt(prompt, grade, subject), Join(", ", StyleRequirements))
  {
    var items := Enhancements(grade, subject);
    var r := EnhancePrompt(prompt, grade, subject);
    assert r[..|prompt + StyleHeading|] == prompt + StyleHeading;
    var tail := Join(", ", StyleRequirements);
    if |items| > 4 {
      assert items == items[..|items| - 4] + StyleRequirements;
      JoinConcat(", ", items[..|items| - 4], StyleRequirements);
      var j := Join(", ", items[..|items| - 4]);
      assert r == (prompt + StyleHeading + j + ", ") + tail;
    } else {
      assert items == StyleRequirements;
      assert r == (prompt + StyleHeading) + tail;
    }
  }

  // ---------------------------------------------------------------- topics

  const TopicPunctuation: set<char> := {'.', ',', '!', '?'}

  /** `_extract_topic_from_prompt`: the first three words, joined by single spaces, without ".,!?" at either end. */
  function ExtractTopic(prompt: string): (r: string)
    ensures r != [] ==> r[0] !in TopicPunctuation && r[|r| - 1] !in TopicPunctuation
  {
    StripChars(Join(" ", Take(Words(prompt), 3)), TopicPunctuation)
  }

  lemma {:induction false} JoinLast(sep: string, parts: seq<string>)
    requires parts != []
    ensures EndsWith(Join(sep, parts), parts[|parts| - 1])
  {
    if |parts| > 1 {
      JoinLast(sep, parts[1..]);
      JoinCons(sep, parts);
      var j := Join(sep, parts[1..]);
      var w := parts[|parts| - 1];
      assert j[|j| - |w|..] == w;
      assert (parts[0] + (sep + j))[|parts[0] + (sep + j)| - |w|..] == j[|j| - |w|..];
    }
  }

  /** A prompt of at most three words that neither starts nor ends with ".,!?" is its own topic. */
  lemma ShortPlainPromptIsItsTopic(ws: seq<string>)
    requires 1 <= |ws| <= 3 && forall k :: 0 <= k < |ws| ==> IsWord(ws[k])
    requires ws[0] != [] && ws[|ws| - 1] != []
    requires ws[0][0] !in TopicPunctuation && ws[|ws| - 1][|ws[|ws| - 1]| - 1] !in TopicPunctuation
    ensures ExtractTopic(Join(" ", ws)) == Join(" ", ws)
  {
    var j := Join(" ", ws);
    WordsOfJoin(ws);
    assert Take(Words(j), 3) == ws;
    JoinHead(ws);
    JoinLast(" ", ws);
    StripLeftNoop(j, TopicPunctuation);
    StripRightNoop(j, TopicPunctuation);
  }

  /** `_format_topic_for_display`, applied to a stored topic: title case, "General" when it is falsy; other values have no `title`. */
  function DisplayTopic(topic: Value): (r: Result<string, string>)
    ensures r.Ok? <==> !Truthy(topic) || topic.Str?
    ensures !Truthy(topic) ==> r == Ok("General")
    ensures topic.Str? && topic.s != [] ==> r == Ok(Title(topic.s)) && |r.value| == |topic.s|
  {
    if !Truthy(topic) then Ok("General")
    else match topic
      case Str(s) => Ok(Title(s))
      case _ => Err("'" + TypeName(topic) + "' object has no attribute 'title'")
  }

  // ---------------------------------------------------------------- listing a user's aids

  /** `{**visual_aid, display_topic, created_date}` with the date derived by `date`. */
  function DecorateAid(aid: Record, date: Result<Value, string>): (r: Result<Record, string>)
    ensures r.Ok? <==> DisplayTopic(Get(aid, "topic", Str(""))).Ok? && date.Ok?
    ensures r.Ok? ==>
      && aid.Keys <= r.value.Keys
      && "display_topic" in r.value && r.value["display_topic"] == Str(DisplayTopic(Get(aid, "topic", Str(""))).value)
      && "created_date" in r.value && r.value["created_date"] == date.value
      && forall k :: k in aid && k != "display_topic" && k != "created_date" ==> r.value[k] == aid[k]
  {
    var shown := DisplayTopic(Get(aid, "topic", Str("")));
    if shown.Err? then Err(shown.error)
    else if date.Err? then Err(date.error)
    else Ok(aid + map["display_topic" := Str(shown.value), "created_date" := date.value])
  }

  /** The decoration of `get_user_visual_aids` as written: the creation date is split as a string. */
  function EnhanceAidAsWritten(aid: Record): (r: Result<Record, string>)
    ensures Truthy(Get(aid, "created_at", Null)) && !Get(aid, "created_at", Null).Str? ==> r.Err?
    ensures r.Ok? ==> "created_date" in r.value && r.value["created_date"] == DateOfAsWritten(Get(aid, "created_at", Null)).value
  {
    DecorateAid(aid, DateOfAsWritten(Get(aid, "created_at", Null)))
  }

  /** The decoration as evidently intended: a stored timestamp gives its date. */
  function EnhanceAid(aid: Record): (r: Result<Record, string>)
    ensures r.Ok? <==> DisplayTopic(Get(aid, "topic", Str(""))).Ok? && DateOf(Get(aid, "created_at", Null)).Ok?
    ensures r.Ok? ==> "created_date" in r.value && r.value["created_date"] == DateOf(Get(aid, "created_at", Null)).value
  {
    DecorateAid(aid, DateOf(Get(aid, "created_at", Null)))
  }

  /** As written, listing fails on every aid the store saved: its `created_at` is a timestamp, which has no `split`. */
  lemma SavedAidBreaksListingAsWritten(data: Record, id: string, now: string)
    ensures EnhanceAidAsWritten(SavedAid(data, id, now)).Err?
  {
    var aid := SavedAid(data, id, now);
    assert Get(aid, "created_at", Null) == DateTime(now);
  }

  /** With the intended decoration, every saved aid with a string topic (or none) is listed, dated by its timestamp. */
  lemma SavedAidIsListed(data: Record, id: string, now: string)
    requires "topic" !in data || data["topic"].Str? || !Truthy(data["topic"])
    ensures EnhanceAid(SavedAid(data, id, now)).Ok?
    ensures EnhanceAid(SavedAid(data, id, now)).value["created_date"] == Str(DatePart(now))
  {
    var aid := SavedAid(data, id, now);
    assert Get(aid, "created_at", Null) == DateTime(now);
    assert Get(aid, "topic", Str("")) == Get(data, "topic", Str(""));
  }

  /** Every aid of `aids` can be decorated by `enhance`. */
  predicate AllAidsDecorated(aids: seq<Record>, enhance: Record -> Result<Record, string>)
  {
    forall i :: 0 <= i < |aids| ==> enhance(aids[i]).Ok?
  }

  /** As written, a stamped aid is never decorated: its timestamp has no `split`. */
  lemma StampedAidBreaksListingAsWritten(aid: Record)
    requires CreatedStamped(aid)
    ensures EnhanceAidAsWritten(aid).Err?
  {
    assert Get(aid, "created_at", Null) == aid["created_at"];
  }

  /** With the intended decoration, a stamped aid is decorated exactly when its topic can be displayed. */
  lemma StampedAidIsListed(aid: Record)
    requires CreatedStamped(aid)
    ensures EnhanceAid(aid).Ok? <==> DisplayTopic(Get(aid, "topic", Str(""))).Ok?
  {
    assert Get(aid, "created_at", Null) == aid["created_at"];
  }

  /** The decorating loop of `get_user_visual_aids`: stops at the first aid that cannot be decorated. */
  method EnhanceAids(aids: seq<Record>, enhance: Record -> Result<Record, string>) returns (r: Result<seq<Record>, string>)
    ensures r.Ok? <==> AllAidsDecorated(aids, enhance)
    ensures r.Ok? ==> |r.value| == |aids| && forall i :: 0 <= i < |aids| ==> enhance(aids[i]) == Ok(r.value[i])
  {
    var enhanced: seq<Record> := [];
    var i := 0;
    while i < |aids|
      invariant 0 <= i <= |aids|
      invariant |enhanced| == i
      invariant forall j :: 0 <= j < i ==> enhance(aids[j]) == Ok(enhanced[j])
    {
      var e := enhance(aids[i]);
      if e.Err? {
        assert !AllAidsDecorated(aids, enhance);
        return Err(e.error);
      }
      enhanced := enhanced + [e.value];
      i := i + 1;
    }
    return Ok(enhanced);
  }

  /** The user id check and the decorating loop, shared by the listing as written and as intended. */
  method ListUserVisualAids(
    store: VisualAidStore, userId: Option<string>, limit: nat, assetType: Option<string>,
    enhance: Record -> Result<Record, string>)
    returns (r: Result<seq<Record>, string>)
    ensures r.Ok? <==> userId.Some? && userId.value != [] && AllAidsDecorated(store.GetUserVisualAids(userId.value, limit, assetType), enhance)
    ensures r.Ok? ==> (
      var listed := store.GetUserVisualAids(userId.value, limit, assetType);
      |r.value| == |listed| && forall i :: 0 <= i < |listed| ==> enhance(listed[i]) == Ok(r.value[i]))
  {
    var checked := EnsureDocumentId(userId, "user_id");
    if checked.Err? {
      return HandleServiceDaoErrors("get_user_visual_aids", Err(Dao(checked.error)));
    }
    var decorated := EnhanceAids(store.GetUserVisualAids(checked.value, limit, assetType), enhance);
    if decorated.Err? {
      return HandleServiceDaoErrors("get_user_visual_aids", Err(OtherException(decorated.error)));
    }
    r := Ok(decorated.value);
  }

  /**
   * `get_user_visual_aids` as written: the store's listing for the user,
   * each aid decorated by splitting its creation date as a string. Every
   * aid the store keeps is stamped with a timestamp, so the listing fails
   * as soon as the user has an aid to list.
   */
  method GetUserVisualAids(store: VisualAidStore, userId: Option<string>, limit: nat, assetType: Option<string>)
    returns (r: Result<seq<Record>, string>)
    ensures r.Ok? <==> userId.Some? && userId.value != [] && AllAidsDecorated(store.GetUserVisualAids(userId.value, limit, assetType), EnhanceAidAsWritten)
    ensures r.Ok? ==> (
      var listed := store.GetUserVisualAids(userId.value, limit, assetType);
      |r.value| == |listed| && forall i :: 0 <= i < |listed| ==> EnhanceAidAsWritten(listed[i]) == Ok(r.value[i]))
    ensures store.Valid() && userId.Some? && store.GetUserVisualAids(userId.value, limit, assetType) != [] ==> r.Err?
  {
    r := ListUserVisualAids(store, userId, limit, assetType, EnhanceAidAsWritten);
    if store.Valid() && userId.Some? && store.GetUserVisualAids(userId.value, limit, assetType) != [] {
      StampedAidBreaksListingAsWritten(store.GetUserVisualAids(userId.value, limit, assetType)[0]);
    }
  }

  /**
   * `get_user_visual_aids` as evidently intended: the creation timestamp
   * gives the date, so a valid user's listing succeeds whenever every
   * listed topic can be displayed.
   */
  method GetUserVisualAidsFixed(store: VisualAidStore, userId: Option<string>, limit: nat, assetType: Option<string>)
    returns (r: Result<seq<Record>, string>)
    ensures r.Ok? <==> userId.Some? && userId.value != [] && AllAidsDecorated(store.GetUserVisualAids(userId.value, limit, assetType), EnhanceAid)
    ensures r.Ok? ==> (
      var listed := store.GetUserVisualAids(userId.value, limit, assetType);
      |r.value| == |listed| && forall i :: 0 <= i < |listed| ==> EnhanceAid(listed[i]) == Ok(r.value[i]))
    ensures store.Valid() && userId.Some? && userId.value != [] ==>
      (r.Ok? <==> forall a :: a in store.GetUserVisualAids(userId.value, limit, assetType) ==> DisplayTopic(Get(a, "topic", Str(""))).Ok?)
  {
    r := ListUserVisualAids(store, userId, limit, assetType, EnhanceAid);
    if store.Valid() && userId.Some? && userId.value != [] {
      var listed := store.GetUserVisualAids(userId.value, limit, assetType);
      forall i | 0 <= i < |listed|
        ensures EnhanceAid(listed[i]).Ok? <==> DisplayTopic(Get(listed[i], "topic", Str(""))).Ok?
      {
        StampedAidIsListed(listed[i]);
      }
    }
  }

  // ---------------------------------------------------------------- search

  /** Python `value == grade` for a stored grade: numbers compare by value, and `True` equals 1. */
  predicate SameGrade(v: Value, grade: int)
  {
    v == Int(grade) || (v.Real? && v.r == grade as real) || (v.Bool? && (if v.b then 1 else 0) == grade)
  }

  /** An aid kept by the grade filter: its grade equals the requested one, or it has none. */
  predicate FitsGrade(aid: Record, grade: int)
  {
    Get(aid, "grade_level", Null) == Null || SameGrade(Get(aid, "grade_level", Null), grade)
  }

  /** The grade filter of `search_visual_aids`. */
  function FilterByGrade(aids: seq<Record>, grade: int): (r: seq<Record>)
    ensures |r| <= |aids|
    ensures forall a :: a in r <==> a in aids && FitsGrade(a, grade)
  {
    if aids == [] then []
    else (if FitsGrade(aids[0], grade) then [aids[0]] else []) + FilterByGrade(aids[1..], grade)
  }

  /** The filter keeps the order of the aids: filtering a concatenation concatenates the filtered parts. */
  lemma {:induction false} FilterByGradeKeepsOrder(xs: seq<Record>, ys: seq<Record>, grade: int)
    ensures FilterByGrade(xs + ys, grade) == FilterByGrade(xs, grade) + FilterByGrade(ys, grade)
  {
    if xs != [] {
      FilterByGradeKeepsOrder(xs[1..], ys, grade);
      assert (xs + ys)[1..] == xs[1..] + ys;
    } else {
      assert xs + ys == ys;
    }
  }

  /**
   * `search_visual_aids`: a blank topic is an error; otherwise the store's
   * matches for the stripped topic, narrowed to the grade when one is
   * given.
   */
  function SearchVisualAids(store: VisualAidStore, topic: string, assetType: Option<string>, grade: Option<int>, limit: nat): (r: Result<seq<Record>, string>)
    reads store
    ensures r.Err? <==> IsBlank(topic)
    ensures r.Ok? ==> |r.value| <= limit
    ensures r.Ok? ==> forall a :: a in r.value ==> a in store.SearchVisualAids(Strip(topic), assetType, limit)
    ensures r.Ok? && GradeGiven(grade) ==> forall a :: a in r.value ==> FitsGrade(a, grade.value)
    ensures r.Ok? && GradeGiven(grade) ==>
      forall a :: a in store.SearchVisualAids(Strip(topic), assetType, limit) && FitsGrade(a, grade.value) ==> a in r.value
    ensures r.Ok? && GradeGiven(grade) ==>
      forall xs, ys :: store.SearchVisualAids(Strip(topic), assetType, limit) == xs + ys ==>
        r.value == FilterByGrade(xs, grade.value) + FilterByGrade(ys, grade.value)
    ensures r.Ok? && !GradeGiven(grade) ==> r.value == store.SearchVisualAids(Strip(topic), assetType, limit)
  {
    if IsBlank(topic) then HandleServiceDaoErrors("search_visual_aids", Err(ValueError("Search topic cannot be empty")))
    else
      var found := store.SearchVisualAids(Strip(topic), assetType, limit);
      if GradeGiven(grade) then
        assert forall xs, ys :: found == xs + ys ==>
          FilterByGrade(found, grade.value) == FilterByGrade(xs, grade.value) + FilterByGrade(ys, grade.value) by {
          forall xs, ys | found == xs + ys {
            FilterByGradeKeepsOrder(xs, ys, grade.value);
          }
        }
        Ok(FilterByGrade(found, grade.value))
      else Ok(found)
  }

  // ---------------------------------------------------------------- deletion

  /** The reply of `delete_visual_aid`. */
  function DeletionReply(id: string, success: bool): (r: Record)
    ensures r.Keys == {"status", "visual_aid_id", "message"}
    ensures r["status"] == Str(if success then "success" else "failed")
  {
    map[
      "visual_aid_id" := Str(id),
      "message" := Str(if success then "Visual aid deleted successfully" else "Failed to delete visual aid"),
      "status" := Str(if success then "success" else "failed")]
  }

  /** Why `delete_visual_aid` refuses, if it does: the aid is missing (or empty) or belongs to someone else. */
  function DeletionRefusal(store: VisualAidStore, id: string, userId: string): (e: Option<Exception>)
    reads store
    ensures e.None? <==> id in store.aids && store.aids[id] != map[] && Get(store.aids[id], "user_id", Null) == Str(userId)
    ensures e.Some? && (id !in store.aids || store.aids[id] == map[]) ==> e.value == ValueError("Visual aid not found")
  {
    var found := store.GetVisualAid(id);
    if found.None? || found.value == map[] then Some(ValueError("Visual aid not found"))
    else if Get(found.value, "user_id", Null) != Str(userId) then Some(PermissionError("Not authorized to delete this visual aid"))
    else None
  }

  /**
   * `delete_visual_aid`: only the owner can delete, and only an aid that
   * exists; the deletion is soft, so the aid stays in the store, marked
   * deleted. A refused request changes nothing.
   */
  method DeleteVisualAid(store: VisualAidStore, visualAidId: Option<string>, userId: Option<string>, now: string)
    returns (r: Result<Record, string>)
    requires store.Valid()
    modifies store
    ensures store.Valid() && store.saved == old(store.saved)
    ensures r.Ok? <==>
      (EnsureDocumentId(visualAidId, "visual_aid_id").Ok? && EnsureDocumentId(userId, "user_id").Ok?
       && old(DeletionRefusal(store, visualAidId.value, userId.value)).None?)
    ensures r.Ok? ==> r.value == DeletionReply(visualAidId.value, true)
    ensures r.Ok? ==> store.aids == old(store.aids)[visualAidId.value := SoftDeleted(old(store.aids)[visualAidId.value], now)]
    ensures r.Err? ==> store.aids == old(store.aids)
  {
    var id := EnsureDocumentId(visualAidId, "visual_aid_id");
    if id.Err? {
      return HandleServiceDaoErrors("delete_visual_aid", Err(Dao(id.error)));
    }
    var user := EnsureDocumentId(userId, "user_id");
    if user.Err? {
      return HandleServiceDaoErrors("delete_visual_aid", Err(Dao(user.error)));
    }
    var refusal := DeletionRefusal(store, id.value, user.value);
    if refusal.Some? {
      return HandleServiceDaoErrors("delete_visual_aid", Err(refusal.value));
    }
    var deleted := store.DeleteVisualAid(id.value, now);
    r := Ok(DeletionReply(id.value, deleted.Ok?));
  }

  // ---------------------------------------------------------------- fallback

  const FallbackMessage := "Generated fallback response due to service unavailability"

  /** The fields every fallback reply shares, whatever file it points at. */
  function FallbackBase(prompt: string, assetType: string, topic: string, fallbackId: string): Record
  {
    map[
      "visual_aid_id" := Str(fallbackId),
      "prompt" := Str(prompt),
      "asset_type" := Str(assetType),
      "topic" := Str(topic),
      "message" := Str(FallbackMessage)]
  }

  /**
   * `_create_fallback_visual_aid` as written: it calls
   * `_create_fallback_description`, which the image generator does not
   * define, so the `AttributeError` is always caught and every fallback is
   * the placeholder. `topic` is the prompt's `ExtractTopic`, which the
   * caller computes.
   */
  function FallbackVisualAidAsWritten(prompt: string, assetType: string, topic: string, fallbackId: string, now: string): (r: Record)
    ensures "status" in r && r["status"] == Str("fallback")
    ensures "image_url" in r && r["image_url"] == Str("/static/placeholder.png")
    ensures "filename" in r && r["filename"] == Str("placeholder.txt")
  {
    FallbackBase(prompt, assetType, topic, fallbackId) + map[
      "metadata" := Obj(map["fallback" := Bool(true), "generated_at" := Str(now)]),
      "filename" := Str("placeholder.txt"),
      "image_url" := Str("/static/placeholder.png"),
      "status" := Str("fallback")]
  }

  /**
   * The fallback as evidently intended: the image generator's
   * `_create_fallback_image`, whose parameters the call passes, draws the
   * fallback, and the reply points at that file.
   */
  function FallbackVisualAid(prompt: string, assetType: string, topic: string, drawn: bool, env: FallbackEnv, fallbackId: string, now: string): (r: Record)
    ensures "status" in r && r["status"] == Str("fallback")
    ensures "filename" in r && r["filename"].Str? && StartsWith(r["filename"].s, "fallback_" + assetType + "_")
    ensures "image_url" in r && r["image_url"] == Str("/temp_image/" + r["filename"].s)
    ensures "metadata" in r && r["metadata"].Obj? && "is_fallback" in r["metadata"].fields
  {
    var img := FallbackImage(topic, "General", assetType, drawn, env);
    FallbackBase(prompt, assetType, topic, fallbackId) + map[
      "metadata" := Obj(img.metadata + map["generated_at" := Str(now)]),
      "filename" := Str(img.filename),
      "image_url" := Str("/temp_image/" + img.filename),
      "status" := Str("fallback")]
  }

  /** No file the image generator writes is served from the static placeholder's URL. */
  lemma PlaceholderIsNotGenerated(filename: string)
    ensures "/static/placeholder.png" != "/temp_image/" + filename
  {
    var placeholder := "/static/placeholder.png";
    var generated := "/temp_image/" + filename;
    assert placeholder[1] != generated[1];
  }

  /** As written, no fallback ever points at the file the intended fallback draws. */
  lemma FallbackLosesImageAsWritten(prompt: string, assetType: string, topic: string, drawn: bool, env: FallbackEnv, fallbackId: string, now: string)
    ensures FallbackVisualAidAsWritten(prompt, assetType, topic, fallbackId, now)["image_url"]
         != FallbackVisualAid(prompt, assetType, topic, drawn, env, fallbackId, now)["image_url"]
  {
    var intended := FallbackVisualAid(prompt, assetType, topic, drawn, env, fallbackId, now);
    PlaceholderIsNotGenerated(intended["filename"].s);
  }

  // ---------------------------------------------------------------- generation

  /**
   * The outside world of one generation: the image generator's, the
   * output directory, whether the store's write succeeds, the fresh ids,
   * the clock, and the fallback's.
   */
  datatype AidEnv = AidEnv(
    image: ImageEnv, outputDir: string, writeOk: bool, id: string, now: string,
    fallbackDrawn: bool, fallback: FallbackEnv, fallbackId: string)

  /** `str(grade_level) if grade_level else "K-12"`. */
  function GradeLabel(grade: Option<int>): (g: string)
    ensures !GradeGiven(grade) ==> g == "K-12"
    ensures GradeGiven(grade) ==> g == IntToString(grade.value)
  {
    if GradeGiven(grade) then IntToString(grade.value) else "K-12"
  }

  /** What `generate_visual_aid` asks the image generator for; a video is drawn as a still. */
  function AidImageRequest(prompt: string, assetType: string, grade: Option<int>, subject: Option<string>): (req: ImageRequest)
    ensures req.visualType == "illustration" && req.topic == ExtractTopic(prompt)
    ensures req.subject == if SubjectGiven(subject) then subject.value else "General"
    ensures req.grade == GradeLabel(grade)
    ensures assetType == "image" ==> req.content == EnhancePrompt(prompt, grade, subject)
    ensures assetType != "image" ==> EndsWith(req.content, EnhancePrompt(prompt, grade, subject))
  {
    var enhanced := EnhancePrompt(prompt, grade, subject);
    var content := if assetType == "image" then enhanced else "Dynamic educational illustration: " + enhanced;
    assert content[|content| - |enhanced|..] == enhanced;
    ImageRequest(
      content, "illustration", ExtractTopic(prompt), if SubjectGiven(subject) then subject.value else "General",
      GradeLabel(grade),
      if assetType == "image" then "educational" else "dynamic",
      if assetType == "image" then "vibrant" else "engaging")
  }

  function OptionalStr(s: Option<string>): Value
  {
    if s.Some? then Str(s.value) else Null
  }

  function OptionalInt(i: Option<int>): Value
  {
    if i.Some? then Int(i.value) else Null
  }

  /** The record `generate_visual_aid` saves for a generated image; `topic` is the prompt's `ExtractTopic`. */
  function AidData(prompt: string, assetType: string, topic: string, userId: Option<string>, grade: Option<int>, subject: Option<string>, img: ImageFile): (d: Record)
    ensures "url" in d && d["url"] == Str("/temp_image/" + img.filename)
    ensures "topic" in d && d["topic"] == Str(topic)
    ensures "user_id" in d && d["user_id"] == OptionalStr(userId)
  {
    map[
      "prompt" := Str(prompt),
      "enhanced_prompt" := Str(EnhancePrompt(prompt, grade, subject)),
      "asset_type" := Str(assetType),
      "filename" := Str(img.filename),
      "subject" := OptionalStr(subject),
      "grade_level" := OptionalInt(grade),
      "metadata" := Obj(img.metadata),
      "generation_method" := Str("gemini_image_generator")]
    + map[
      "user_id" := OptionalStr(userId),
      "topic" := Str(topic),
      "url" := Str("/temp_image/" + img.filename)]
  }

  /** The record saved for one request in one environment. */
  function NewAidData(prompt: string, assetType: string, userId: Option<string>, grade: Option<int>, subject: Option<string>, env: AidEnv): Record
  {
    AidData(prompt, assetType, ExtractTopic(prompt), userId, grade, subject,
      GenerateImage(AidImageRequest(prompt, assetType, grade, subject), env.outputDir, env.image))
  }

  /** The reply of a successful `generate_visual_aid`, built from the saved record. */
  function AidReply(id: string, data: Record): (r: Record)
    ensures "status" in r && r["status"] == Str("success")
    ensures "visual_aid_id" in r && r["visual_aid_id"] == Str(id)
    ensures "image_url" in r && r["image_url"] == Get(data, "url", Null)
    ensures "topic" in r && r["topic"] == Get(data, "topic", Null)
  {
    map[
      "prompt" := Get(data, "prompt", Null),
      "enhanced_prompt" := Get(data, "enhanced_prompt", Null),
      "asset_type" := Get(data, "asset_type", Null),
      "filename" := Get(data, "filename", Null),
      "metadata" := Get(data, "metadata", Null)]
    + map[
      "topic" := Get(data, "topic", Null),
      "image_url" := Get(data, "url", Null),
      "visual_aid_id" := Str(id),
      "status" := Str("success")]
  }

  /**
   * The reply agrees with what the store keeps: the same id, the image URL
   * the aid is saved under and the same topic; the saved aid is active.
   */
  lemma ReplyMatchesSavedAid(data: Record, id: string, now: string)
    requires "url" in data && "topic" in data
    ensures var saved := SavedAid(data, id, now);
      var reply := AidReply(id, data);
      && reply["visual_aid_id"] == saved["visual_aid_id"]
      && reply["image_url"] == saved["url"] == data["url"]
      && reply["topic"] == saved["topic"] == data["topic"]
      && IsActive(saved)
  {
    var saved := SavedAid(data, id, now);
    assert saved["url"] == data["url"];
    assert saved["topic"] == data["topic"];
  }

  /**
   * The body of `generate_visual_aid`, given the reply it falls back to:
   * an invalid request is an error; otherwise the image is generated (the
   * generator never fails, it falls back), the aid is saved and the reply
   * describes it. When the store's write fails, the reply is the fallback
   * and nothing is saved.
   */
  method GenerateWithFallback(
    store: VisualAidStore, prompt: string, assetType: string, userId: Option<string>,
    grade: Option<int>, subject: Option<string>, env: AidEnv, fallback: Record)
    returns (r: Result<Record, string>)
    requires store.Valid() && env.id !in store.aids
    modifies store
    ensures store.Valid()
    ensures r.Err? <==> ValidateVisualAidRequest(prompt, assetType, grade).Err?
    ensures r.Ok? && env.writeOk ==>
      var data := NewAidData(prompt, assetType, userId, grade, subject, env);
      && store.aids == old(store.aids)[env.id := SavedAid(data, env.id, env.now)]
      && r.value == AidReply(env.id, data)
    ensures !(r.Ok? && env.writeOk) ==> store.aids == old(store.aids)
    ensures r.Ok? && !env.writeOk ==> r.value == fallback
  {
    var valid := ValidateVisualAidRequest(prompt, assetType, grade);
    if valid.Err? {
      return HandleServiceDaoErrors("generate_visual_aid", Err(valid.error));
    }
    var data := NewAidData(prompt, assetType, userId, grade, subject, env);
    if !env.writeOk {
      return Ok(fallback);
    }
    var id := store.SaveVisualAid(data, env.id, env.now);
    r := Ok(AidReply(id, data));
  }

  /**
   * `generate_visual_aid` as written: when the store's write fails, the
   * reply is the placeholder fallback, which points at no drawn file.
   */
  method GenerateVisualAid(
    store: VisualAidStore, prompt: string, assetType: string, userId: Option<string>,
    grade: Option<int>, subject: Option<string>, env: AidEnv)
    returns (r: Result<Record, string>)
    requires store.Valid() && env.id !in store.aids
    modifies store
    ensures store.Valid()
    ensures r.Err? <==> ValidateVisualAidRequest(prompt, assetType, grade).Err?
    ensures r.Ok? && env.writeOk ==>
      var data := NewAidData(prompt, assetType, userId, grade, subject, env);
      && store.aids == old(store.aids)[env.id := SavedAid(data, env.id, env.now)]
      && r.value == AidReply(env.id, data)
    ensures !(r.Ok? && env.writeOk) ==> store.aids == old(store.aids)
    ensures r.Ok? && !env.writeOk ==>
      && r.value == FallbackVisualAidAsWritten(prompt, assetType, ExtractTopic(prompt), env.fallbackId, env.now)
      && r.value["image_url"] == Str("/static/placeholder.png")
  {
    r := GenerateWithFallback(store, prompt, assetType, userId, grade, subject, env,
      FallbackVisualAidAsWritten(prompt, assetType, ExtractTopic(prompt), env.fallbackId, env.now));
  }

  /**
   * `generate_visual_aid` as evidently intended: when the store's write
   * fails, the reply is the fallback the image generator draws, served
   * from its temporary directory.
   */
  method GenerateVisualAidFixed(
    store: VisualAidStore, prompt: string, assetType: string, userId: Option<string>,
    grade: Option<int>, subject: Option<string>, env: AidEnv)
    returns (r: Result<Record, string>)
    requires store.Valid() && env.id !in store.aids
    modifies store
    ensures store.Valid()
    ensures r.Err? <==> ValidateVisualAidRequest(prompt, assetType, grade).Err?
    ensures r.Ok? && env.writeOk ==>
      var data := NewAidData(prompt, assetType, userId, grade, subject, env);
      && store.aids == old(store.aids)[env.id := SavedAid(data, env.id, env.now)]
      && r.value == AidReply(env.id, data)
    ensures !(r.Ok? && env.writeOk) ==> store.aids == old(store.aids)
    ensures r.Ok? && !env.writeOk ==>
      && r.value == FallbackVisualAid(prompt, assetType, ExtractTopic(prompt), env.fallbackDrawn, env.fallback, env.fallbackId, env.now)
      && r.value["image_url"] != Str("/static/placeholder.png")
  {
    var fallback := FallbackVisualAid(prompt, assetType, ExtractTopic(prompt), env.fallbackDrawn, env.fallback, env.fallbackId, env.now);
    PlaceholderIsNotGenerated(fallback["filename"].s);
    r := GenerateWithFallback(store, prompt, assetType, userId, grade, subject, env, fallback);
  }

  // ---------------------------------------------------------------- infographics

  /** The checks at the top of `generate_educational_infographic`. */
  function ValidateInfographicRequest(topic: string, dataPoints: seq<string>): (r: Result<(), Exception>)
    ensures r.Ok? <==> !IsBlank(topic) && dataPoints != []
    ensures r.Err? ==> r.error.ValueError?
  {
    if IsBlank(topic) then Err(ValueError("Topic cannot be empty"))
    else if dataPoints == [] then Err(ValueError("Data points cannot be empty"))
    else Ok(())
  }

  /** The infographic prompt: the topic, the complexity, the data points joined by commas, and the grade or "general". */
  function InfographicPrompt(topic: string, complexity: string, dataPoints: seq<string>, grade: Option<int>): (p: string)
    ensures Contains(p, Join(", ", dataPoints))
  {
    var head := "Create a comprehensive educational infographic about " + topic + ".\nRequirements:\n- Visual complexity: "
      + complexity + "\n- Include these key data points: ";
    var tail := "\n- Age-appropriate design for grade level " + (if GradeGiven(grade) then IntToString(grade.value) else "general");
    var p := head + Join(", ", dataPoints) + tail;
    assert p[|head|..|head| + |Join(", ", dataPoints)|] == Join(", ", dataPoints);
    ContainsAt(p, Join(", ", dataPoints), |head|);
    p
  }

  /** The metadata an infographic is saved with: the image's, plus its complexity and the number of data points. */
  function InfographicMetadata(img: ImageFile, complexity: string, dataPoints: seq<string>): (m: Record)
    ensures "complexity" in m && m["complexity"] == Str(complexity)
    ensures "data_point_count" in m && m["data_point_count"] == Int(|dataPoints|)
    ensures forall k :: k in img.metadata && k != "complexity" && k != "data_point_count" ==> k in m && m[k] == img.metadata[k]
  {
    img.metadata + map["complexity" := Str(complexity), "data_point_count" := Int(|dataPoints|)]
  }

  /** The image an infographic request produces. */
  function InfographicImage(topic: string, dataPoints: seq<string>, grade: Option<int>, outputDir: string, image: ImageEnv): ImageFile
  {
    var prompt := InfographicPrompt(topic, InfographicComplexity(grade), dataPoints, grade);
    GenerateImage(ImageRequest(prompt, "infographic", topic, "Educational", GradeLabel(grade), "professional", "educational"), outputDir, image)
  }

  /** The record `generate_educational_infographic` saves. */
  function InfographicData(topic: string, dataPoints: seq<string>, grade: Option<int>, userId: Option<string>, img: ImageFile): (d: Record)
    ensures "asset_type" in d && d["asset_type"] == Str("infographic")
    ensures "metadata" in d && d["metadata"] == Obj(InfographicMetadata(img, InfographicComplexity(grade), dataPoints))
    ensures "url" in d && d["url"] == Str("/temp_image/" + img.filename)
  {
    map[
      "prompt" := Str(InfographicPrompt(topic, InfographicComplexity(grade), dataPoints, grade)),
      "topic" := Str(topic),
      "data_points" := StrList(dataPoints),
      "filename" := Str(img.filename),
      "grade_level" := OptionalInt(grade),
      "user_id" := OptionalStr(userId)]
    + map[
      "url" := Str("/temp_image/" + img.filename),
      "asset_type" := Str("infographic"),
      "metadata" := Obj(InfographicMetadata(img, InfographicComplexity(grade), dataPoints))]
  }

  /** The reply of `generate_educational_infographic`, built from the saved record. */
  function InfographicReply(id: string, topic: string, dataPoints: seq<string>, grade: Option<int>, data: Record): (r: Record)
    ensures "status" in r && r["status"] == Str("success")
    ensures "complexity" in r && r["complexity"] == Str(InfographicComplexity(grade))
    ensures "visual_aid_id" in r && r["visual_aid_id"] == Str(id)
    ensures "image_url" in r && r["image_url"] == Get(data, "url", Null)
    ensures "metadata" in r && r["metadata"] == Get(data, "metadata", Null)
  {
    map[
      "topic" := Str(topic),
      "data_points" := StrList(dataPoints),
      "filename" := Get(data, "filename", Null)]
    + map[
      "image_url" := Get(data, "url", Null),
      "metadata" := Get(data, "metadata", Null),
      "complexity" := Str(InfographicComplexity(grade)),
      "visual_aid_id" := Str(id),
      "status" := Str("success")]
  }

  /** The infographic's reply carries the same id, metadata and image URL the store keeps. */
  lemma InfographicReplyMatchesSaved(data: Record, id: string, topic: string, dataPoints: seq<string>, grade: Option<int>, now: string)
    requires "url" in data && "metadata" in data
    ensures var saved := SavedAid(data, id, now);
      var reply := InfographicReply(id, topic, dataPoints, grade, data);
      && reply["metadata"] == saved["metadata"] == data["metadata"]
      && reply["image_url"] == saved["url"] == data["url"]
      && reply["visual_aid_id"] == saved["visual_aid_id"]
  {
    var saved := SavedAid(data, id, now);
    assert saved["url"] == data["url"];
    assert saved["metadata"] == data["metadata"];
  }

  /**
   * `generate_educational_infographic`: a blank topic or no data points is
   * an error; otherwise the infographic is generated and saved with its
   * complexity and data-point count. There is no fallback: a failed write
   * is an error and saves nothing.
   */
  method GenerateInfographic(
    store: VisualAidStore, topic: string, dataPoints: seq<string>, grade: Option<int>,
    userId: Option<string>, outputDir: string, image: ImageEnv, writeOk: bool, id: string, now: string)
    returns (r: Result<Record, string>)
    requires store.Valid() && id !in store.aids
    modifies store
    ensures store.Valid()
    ensures r.Ok? <==> ValidateInfographicRequest(topic, dataPoints).Ok? && writeOk
    ensures r.Ok? ==>
      var data := InfographicData(topic, dataPoints, grade, userId, InfographicImage(topic, dataPoints, grade, outputDir, image));
      && store.aids == old(store.aids)[id := SavedAid(data, id, now)]
      && r.value == InfographicReply(id, topic, dataPoints, grade, data)
    ensures r.Err? ==> store.aids == old(store.aids)
  {
    var valid := ValidateInfographicRequest(topic, dataPoints);
    if valid.Err? {
      return HandleServiceDaoErrors("generate_educational_infographic", Err(valid.error));
    }
    var data := InfographicData(topic, dataPoints, grade, userId, InfographicImage(topic, dataPoints, grade, outputDir, image));
    if !writeOk {
      return HandleServiceDaoErrors("generate_educational_infographic",
        Err(Dao(DaoError(OperationError, "save_visual_aid", "write failed"))));
    }
    var saved := store.SaveVisualAid(data, id, now);
    r := Ok(InfographicReply(saved, topic, dataPoints, grade, data));
  }
}
