/**
 * The visual-aid HTTP routes (routes/visual_aids.py): the request models'
 * field checks, who may view whose visual aids, and the statistics over a
 * user's visual aids. The visual-aid service each route calls is a
 * parameter: the documents it returned or the exception it raised.
 */
module VisualAidRoutes {
  import opened Wrappers
  import opened Text
  import opened Values
  import opened RouteErrors
  import opened RequestFields

  // ---------------------------------------------------------------- VisualAidRequest

  const AssetTypes := {"image", "video"}

  datatype VisualAidInput = VisualAidInput(prompt: string, assetType: Option<string>, gradeLevel: Option<int>, subject: Option<string>)
  datatype VisualAidRequest = VisualAidRequest(prompt: string, assetType: string, gradeLevel: Option<int>, subject: Option<string>)

  /** `prompt`: 1 to 500 characters as submitted, not blank, stripped. */
  function Prompt(v: string): (r: Result<string, FieldError>)
  {
    RequiredText(v, 1, Some(500), "Prompt cannot be empty")
  }

  /** `asset_type`: "image" when left out, otherwise "image" or "video". */
  function AssetType(v: Option<string>): (r: Result<string, FieldError>)
    ensures r.Ok? <==> v.None? || v.value in AssetTypes
    ensures r.Ok? ==> r.value in AssetTypes && (v.Some? ==> r.value == v.value)
  {
    if v.None? then Ok("image") else OneOf(v.value, AssetTypes, Invalid("Asset type must be \"image\" or \"video\""))
  }

  /** An optional grade level, 1 to 12 when given. */
  function OptionalGrade(v: Option<int>): (r: Result<Option<int>, FieldError>)
    ensures r.Ok? <==> v.None? || 1 <= v.value <= 12
    ensures r.Ok? ==> r.value == v
  {
    if v.None? || 1 <= v.value <= 12 then Ok(v) else Err(Constraint)
  }

  /**
   * `subject`: at most 100 characters as submitted; a whitespace-only
   * subject is an error, but an empty one, like a missing one, is no subject.
   */
  function Subject(v: Option<string>): (r: Result<Option<string>, FieldError>)
    ensures r.Ok? <==> v.None? || (|v.value| <= 100 && (v.value == [] || !IsBlank(v.value)))
    ensures r.Ok? ==> (r.value.None? <==> v.None? || v.value == [])
    ensures r.Ok? && r.value.Some? ==> r.value.value == Strip(v.value) && r.value.value != []
    ensures v.Some? && v.value != [] && |v.value| <= 100 && IsBlank(v.value) ==> r == Err(Invalid("Subject cannot be empty if provided"))
  {
    if v.None? then Ok(None)
    else if |v.value| > 100 then Err(Constraint)
    else if v.value != [] && IsBlank(v.value) then Err(Invalid("Subject cannot be empty if provided"))
    else if v.value == [] then Ok(None)
    else Ok(Some(Strip(v.value)))
  }

  datatype VisualAidField = PromptField | AssetTypeField | GradeLevelField | SubjectField

  /** The fields named by their failure flags. */
  function VisualAidFailures(prompt: bool, assetType: bool, grade: bool, subject: bool): (r: set<VisualAidField>)
    ensures PromptField in r <==> prompt
    ensures AssetTypeField in r <==> assetType
    ensures GradeLevelField in r <==> grade
    ensures SubjectField in r <==> subject
  {
    (if prompt then {PromptField} else {}) + (if assetType then {AssetTypeField} else {})
    + (if grade then {GradeLevelField} else {}) + (if subject then {SubjectField} else {})
  }

  /** The visual-aid request, or the fields that failed. */
  function ValidateVisualAid(x: VisualAidInput): (r: Result<VisualAidRequest, set<VisualAidField>>)
    ensures r.Ok? <==> Prompt(x.prompt).Ok? && AssetType(x.assetType).Ok? && OptionalGrade(x.gradeLevel).Ok? && Subject(x.subject).Ok?
    ensures r.Ok? ==> r.value == VisualAidRequest(Prompt(x.prompt).value, AssetType(x.assetType).value,
                                                   x.gradeLevel, Subject(x.subject).value)
    ensures r.Err? ==> ((PromptField in r.error <==> Prompt(x.prompt).Err?)
                        && (AssetTypeField in r.error <==> AssetType(x.assetType).Err?)
                        && (GradeLevelField in r.error <==> OptionalGrade(x.gradeLevel).Err?)
                        && (SubjectField in r.error <==> Subject(x.subject).Err?))
  {
    var prompt := Prompt(x.prompt);
    var assetType := AssetType(x.assetType);
    var grade := OptionalGrade(x.gradeLevel);
    var subject := Subject(x.subject);
    if prompt.Ok? && assetType.Ok? && grade.Ok? && subject.Ok? then
      Ok(VisualAidRequest(prompt.value, assetType.value, grade.value, subject.value))
    else
      Err(VisualAidFailures(prompt.Err?, assetType.Err?, grade.Err?, subject.Err?))
  }

  /**
   * An accepted visual-aid request has a stripped prompt of at most 500
   * characters that is not blank, an asset type of "image" or "video", and
   * a subject that is either absent or stripped and not blank.
   */
  lemma AcceptedVisualAidIsClean(x: VisualAidInput)
    requires ValidateVisualAid(x).Ok?
    ensures var q := ValidateVisualAid(x).value;
      && q.prompt == Strip(x.prompt) && q.prompt != [] && |q.prompt| <= 500
      && q.assetType in AssetTypes
      && (q.subject.Some? ==> q.subject.value == Strip(x.subject.value) && q.subject.value != [])
  {
  }

  // ---------------------------------------------------------------- InfographicRequest

  datatype InfographicInput = InfographicInput(topic: string, dataPoints: seq<string>, gradeLevel: Option<int>)
  datatype InfographicRequest = InfographicRequest(topic: string, dataPoints: seq<string>, gradeLevel: Option<int>)

  /** `topic`: 1 to 200 characters as submitted, not blank, stripped. */
  function InfographicTopic(v: string): (r: Result<string, FieldError>)
  {
    RequiredText(v, 1, Some(200), "Topic cannot be empty")
  }

  /**
   * `data_points`: 1 to 20 items as submitted; the non-blank ones are kept,
   * stripped, and at least one must be.
   */
  function DataPoints(v: seq<string>): (r: Result<seq<string>, FieldError>)
    ensures r.Ok? <==> 1 <= |v| <= 20 && CleanList(v) != []
    ensures !(1 <= |v| <= 20) ==> r == Err(Constraint)
    ensures 1 <= |v| <= 20 && CleanList(v) == [] ==> r == Err(Invalid("Must provide at least one valid data point"))
    ensures r.Ok? ==> r.value == CleanList(v)
  {
    if !(1 <= |v| <= 20) then Err(Constraint)
    else if CleanList(v) == [] then Err(Invalid("Must provide at least one valid data point"))
    else Ok(CleanList(v))
  }

  /**
   * Data points are accepted exactly when there are 1 to 20 of them and one
   * is not blank; then every accepted point is a submitted point stripped,
   * and every non-blank submitted point is among them.
   */
  lemma DataPointsKeepNonBlank(v: seq<string>)
    ensures DataPoints(v).Ok? <==> 1 <= |v| <= 20 && exists i :: 0 <= i < |v| && !IsBlank(v[i])
    ensures DataPoints(v).Ok? ==> forall i :: 0 <= i < |v| && !IsBlank(v[i]) ==> Strip(v[i]) in DataPoints(v).value
    ensures DataPoints(v).Ok? ==> 1 <= |DataPoints(v).value| <= 20
  {
    CleanListEmpty(v);
    if DataPoints(v).Ok? {
      forall i | 0 <= i < |v| && !IsBlank(v[i])
        ensures Strip(v[i]) in DataPoints(v).value
      {
        NonBlankItemKept(v, i);
      }
    }
  }

  // ---------------------------------------------------------------- who may view

  /** `req.state.user.get("role", "student")`. */
  function RoleOf(user: Record): Value
  {
    Get(user, "role", Str("student"))
  }

  /** A user may view their own visual aids and statistics; a teacher or an admin may view anyone's. */
  predicate MayView(userId: string, currentUserId: string, role: Value)
  {
    userId == currentUserId || role == Str("teacher") || role == Str("admin")
  }

  /** A user without a role is a student, and a student may view only their own. */
  lemma StudentsSeeOnlyTheirOwn(userId: string, currentUserId: string, user: Record)
    requires "role" !in user || user["role"] == Str("student")
    ensures MayView(userId, currentUserId, RoleOf(user)) <==> userId == currentUserId
  {
    assert RoleOf(user) == Str("student");
    assert "student" != "teacher" && "student" != "admin";
  }

  // ---------------------------------------------------------------- the history route

  const HistoryForbidden := "Can only view your own visual aids"
  const AssetTypeMessage := "Asset type must be 'image' or 'video'"

  /**
   * The body of `GET /user/{user_id}`: the permission check, then the
   * asset-type filter (a missing or empty one is no filter), then the
   * service's visual aids.
   */
  function HistoryBody(userId: string, currentUserId: string, role: Value, assetType: Option<string>,
                       service: Result<seq<Record>, Exc>): (r: Result<seq<Record>, Exc>)
    ensures !MayView(userId, currentUserId, role) ==> r == Err(HttpExc(403, HistoryForbidden))
    ensures MayView(userId, currentUserId, role) && assetType.Some? && assetType.value != [] && assetType.value !in AssetTypes ==>
      r == Err(HttpExc(400, AssetTypeMessage))
    ensures MayView(userId, currentUserId, role) && (assetType.None? || assetType.value == [] || assetType.value in AssetTypes) ==>
      r == service
  {
    if !MayView(userId, currentUserId, role) then Err(HttpExc(403, HistoryForbidden))
    else if assetType.Some? && assetType.value != [] && assetType.value !in AssetTypes then Err(HttpExc(400, AssetTypeMessage))
    else service
  }

  /** A `ValueError` is a 400 with its message, anything else a 500. */
  const HistoryClauses := [
    Clause(ValueError, Raise(400, None)),
    Clause(AnyException, Raise(500, Some("Failed to retrieve visual aids")))]

  /** `GET /user/{user_id}` as written: its own 403 and 400 are caught by `except Exception`. */
  function HistoryAsWritten(userId: string, currentUserId: string, role: Value, assetType: Option<string>,
                            service: Result<seq<Record>, Exc>): (r: Response<seq<Record>>)
  {
    Route(HistoryBody(userId, currentUserId, role, assetType, service), HistoryClauses)
  }

  /** A forbidden request and an unknown asset type are both answered 500. */
  lemma HistoryRejectionsAreServerErrorsAsWritten(userId: string, currentUserId: string, role: Value,
                                                  assetType: Option<string>, service: Result<seq<Record>, Exc>)
    requires HistoryBody(userId, currentUserId, role, assetType, service).Err?
    requires HistoryBody(userId, currentUserId, role, assetType, service).error.HttpExc?
    ensures HistoryAsWritten(userId, currentUserId, role, assetType, service) == HttpError(500, "Failed to retrieve visual aids")
  {
    var e := HistoryBody(userId, currentUserId, role, assetType, service).error;
    assert FirstMatch(HistoryClauses, e) == Some(1);
  }

  /** `GET /user/{user_id}` as evidently intended: the 403 and the 400 reach the client. */
  function History(userId: string, currentUserId: string, role: Value, assetType: Option<string>,
                   service: Result<seq<Record>, Exc>): (r: Response<seq<Record>>)
    ensures !MayView(userId, currentUserId, role) ==> r == HttpError(403, HistoryForbidden)
    ensures r.Success? ==> MayView(userId, currentUserId, role) && service == Ok(r.value)
  {
    KeepingHttpPassesHttpErrors(HistoryBody(userId, currentUserId, role, assetType, service), HistoryClauses);
    Route(HistoryBody(userId, currentUserId, role, assetType, service), KeepingHttp(HistoryClauses))
  }

  /**
   * The corrected route answers 403 to anyone who may not view, 400 to an
   * unknown asset type, and otherwise exactly as written.
   */
  lemma HistoryRejectsForbiddenViews(userId: string, currentUserId: string, role: Value,
                                     assetType: Option<string>, service: Result<seq<Record>, Exc>)
    ensures !MayView(userId, currentUserId, role) ==>
      History(userId, currentUserId, role, assetType, service) == HttpError(403, HistoryForbidden)
    ensures MayView(userId, currentUserId, role) && assetType.Some? && assetType.value != [] && assetType.value !in AssetTypes ==>
      History(userId, currentUserId, role, assetType, service) == HttpError(400, AssetTypeMessage)
    ensures History(userId, currentUserId, role, assetType, service).Success? ==> MayView(userId, currentUserId, role)
    ensures var body := HistoryBody(userId, currentUserId, role, assetType, service);
      body.Ok? || !body.error.HttpExc? ==>
        History(userId, currentUserId, role, assetType, service) == HistoryAsWritten(userId, currentUserId, role, assetType, service)
  {
    KeepingHttpPassesHttpErrors(HistoryBody(userId, currentUserId, role, assetType, service), HistoryClauses);
  }

  // ---------------------------------------------------------------- statistics

  /** A dict of counts in insertion order, as `d[k] = d.get(k, 0) + 1` builds it. */
  type Tally<K> = seq<(K, nat)>

  /** The count of `k`, 0 when absent. */
  function CountOf<K(==)>(t: Tally<K>, k: K): nat
  {
    if t == [] then 0
    else if t[|t| - 1].0 == k then t[|t| - 1].1
    else CountOf(t[..|t| - 1], k)
  }

  /** No key appears twice. */
  predicate DistinctKeys<K(==)>(t: Tally<K>)
  {
    forall i, j :: 0 <= i < j < |t| ==> t[i].0 != t[j].0
  }

  /** `d[k] = d.get(k, 0) + 1`: a known key counts one more in its place, a new one is appended with 1. */
  function Bump<K(==)>(t: Tally<K>, k: K): (r: Tally<K>)
    ensures |r| == |t| || r == t + [(k, 1)]
    ensures |r| == |t| ==> forall i :: 0 <= i < |t| ==> r[i].0 == t[i].0
    ensures |r| != |t| ==> forall i :: 0 <= i < |t| ==> t[i].0 != k
  {
    if t == [] then [(k, 1)]
    else if t[|t| - 1].0 == k then t[..|t| - 1] + [(k, t[|t| - 1].1 + 1)]
    else
      var init := Bump(t[..|t| - 1], k);
      if |init| == |t| - 1 then init + [t[|t| - 1]] else t + [(k, 1)]
  }

  /** Bumping counts `k` once more and leaves every other count. */
  lemma {:induction false} BumpCounts<K>(t: Tally<K>, k: K, other: K)
    ensures CountOf(Bump(t, k), k) == CountOf(t, k) + 1
    ensures other != k ==> CountOf(Bump(t, k), other) == CountOf(t, other)
  {
    if t != [] && t[|t| - 1].0 != k {
      var init := t[..|t| - 1];
      BumpCounts(init, k, other);
      var b := Bump(init, k);
      if |b| == |init| {
        assert (b + [t[|t| - 1]])[..|b|] == b;
      } else {
        assert t[..|t| - 1] == init;
        assert (t + [(k, 1)])[..|t|] == t;
      }
    } else if t != [] {
      assert (t[..|t| - 1] + [(k, t[|t| - 1].1 + 1)])[..|t| - 1] == t[..|t| - 1];
    }
  }

  /** The number of times `k` occurs. */
  function Occurrences<K(==)>(keys: seq<K>, k: K): nat
  {
    if keys == [] then 0 else Occurrences(keys[..|keys| - 1], k) + (if keys[|keys| - 1] == k then 1 else 0)
  }

  /** The counts of a sequence of keys. */
  function Tallied<K(==)>(keys: seq<K>): Tally<K>
  {
    if keys == [] then [] else Bump(Tallied(keys[..|keys| - 1]), keys[|keys| - 1])
  }

  /** Every key is counted as often as it occurs. */
  lemma {:induction false} TalliedCounts<K>(keys: seq<K>, k: K)
    ensures CountOf(Tallied(keys), k) == Occurrences(keys, k)
  {
    if keys != [] {
      TalliedCounts(keys[..|keys| - 1], k);
      BumpCounts(Tallied(keys[..|keys| - 1]), keys[|keys| - 1], k);
    }
  }

  /** Counting keeps each key once. */
  lemma {:induction false} TalliedKeysDistinct<K>(keys: seq<K>)
    ensures DistinctKeys(Tallied(keys))
  {
    if keys != [] {
      TalliedKeysDistinct(keys[..|keys| - 1]);
    }
  }

  /** The sum of the counts. */
  function Total<K>(t: Tally<K>): nat
  {
    if t == [] then 0 else Total(t[..|t| - 1]) + t[|t| - 1].1
  }

  /** The total of a sequence split at its last entry. */
  lemma TotalAppend<K>(t: Tally<K>, e: (K, nat))
    ensures Total(t + [e]) == Total(t) + e.1
  {
    assert (t + [e])[..|t|] == t;
  }

  /** Bumping adds one to the total. */
  lemma {:induction false} BumpTotal<K>(t: Tally<K>, k: K)
    ensures Total(Bump(t, k)) == Total(t) + 1
  {
    if t == [] {
    } else if t[|t| - 1].0 == k {
      TotalAppend(t[..|t| - 1], (k, t[|t| - 1].1 + 1));
      assert t == t[..|t| - 1] + [t[|t| - 1]];
      TotalAppend(t[..|t| - 1], t[|t| - 1]);
    } else {
      var init := t[..|t| - 1];
      BumpTotal(init, k);
      var b := Bump(init, k);
      if |b| == |init| {
        TotalAppend(b, t[|t| - 1]);
        assert t == init + [t[|t| - 1]];
        TotalAppend(init, t[|t| - 1]);
      } else {
        TotalAppend(t, (k, 1));
      }
    }
  }

  /** The counts of a sequence of keys add up to its length. */
  lemma {:induction false} TalliedTotal<K>(keys: seq<K>)
    ensures Total(Tallied(keys)) == |keys|
  {
    if keys != [] {
      TalliedTotal(keys[..|keys| - 1]);
      BumpTotal(Tallied(keys[..|keys| - 1]), keys[|keys| - 1]);
    }
  }

  /** `max(d.items(), key=lambda x: x[1])`: the index of the first entry with the largest count. */
  function FirstMax<K>(t: Tally<K>): (m: nat)
    requires t != []
    ensures m < |t|
    ensures forall j :: 0 <= j < |t| ==> t[j].1 <= t[m].1
    ensures forall j :: 0 <= j < m ==> t[j].1 < t[m].1
  {
    if |t| == 1 then 0
    else
      var m := FirstMax(t[..|t| - 1]);
      if t[|t| - 1].1 > t[m].1 then |t| - 1 else m
  }

  // ---------------------------------------------------------------- the statistics of a user's visual aids

  /** `va.get("subject", "Other")`. */
  function SubjectKey(va: Record): Value
  {
    Get(va, "subject", Str("Other"))
  }

  /** The subjects of the visual aids, in order. */
  function Subjects(docs: seq<Record>): (r: seq<Value>)
    ensures |r| == |docs| && forall i :: 0 <= i < |docs| ==> r[i] == SubjectKey(docs[i])
  {
    if docs == [] then [] else Subjects(docs[..|docs| - 1]) + [SubjectKey(docs[|docs| - 1])]
  }

  /** `f"Grade {grade}"` when the visual aid's `grade_level` is truthy. */
  function GradeKey(va: Record): (r: Option<string>)
    ensures r.Some? <==> Truthy(Get(va, "grade_level", Null))
    ensures r.Some? ==> |r.value| >= 6 && r.value[..6] == "Grade "
  {
    var grade := Get(va, "grade_level", Null);
    if Truthy(grade) then Some("Grade " + Display(grade)) else None
  }

  /** The grade keys of the visual aids that have one, in order. */
  function GradeKeys(docs: seq<Record>): (r: seq<string>)
    ensures |r| <= |docs|
  {
    if docs == [] then []
    else
      var init := GradeKeys(docs[..|docs| - 1]);
      match GradeKey(docs[|docs| - 1])
      case Some(k) => init + [k]
      case None => init
  }

  /** The number of visual aids of one asset type. */
  function CountAsset(docs: seq<Record>, assetType: string): (n: nat)
    ensures n <= |docs|
  {
    if docs == [] then 0
    else CountAsset(docs[..|docs| - 1], assetType) + (if Get(docs[|docs| - 1], "asset_type", Null) == Str(assetType) then 1 else 0)
  }

  /** What `GET /stats/{user_id}` reports. */
  datatype VisualAidStats = VisualAidStats(totalVisualAids: nat, imagesGenerated: nat, videosGenerated: nat,
                                           subjectsCovered: Tally<Value>, gradeLevels: Tally<string>,
                                           mostUsedSubject: Option<Value>)

  /** The first subject with the largest count, `None` when there is none. */
  function MostUsed(subjects: Tally<Value>): (r: Option<Value>)
  {
    if subjects == [] then None else Some(subjects[FirstMax(subjects)].0)
  }

  /** The index of the first subject that cannot be a dict key, if any. */
  function FirstUnhashableSubject(docs: seq<Record>): (r: Option<nat>)
    ensures r.None? <==> forall i :: 0 <= i < |docs| ==> Hashable(SubjectKey(docs[i]))
    ensures r.Some? ==> (r.value < |docs| && !Hashable(SubjectKey(docs[r.value]))
      && forall i :: 0 <= i < r.value ==> Hashable(SubjectKey(docs[i])))
  {
    if docs == [] then None
    else match FirstUnhashableSubject(docs[..|docs| - 1])
      case Some(i) => Some(i)
      case None => if Hashable(SubjectKey(docs[|docs| - 1])) then None else Some(|docs| - 1)
  }

  /**
   * The statistics of the visual aids the service returned: their number,
   * the images and the videos among them, the count of each subject ("Other"
   * for a visual aid without one) and of each truthy grade level, and the
   * most used subject. A subject that cannot be a dict key raises.
   */
  function StatsOf(docs: seq<Record>): (r: Result<VisualAidStats, Exc>)
  {
    match FirstUnhashableSubject(docs)
    case Some(i) => Err(OtherExc(UnhashableError(SubjectKey(docs[i]))))
    case None =>
      var subjects := Tallied(Subjects(docs));
      Ok(VisualAidStats(|docs|, CountAsset(docs, "image"), CountAsset(docs, "video"), subjects,
                        Tallied(GradeKeys(docs)), MostUsed(subjects)))
  }

  /** The images and the videos are counted separately. */
  lemma {:induction false} ImagesAndVideosAtMostTotal(docs: seq<Record>)
    ensures CountAsset(docs, "image") + CountAsset(docs, "video") <= |docs|
  {
    if docs != [] {
      ImagesAndVideosAtMostTotal(docs[..|docs| - 1]);
      assert Str("image") != Str("video");
    }
  }

  /** The number of visual aids with a truthy grade level. */
  function WithGrade(docs: seq<Record>): (n: nat)
  {
    if docs == [] then 0 else WithGrade(docs[..|docs| - 1]) + (if Truthy(Get(docs[|docs| - 1], "grade_level", Null)) then 1 else 0)
  }

  /** Exactly the visual aids with a truthy grade level have a grade key. */
  lemma {:induction false} GradeKeysOfTruthyGrades(docs: seq<Record>)
    ensures |GradeKeys(docs)| == WithGrade(docs)
  {
    if docs != [] {
      GradeKeysOfTruthyGrades(docs[..|docs| - 1]);
    }
  }

  /**
   * The statistics count every visual aid once: images and videos together
   * are at most the total, the subject counts add up to the total, every
   * subject is counted as often as it occurs, and each subject is listed
   * once. The most used subject is absent exactly when there are no visual
   * aids; otherwise no subject is counted more often, and none listed
   * before it as often.
   */
  lemma StatsAreConsistent(docs: seq<Record>, subject: Value)
    requires StatsOf(docs).Ok?
    ensures var st := StatsOf(docs).value;
      && st.totalVisualAids == |docs|
      && st.imagesGenerated + st.videosGenerated <= st.totalVisualAids
      && Total(st.subjectsCovered) == st.totalVisualAids
      && CountOf(st.subjectsCovered, subject) == Occurrences(Subjects(docs), subject)
      && DistinctKeys(st.subjectsCovered)
      && Total(st.gradeLevels) == WithGrade(docs) <= st.totalVisualAids
      && (st.mostUsedSubject.None? <==> st.totalVisualAids == 0)
  {
    var st := StatsOf(docs).value;
    ImagesAndVideosAtMostTotal(docs);
    TalliedTotal(Subjects(docs));
    TalliedTotal(GradeKeys(docs));
    GradeKeysOfTruthyGrades(docs);
    TalliedCounts(Subjects(docs), subject);
    TalliedKeysDistinct(Subjects(docs));
    if docs != [] {
      assert Total(st.subjectsCovered) > 0;
    }
  }

  /** The most used subject is counted at least as often as any other, and more often than any listed before it. */
  lemma MostUsedSubjectIsFirstMax(docs: seq<Record>)
    requires StatsOf(docs).Ok? && docs != []
    ensures var st := StatsOf(docs).value;
      exists m :: 0 <= m < |st.subjectsCovered| && st.mostUsedSubject == Some(st.subjectsCovered[m].0)
        && (forall j :: 0 <= j < |st.subjectsCovered| ==> st.subjectsCovered[j].1 <= st.subjectsCovered[m].1)
        && (forall j :: 0 <= j < m ==> st.subjectsCovered[j].1 < st.subjectsCovered[m].1)
  {
    var st := StatsOf(docs).value;
    TalliedTotal(Subjects(docs));
    assert st.subjectsCovered != [];
    var m := FirstMax(st.subjectsCovered);
  }

  /** One more visual aid bumps the count of its subject. */
  lemma SubjectsPrefix(docs: seq<Record>, i: nat)
    requires i < |docs|
    ensures Tallied(Subjects(docs[..i + 1])) == Bump(Tallied(Subjects(docs[..i])), SubjectKey(docs[i]))
  {
    assert docs[..i + 1][..i] == docs[..i];
    assert Subjects(docs[..i + 1]) == Subjects(docs[..i]) + [SubjectKey(docs[i])];
    assert Subjects(docs[..i + 1])[..i] == Subjects(docs[..i]);
  }

  /** One more visual aid bumps the count of its grade level when it has a truthy one. */
  lemma GradesPrefix(docs: seq<Record>, i: nat)
    requires i < |docs|
    ensures GradeKey(docs[i]).None? ==> Tallied(GradeKeys(docs[..i + 1])) == Tallied(GradeKeys(docs[..i]))
    ensures GradeKey(docs[i]).Some? ==>
      Tallied(GradeKeys(docs[..i + 1])) == Bump(Tallied(GradeKeys(docs[..i])), GradeKey(docs[i]).value)
  {
    assert docs[..i + 1][..i] == docs[..i];
    if GradeKey(docs[i]).Some? {
      var keys := GradeKeys(docs[..i + 1]);
      assert keys[..|keys| - 1] == GradeKeys(docs[..i]);
    }
  }

  /**
   * The statistics loop: the asset types are counted first, then each
   * visual aid in turn bumps the count of its subject and, when it has a
   * truthy grade level, of its grade.
   */
  method ComputeStats(docs: seq<Record>) returns (r: Result<VisualAidStats, Exc>)
    ensures r == StatsOf(docs)
  {
    var images := CountAsset(docs, "image");
    var videos := CountAsset(docs, "video");
    var subjects: Tally<Value> := [];
    var grades: Tally<string> := [];
    var i := 0;
    while i < |docs|
      invariant 0 <= i <= |docs|
      invariant subjects == Tallied(Subjects(docs[..i]))
      invariant grades == Tallied(GradeKeys(docs[..i]))
      invariant FirstUnhashableSubject(docs[..i]).None?
    {
      SubjectsPrefix(docs, i);
      GradesPrefix(docs, i);
      var subject := SubjectKey(docs[i]);
      if !Hashable(subject) {
        assert docs[..i + 1][..i] == docs[..i];
        assert FirstUnhashableSubject(docs[..i + 1]) == Some(i);
        UnhashablePersists(docs, i + 1);
        return Err(OtherExc(UnhashableError(subject)));
      }
      subjects := Bump(subjects, subject);
      var grade := GradeKey(docs[i]);
      if grade.Some? {
        grades := Bump(grades, grade.value);
      }
      i := i + 1;
    }
    assert docs[..|docs|] == docs;
    r := Ok(VisualAidStats(|docs|, images, videos, subjects, grades, MostUsed(subjects)));
  }

  /** The first unhashable subject of a prefix is the first of the whole. */
  lemma {:induction false} UnhashablePersists(docs: seq<Record>, i: nat)
    requires i <= |docs| && FirstUnhashableSubject(docs[..i]).Some?
    ensures FirstUnhashableSubject(docs) == FirstUnhashableSubject(docs[..i])
    decreases |docs| - i
  {
    if i == |docs| {
      assert docs[..i] == docs;
    } else {
      assert docs[..i + 1][..i] == docs[..i];
      UnhashablePersists(docs, i + 1);
    }
  }

  // ---------------------------------------------------------------- the statistics route

  const StatsForbidden := "Can only view your own statistics"

  /** The body of `GET /stats/{user_id}`: the permission check, then the statistics of what the service returned. */
  function StatsBody(userId: string, currentUserId: string, role: Value, service: Result<seq<Record>, Exc>): (r: Result<VisualAidStats, Exc>)
    ensures !MayView(userId, currentUserId, role) ==> r == Err(HttpExc(403, StatsForbidden))
    ensures MayView(userId, currentUserId, role) && service.Err? ==> r == Err(service.error)
    ensures MayView(userId, currentUserId, role) && service.Ok? ==> r == StatsOf(service.value)
  {
    if !MayView(userId, currentUserId, role) then Err(HttpExc(403, StatsForbidden))
    else if service.Err? then Err(service.error)
    else StatsOf(service.value)
  }

  const StatsClauses := [Clause(AnyException, Raise(500, Some("Failed to retrieve statistics")))]

  /** `GET /stats/{user_id}` as written: the 403 is caught by its own `except Exception`. */
  function StatsAsWritten(userId: string, currentUserId: string, role: Value, service: Result<seq<Record>, Exc>): (r: Response<VisualAidStats>)
  {
    Route(StatsBody(userId, currentUserId, role, service), StatsClauses)
  }

  /** A student asking for someone else's statistics is answered 500, not 403. */
  lemma ForbiddenStatsAreServerErrorAsWritten(userId: string, currentUserId: string, role: Value, service: Result<seq<Record>, Exc>)
    requires !MayView(userId, currentUserId, role)
    ensures StatsAsWritten(userId, currentUserId, role, service) == HttpError(500, "Failed to retrieve statistics")
  {
    assert FirstMatch(StatsClauses, HttpExc(403, StatsForbidden)) == Some(0);
  }

  /** `GET /stats/{user_id}` as evidently intended: the 403 reaches the client. */
  function Stats(userId: string, currentUserId: string, role: Value, service: Result<seq<Record>, Exc>): (r: Response<VisualAidStats>)
    ensures !MayView(userId, currentUserId, role) ==> r == HttpError(403, StatsForbidden)
    ensures r.Success? ==> MayView(userId, currentUserId, role) && service.Ok? && StatsOf(service.value) == Ok(r.value)
  {
    KeepingHttpPassesHttpErrors(StatsBody(userId, currentUserId, role, service), StatsClauses);
    Route(StatsBody(userId, currentUserId, role, service), KeepingHttp(StatsClauses))
  }

  /**
   * The corrected route answers 403 to anyone who may not view, reports
   * the statistics to anyone who may, and fails as written otherwise.
   */
  lemma StatsRejectsForbiddenViews(userId: string, currentUserId: string, role: Value, service: Result<seq<Record>, Exc>)
    ensures !MayView(userId, currentUserId, role) ==> Stats(userId, currentUserId, role, service) == HttpError(403, StatsForbidden)
    ensures Stats(userId, currentUserId, role, service).Success? <==>
      MayView(userId, currentUserId, role) && service.Ok? && StatsOf(service.value).Ok?
    ensures MayView(userId, currentUserId, role) && (service.Ok? || !service.error.HttpExc?) ==>
      Stats(userId, currentUserId, role, service) == StatsAsWritten(userId, currentUserId, role, service)
  {
    KeepingHttpPassesHttpErrors(StatsBody(userId, currentUserId, role, service), StatsClauses);
  }
}
