/**
 * The visual-aid store (dao/visual_aid_dao.py): the `visual_aids` and
 * `visual_aid_templates` collections as maps from document id to record.
 * Deletion is soft: a deleted aid stays in the collection, marked
 * "deleted". Fresh ids and the clock are parameters.
 */
module VisualAidDao {
  import opened Wrappers
  import opened Text
  import opened Values
  import opened DaoErrorHandler

  /** The record `save_visual_aid` writes: the data, then the id, the timestamps and status "active". */
  function SavedAid(data: Record, id: string, now: string): (r: Record)
    ensures r.Keys == data.Keys + {"visual_aid_id", "created_at", "updated_at", "status"}
    ensures r["visual_aid_id"] == Str(id) && r["status"] == Str("active") && r["created_at"] == DateTime(now)
    ensures forall k :: k in data && k !in {"visual_aid_id", "created_at", "updated_at", "status"} ==> r[k] == data[k]
  {
    data + map["visual_aid_id" := Str(id), "created_at" := DateTime(now), "updated_at" := DateTime(now), "status" := Str("active")]
  }

  /** The record `delete_visual_aid` leaves: the same aid, marked deleted. */
  function SoftDeleted(aid: Record, now: string): (r: Record)
    ensures r.Keys == aid.Keys + {"status", "deleted_at"}
    ensures r["status"] == Str("deleted") && r["deleted_at"] == DateTime(now)
    ensures forall k :: k in aid && k != "status" && k != "deleted_at" ==> r[k] == aid[k]
  {
    aid + map["status" := Str("deleted"), "deleted_at" := DateTime(now)]
  }

  predicate IsActive(aid: Record)
  {
    Get(aid, "status", Null) == Str("active")
  }

  /** The record `save_visual_aid_template` writes: a fresh template is active and unused. */
  function NewTemplate(data: Record, id: string, now: string): (r: Record)
    ensures "usage_count" in r && r["usage_count"] == Int(0)
    ensures "template_id" in r && r["template_id"] == Str(id)
    ensures forall k :: k in data && k !in {"template_id", "created_at", "updated_at", "status", "usage_count"} ==> k in r && r[k] == data[k]
  {
    data + map["template_id" := Str(id), "created_at" := DateTime(now), "updated_at" := DateTime(now), "status" := Str("active")]
      + map["usage_count" := Int(0)]
  }

  /** `firestore.Increment(1)` on the usage count: a number grows by one, anything else becomes 1. */
  function Incremented(count: Value): (r: Value)
    ensures count.Int? ==> r == Int(count.i + 1)
    ensures !count.Int? && !count.Real? ==> r == Int(1)
  {
    match count
    case Int(n) => Int(n + 1)
    case Real(x) => Real(x + 1.0)
    case _ => Int(1)
  }

  /** The template after one `update_template_usage`. */
  function UsedTemplate(template: Record, now: string): (r: Record)
    ensures "usage_count" in r && r["usage_count"] == Incremented(Get(template, "usage_count", Null))
    ensures forall k :: k in template && k != "usage_count" && k != "last_used" ==> k in r && r[k] == template[k]
  {
    template + map["last_used" := DateTime(now)] + map["usage_count" := Incremented(Get(template, "usage_count", Null))]
  }

  /** A template used `n` times. */
  function UsedTimes(template: Record, n: nat, now: string): Record
  {
    if n == 0 then template else UsedTemplate(UsedTimes(template, n - 1, now), now)
  }

  /** Each use adds exactly one to a numeric usage count. */
  lemma {:induction false} UsageGrows(template: Record, n: nat, now: string)
    requires "usage_count" in template && template["usage_count"].Int?
    ensures var t := UsedTimes(template, n, now);
      "usage_count" in t && t["usage_count"] == Int(template["usage_count"].i + n)
  {
    if n > 0 {
      UsageGrows(template, n - 1, now);
    }
  }

  /** A new template that has been used `n` times has a usage count of exactly `n`. */
  lemma UsageCountsUses(data: Record, id: string, now: string, n: nat)
    ensures var t := UsedTimes(NewTemplate(data, id, now), n, now);
      "usage_count" in t && t["usage_count"] == Int(n)
  {
    UsageGrows(NewTemplate(data, id, now), n, now);
  }

  /** The message Firestore raises for an update of a missing document. */
  function MissingDocument(id: string): string
  {
    "404 No document to update: " + id
  }

  // ---------------------------------------------------------------- queries

  /** The stored aid `id` is one of the user's active aids, of the asset type when one is given. */
  predicate UserAid(aids: map<string, Record>, id: string, userId: string, assetType: Option<string>)
  {
    id in aids && IsActive(aids[id]) && Get(aids[id], "user_id", Null) == Str(userId)
    && (assetType.None? || Get(aids[id], "asset_type", Null) == Str(assetType.value))
  }

  /** A listed aid: the stored record with its document id set. */
  function Listed(aids: map<string, Record>, id: string): Record
    requires id in aids
  {
    aids[id] + map["visual_aid_id" := Str(id)]
  }

  /**
   * The records of `ids`, in that order, that are active, belong to
   * `userId` and, when an asset type is given, have that type; each with
   * its document id set. Every such record of `ids` is listed.
   */
  function UserAidsAmong(aids: map<string, Record>, ids: seq<string>, userId: string, assetType: Option<string>): (r: seq<Record>)
    ensures |r| <= |ids|
    ensures forall i :: 0 <= i < |r| ==> IsActive(r[i]) && Get(r[i], "user_id", Null) == Str(userId)
    ensures assetType.Some? ==> forall i :: 0 <= i < |r| ==> Get(r[i], "asset_type", Null) == Str(assetType.value)
    ensures forall id :: id in ids && UserAid(aids, id, userId, assetType) ==> Listed(aids, id) in r
  {
    if ids == [] then []
    else
      var rest := UserAidsAmong(aids, ids[1..], userId, assetType);
      var id := ids[0];
      assert forall x :: x in ids ==> x == id || x in ids[1..];
      if UserAid(aids, id, userId, assetType) then [Listed(aids, id)] + rest
      else rest
  }

  /** The listing keeps the order of the ids: listing a concatenation concatenates the listings. */
  lemma {:induction false} UserAidsAmongKeepsOrder(aids: map<string, Record>, xs: seq<string>, ys: seq<string>, userId: string, assetType: Option<string>)
    ensures UserAidsAmong(aids, xs + ys, userId, assetType)
         == UserAidsAmong(aids, xs, userId, assetType) + UserAidsAmong(aids, ys, userId, assetType)
  {
    if xs != [] {
      UserAidsAmongKeepsOrder(aids, xs[1..], ys, userId, assetType);
      assert (xs + ys)[1..] == xs[1..] + ys;
    } else {
      assert xs + ys == ys;
    }
  }

  /** Storing a record under an id that is not listed leaves the listing unchanged. */
  lemma {:induction false} UserAidsAmongFrame(aids: map<string, Record>, ids: seq<string>, id: string, aid: Record, userId: string, assetType: Option<string>)
    requires id !in ids
    ensures UserAidsAmong(aids[id := aid], ids, userId, assetType) == UserAidsAmong(aids, ids, userId, assetType)
  {
    if ids != [] {
      UserAidsAmongFrame(aids, ids[1..], id, aid, userId, assetType);
    }
  }

  /** Lexicographic order of strings, by code point. */
  predicate LexLe(a: string, b: string)
  {
    if a == [] then true
    else if b == [] then false
    else if a[0] != b[0] then a[0] < b[0]
    else LexLe(a[1..], b[1..])
  }

  /** The range query `p <= t <= p + U+F8FF` of `search_visual_aids`. */
  predicate InPrefixRange(t: string, p: string)
  {
    LexLe(p, t) && LexLe(t, p + ['\U{F8FF}'])
  }

  /** The range holds exactly the strings that start with `p` and continue with nothing above U+F8FF. */
  lemma {:induction false} PrefixRangeIsPrefix(t: string, p: string)
    ensures InPrefixRange(t, p) <==> StartsWith(t, p) && LexLe(t[|p|..], ['\U{F8FF}'])
  {
    if p == [] {
      assert t[0..] == t;
    } else if t != [] && t[0] == p[0] {
      PrefixRangeIsPrefix(t[1..], p[1..]);
      assert (p + ['\U{F8FF}'])[1..] == p[1..] + ['\U{F8FF}'];
      if |p| <= |t| {
        assert t[1..][|p| - 1..] == t[|p|..];
      }
      assert StartsWith(t, p) <==> StartsWith(t[1..], p[1..]) by {
        if |p| <= |t| {
          assert t[..|p|] == [t[0]] + t[1..][..|p| - 1];
          assert p == [p[0]] + p[1..];
        }
      }
    }
  }

  /** A title that starts with the query and has no character at or above U+F8FF lies in the query's range. */
  lemma PrefixInRange(t: string, p: string)
    requires StartsWith(t, p)
    requires forall i :: 0 <= i < |t| ==> t[i] < '\U{F8FF}'
    ensures InPrefixRange(t, p)
  {
    PrefixRangeIsPrefix(t, p);
  }

  /** The aid has a string topic that `inRange` places in the range of the query. */
  predicate TopicIn(aid: Record, query: string, inRange: (string, string) -> bool)
  {
    var topic := Get(aid, "topic", Null);
    topic.Str? && inRange(topic.s, query)
  }

  /** The range test as written: the stored topic as it is, against the range of the lower-cased query. */
  predicate RangeAsWritten(topic: string, query: string)
  {
    InPrefixRange(topic, Lower(query))
  }

  /** The range test as evidently intended: the lower-cased topic against the range of the lower-cased query. */
  predicate RangeFolded(topic: string, query: string)
  {
    InPrefixRange(Lower(topic), Lower(query))
  }

  /**
   * The range query as written: the stored topic is compared as it is
   * with the range of the lower-cased query, so a topic that starts with
   * a capital letter is never found.
   */
  predicate TopicMatchesAsWritten(aid: Record, query: string)
  {
    TopicIn(aid, query, RangeAsWritten)
  }

  /** Searching for "Photosynthesis" misses the aid whose topic is "Photosynthesis". */
  lemma CapitalisedTopicMissedAsWritten()
    ensures !TopicMatchesAsWritten(map["topic" := Str("Photosynthesis")], "Photosynthesis")
  {
    var p := Lower("Photosynthesis");
    assert p[0] == 'p';
    assert !LexLe(p, "Photosynthesis");
  }

  /** The range query as evidently intended: the lower-cased topic against the range of the lower-cased query. */
  predicate TopicMatches(aid: Record, query: string)
  {
    TopicIn(aid, query, RangeFolded)
  }

  lemma LowerKeepsPrefix(t: string, p: string)
    requires StartsWith(t, p)
    ensures StartsWith(Lower(t), Lower(p))
  {
    assert Lower(t)[..|p|] == Lower(p);
  }

  /** Searching for an aid's topic, or any start of it, finds the aid, whatever the case of either. */
  lemma TopicPrefixIsFound(aid: Record, query: string)
    requires "topic" in aid && aid["topic"].Str? && StartsWith(aid["topic"].s, query)
    requires forall i :: 0 <= i < |aid["topic"].s| ==> aid["topic"].s[i] < '\U{F8FF}'
    ensures TopicMatches(aid, query)
  {
    var t := aid["topic"].s;
    LowerKeepsPrefix(t, query);
    PrefixInRange(Lower(t), Lower(query));
  }

  /** The search finds the stored aid `id`: it is active, of the asset type if one is given, and its topic matches. */
  predicate Found(aids: map<string, Record>, id: string, query: string, assetType: Option<string>, inRange: (string, string) -> bool)
  {
    id in aids && IsActive(aids[id]) && TopicIn(aids[id], query, inRange)
    && (assetType.None? || Get(aids[id], "asset_type", Null) == Str(assetType.value))
  }

  /**
   * The active records of `ids`, in that order, whose topic lies in the
   * query's range as `inRange` draws it; every such record is listed.
   */
  function TopicMatchesAmong(aids: map<string, Record>, ids: seq<string>, query: string, assetType: Option<string>,
                             inRange: (string, string) -> bool): (r: seq<Record>)
    ensures |r| <= |ids|
    ensures forall i :: 0 <= i < |r| ==> IsActive(r[i]) && TopicIn(r[i], query, inRange)
    ensures forall id :: id in ids && Found(aids, id, query, assetType, inRange) ==> Listed(aids, id) in r
  {
    if ids == [] then []
    else
      var rest := TopicMatchesAmong(aids, ids[1..], query, assetType, inRange);
      var id := ids[0];
      assert forall x :: x in ids ==> x == id || x in ids[1..];
      if Found(aids, id, query, assetType, inRange) then
        assert Get(Listed(aids, id), "topic", Null) == Get(aids[id], "topic", Null);
        [Listed(aids, id)] + rest
      else rest
  }

  function Reverse<T>(s: seq<T>): (r: seq<T>)
    ensures |r| == |s| && forall i :: 0 <= i < |s| ==> r[i] == s[|s| - 1 - i]
  {
    if s == [] then [] else Reverse(s[1..]) + [s[0]]
  }

  lemma ReverseAppend<T>(s: seq<T>, x: T)
    ensures Reverse(s + [x]) == [x] + Reverse(s)
  {
    var r := Reverse(s + [x]);
    assert forall i :: 0 <= i < |r| ==> r[i] == ([x] + Reverse(s))[i];
  }

  /** The creation time of a stored aid is a timestamp, read back as a `datetime`. */
  predicate CreatedStamped(aid: Record)
  {
    "created_at" in aid && aid["created_at"].DateTime?
  }

  /** Every aid listed from a collection of stamped aids is stamped. */
  lemma {:induction false} ListedAreStamped(aids: map<string, Record>, ids: seq<string>, userId: string, assetType: Option<string>)
    requires forall id :: id in aids ==> CreatedStamped(aids[id])
    ensures forall i :: 0 <= i < |UserAidsAmong(aids, ids, userId, assetType)| ==>
      CreatedStamped(UserAidsAmong(aids, ids, userId, assetType)[i])
  {
    if ids != [] {
      ListedAreStamped(aids, ids[1..], userId, assetType);
    }
  }

  /**
   * The aid saved last comes first: when a user's aid of the asset type is
   * saved, the listing is that aid followed by the listing before.
   */
  lemma NewestListedFirst(aids: map<string, Record>, saved: seq<string>, data: Record, id: string, now: string,
                          userId: string, assetType: Option<string>)
    requires id !in aids && id !in saved
    requires "user_id" in data && data["user_id"] == Str(userId)
    requires assetType.Some? ==> "asset_type" in data && data["asset_type"] == Str(assetType.value)
    ensures var after := aids[id := SavedAid(data, id, now)];
      UserAidsAmong(after, Reverse(saved + [id]), userId, assetType)
      == [Listed(after, id)] + UserAidsAmong(aids, Reverse(saved), userId, assetType)
  {
    var after := aids[id := SavedAid(data, id, now)];
    ReverseAppend(saved, id);
    assert id !in Reverse(saved) by {
      assert forall x :: x in Reverse(saved) ==> x in saved;
    }
    UserAidsAmongKeepsOrder(after, [id], Reverse(saved), userId, assetType);
    UserAidsAmongFrame(aids, Reverse(saved), id, SavedAid(data, id, now), userId, assetType);
    assert UserAid(after, id, userId, assetType);
  }

  /** `if asset_type:`: an empty asset type means no filter. */
  function AssetFilter(assetType: Option<string>): (f: Option<string>)
    ensures f.Some? <==> assetType.Some? && assetType.value != []
  {
    if assetType.Some? && assetType.value != [] then assetType else None
  }

  class VisualAidStore {
    var aids: map<string, Record>
    /** The ids of `aids` in the order they were saved, oldest first. */
    var saved: seq<string>
    var templates: map<string, Record>

    /** Every saved aid is listed once in `saved`, and carries its creation timestamp. */
    predicate Valid()
      reads this
    {
      && (forall i :: 0 <= i < |saved| ==> saved[i] in aids)
      && (forall id :: id in aids ==> id in saved)
      && (forall i, j :: 0 <= i < j < |saved| ==> saved[i] != saved[j])
      && (forall id :: id in aids ==> CreatedStamped(aids[id]))
    }

    constructor ()
      ensures Valid() && aids == map[] && saved == [] && templates == map[]
    {
      aids := map[];
      saved := [];
      templates := map[];
    }

    /** `save_visual_aid`: stores a copy of the data under a fresh id, active; the data itself is not changed. */
    method SaveVisualAid(data: Record, id: string, now: string) returns (r: string)
      requires Valid() && id !in aids
      modifies this
      ensures Valid()
      ensures r == id
      ensures aids == old(aids)[id := SavedAid(data, id, now)]
      ensures saved == old(saved) + [id] && templates == old(templates)
    {
      aids := aids[id := SavedAid(data, id, now)];
      saved := saved + [id];
      r := id;
    }

    /** `get_visual_aid`: the record, whatever its status, or `None`. */
    function GetVisualAid(id: string): (r: Option<Record>)
      reads this
      ensures r.Some? <==> id in aids
      ensures r.Some? ==> r.value == aids[id]
    {
      if id in aids then Some(aids[id]) else None
    }

    /**
     * `delete_visual_aid`: marks the aid deleted and keeps it; updating a
     * missing document raises, and the decorator classifies that error.
     */
    method DeleteVisualAid(id: string, now: string) returns (r: Result<bool, DaoError>)
      requires Valid()
      modifies this
      ensures Valid() && saved == old(saved) && templates == old(templates)
      ensures r.Ok? <==> id in old(aids)
      ensures r.Ok? ==> r.value && aids == old(aids)[id := SoftDeleted(old(aids)[id], now)]
      ensures r.Err? ==> aids == old(aids) && r.error == ClassifyException("delete_visual_aid", MissingDocument(id))
    {
      if id !in aids {
        return Err(ClassifyException("delete_visual_aid", MissingDocument(id)));
      }
      aids := aids[id := SoftDeleted(aids[id], now)];
      r := Ok(true);
    }

    /**
     * `get_user_visual_aids`: the user's active aids, of the asset type when
     * one is given, newest first, at most `limit` of them.
     */
    function GetUserVisualAids(userId: string, limit: nat, assetType: Option<string>): (r: seq<Record>)
      reads this
      ensures r == Take(UserAidsAmong(aids, Reverse(saved), userId, AssetFilter(assetType)), limit)
      ensures |r| <= limit
      ensures forall i :: 0 <= i < |r| ==> IsActive(r[i]) && Get(r[i], "user_id", Null) == Str(userId)
      ensures AssetFilter(assetType).Some? ==> forall i :: 0 <= i < |r| ==> Get(r[i], "asset_type", Null) == Str(assetType.value)
      ensures Valid() ==> forall i :: 0 <= i < |r| ==> CreatedStamped(r[i])
    {
      var all := UserAidsAmong(aids, Reverse(saved), userId, AssetFilter(assetType));
      if Valid() then
        ListedAreStamped(aids, Reverse(saved), userId, AssetFilter(assetType));
        Take(all, limit)
      else Take(all, limit)
    }

    /**
     * `search_visual_aids` as written: active aids whose stored topic lies
     * in the range that starts at the lower-cased query, at most `limit` of
     * them.
     */
    function SearchVisualAids(topic: string, assetType: Option<string>, limit: nat): (r: seq<Record>)
      reads this
      ensures |r| <= limit
      ensures forall i :: 0 <= i < |r| ==> IsActive(r[i]) && TopicMatchesAsWritten(r[i], topic)
      ensures |TopicMatchesAmong(aids, saved, topic, AssetFilter(assetType), RangeAsWritten)| <= limit ==>
        forall id :: id in saved && Found(aids, id, topic, AssetFilter(assetType), RangeAsWritten) ==> Listed(aids, id) in r
    {
      Take(TopicMatchesAmong(aids, saved, topic, AssetFilter(assetType), RangeAsWritten), limit)
    }

    /** `search_visual_aids` with the stored topic lower-cased too, as evidently intended. */
    function SearchVisualAidsFixed(topic: string, assetType: Option<string>, limit: nat): (r: seq<Record>)
      reads this
      ensures |r| <= limit
      ensures forall i :: 0 <= i < |r| ==> IsActive(r[i]) && TopicMatches(r[i], topic)
      ensures |TopicMatchesAmong(aids, saved, topic, AssetFilter(assetType), RangeFolded)| <= limit ==>
        forall id :: id in saved && Found(aids, id, topic, AssetFilter(assetType), RangeFolded) ==> Listed(aids, id) in r
    {
      Take(TopicMatchesAmong(aids, saved, topic, AssetFilter(assetType), RangeFolded), limit)
    }

    /** `save_visual_aid_template`: a fresh template with usage count 0. */
    method SaveTemplate(data: Record, id: string, now: string) returns (r: string)
      modifies this
      ensures r == id && templates == old(templates)[id := NewTemplate(data, id, now)]
      ensures aids == old(aids) && saved == old(saved)
    {
      templates := templates[id := NewTemplate(data, id, now)];
      r := id;
    }

    /** `update_template_usage`: the usage count of an existing template grows by one; a missing one raises. */
    method UpdateTemplateUsage(id: string, now: string) returns (r: Result<bool, DaoError>)
      modifies this
      ensures aids == old(aids) && saved == old(saved)
      ensures r.Ok? <==> id in old(templates)
      ensures r.Ok? ==> r.value && templates == old(templates)[id := UsedTemplate(old(templates)[id], now)]
      ensures r.Err? ==> templates == old(templates) && r.error == ClassifyException("update_template_usage", MissingDocument(id))
    {
      if id !in templates {
        return Err(ClassifyException("update_template_usage", MissingDocument(id)));
      }
      templates := templates[id := UsedTemplate(templates[id], now)];
      r := Ok(true);
    }
  }
}
