/**
 * The per-user usage counters that the planning DAO (user_planning_history)
 * and the content DAO (user_content_history) keep: one overall counter and
 * one counter per kind of item, advanced together by a read-modify-write
 * that merges into the stored document.
 */
module UsageStats {
  import opened Wrappers
  import opened Values
  import AssessmentDao

  /**
   * The names of one history document's fields: the overall counter
   * (`total_plans_created`), the overall last-time field
   * (`last_plan_created`) and the verb of the per-kind fields
   * (`total_{kind}_created`, `last_{kind}_created`).
   */
  datatype Counters = Counters(total: string, last: string, verb: string)

  /**
   * The overall names look like the per-kind ones (`total_…`, `last_…`), so
   * neither can be mistaken for the user id or a timestamp field.
   */
  predicate Sound(c: Counters)
  {
    |c.total| > 0 && c.total[0] == 't' && |c.last| > 0 && c.last[0] == 'l'
  }

  /** `f"{prefix}{kind}_{verb}"`: the name of a per-kind field starts with its prefix. */
  function KindField(prefix: string, c: Counters, kind: string): (k: string)
    ensures |prefix| < |k| && k[..|prefix|] == prefix
    ensures prefix != [] ==> k[0] == prefix[0]
  {
    prefix + kind + "_" + c.verb
  }

  /** `f"total_{kind}_{verb}"`. */
  function TypeKey(c: Counters, kind: string): string
  {
    KindField("total_", c, kind)
  }

  /** `f"last_{kind}_{verb}"`. */
  function LastTypeKey(c: Counters, kind: string): string
  {
    KindField("last_", c, kind)
  }

  /** Two kinds name the same per-kind counter only when they are the same kind. */
  lemma TypeKeyInjective(c: Counters, a: string, b: string)
    requires TypeKey(c, a) == TypeKey(c, b)
    ensures a == b
  {
    var ka := TypeKey(c, a);
    var kb := TypeKey(c, b);
    assert |a| == |b|;
    assert a == ka[6..6 + |a|];
    assert b == kb[6..6 + |b|];
  }

  /** The fields a usage update writes, whatever the stored document held. */
  function WrittenKeys(c: Counters, kind: string, first: bool): set<string>
  {
    {c.total, TypeKey(c, kind), LastTypeKey(c, kind), c.last, "updated_at"}
    + (if first then {"user_id", "created_at"} else {})
  }

  /**
   * The fields one usage update writes: on a stored document, both counters
   * read with a default of 0 and advanced by one; on the first use, both
   * counters at 1 and the user id. `None` when a stored counter is not an
   * integer, where the `+ 1` raises.
   */
  function UsageUpdate(existing: Option<Record>, userId: string, c: Counters, kind: string, now: string): (w: Option<Record>)
    ensures existing.None? ==> w.Some?
    ensures existing.Some? ==> (w.Some? <==>
      AssessmentDao.Counter(existing.value, c.total).Some? && AssessmentDao.Counter(existing.value, TypeKey(c, kind)).Some?)
    ensures w.Some? ==> w.value.Keys == WrittenKeys(c, kind, existing.None?)
  {
    if existing.None? then
      Some(map[
        "user_id" := Str(userId),
        LastTypeKey(c, kind) := DateTime(now),
        c.last := DateTime(now),
        "created_at" := DateTime(now),
        "updated_at" := DateTime(now)]
      + map[c.total := Int(1)]
      + map[TypeKey(c, kind) := Int(1)])
    else
      var total := AssessmentDao.Counter(existing.value, c.total);
      var ofKind := AssessmentDao.Counter(existing.value, TypeKey(c, kind));
      if total.None? || ofKind.None? then None
      else
        Some(map[
          LastTypeKey(c, kind) := DateTime(now),
          c.last := DateTime(now),
          "updated_at" := DateTime(now)]
        + map[c.total := Int(total.value + 1)]
        + map[TypeKey(c, kind) := Int(ofKind.value + 1)])
  }

  /** The value a counter had before the update: 0 for a first use or a missing field. */
  function Before(existing: Option<Record>, key: string): int
    requires existing.Some? ==> AssessmentDao.Counter(existing.value, key).Some?
  {
    if existing.None? then 0 else AssessmentDao.Counter(existing.value, key).value
  }

  /**
   * After a successful update the stored document counts one more item
   * overall and one more of this kind (when the two names coincide, the
   * single field still advances by exactly one), the first document carries
   * the user id, and every field the update does not write, including the
   * counters of every other kind, keeps its stored value.
   */
  lemma UsageUpdateCounts(existing: Option<Record>, userId: string, c: Counters, kind: string, now: string)
    requires Sound(c) && UsageUpdate(existing, userId, c, kind, now).Some?
    ensures var doc := AssessmentDao.Merged(existing, UsageUpdate(existing, userId, c, kind, now).value);
      && doc[c.total] == Int(Before(existing, c.total) + 1)
      && doc[TypeKey(c, kind)] == Int(Before(existing, TypeKey(c, kind)) + 1)
      && (existing.None? ==> doc["user_id"] == Str(userId))
      && (existing.Some? ==> forall k :: k in existing.value && k !in WrittenKeys(c, kind, false) ==> doc[k] == existing.value[k])
  {
    if existing.None? {
      var w := UsageUpdate(existing, userId, c, kind, now).value;
      assert "user_id" != c.total && "user_id" != TypeKey(c, kind) by {
        assert "user_id"[0] == 'u';
      }
    }
  }

  /**
   * The counter of any other kind is left as it was, unless its name is
   * the overall counter's or the overall last-time field's.
   */
  lemma OtherKindsUntouched(existing: Record, userId: string, c: Counters, kind: string, other: string, now: string)
    requires UsageUpdate(Some(existing), userId, c, kind, now).Some?
    requires Sound(c)
    requires other != kind && TypeKey(c, other) != c.total
    requires TypeKey(c, other) in existing
    ensures AssessmentDao.Merged(Some(existing), UsageUpdate(Some(existing), userId, c, kind, now).value)[TypeKey(c, other)]
      == existing[TypeKey(c, other)]
  {
    var k := TypeKey(c, other);
    if k == TypeKey(c, kind) {
      TypeKeyInjective(c, other, kind);
    }
    assert k != LastTypeKey(c, kind) by {
      assert k[0] != LastTypeKey(c, kind)[0];
    }
    assert k != "updated_at" by {
      assert k[0] != "updated_at"[0];
    }
    UsageUpdateCounts(Some(existing), userId, c, kind, now);
  }
}
