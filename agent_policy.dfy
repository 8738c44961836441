/**
 * Policies the agents share: a recommendation list made of fixed items
 * followed by whatever list the reasoning engine returned, cut to five,
 * and confidence scores kept in integer hundredths and capped at one.
 */
module AgentPolicy {
  import opened Wrappers
  import opened Text
  import opened Values

  /**
   * `base_recommendations.extend(adk_recs)` when the engine returned a list,
   * then `[:5]`. `adk` is `None` when the engine is unavailable, failed or
   * returned something other than a list. The fixed items come first and
   * survive the cut as far as they fit; engine items fill the rest.
   */
  function TopFive(base: seq<string>, adk: Option<seq<string>>): (r: seq<string>)
    ensures |r| <= 5
    ensures |base| <= 5 ==> |base| <= |r| && r[..|base|] == base
    ensures |base| > 5 ==> r == base[..5]
    ensures adk.None? ==> r == Take(base, 5)
    ensures adk.Some? && |base| <= 5 ==> r[|base|..] == Take(adk.value, 5 - |base|)
  {
    var all := base + (if adk.Some? then adk.value else []);
    assert all[..|base|] == base;
    assert all[|base|..] == (if adk.Some? then adk.value else []);
    Take(all, 5)
  }

  /**
   * The agents' `_enhance_rubric_with_adk` and `_optimize_design_with_adk`:
   * when an engine exists and its call returns, the dict gains the answer
   * under `key`; without an engine, or when the call raises, the dict is
   * returned unchanged.
   */
  function WithEngineAnswer(m: Record, key: string, engineExists: bool, reply: Result<Value, string>): (r: Record)
    ensures engineExists && reply.Ok? ==>
      r.Keys == m.Keys + {key} && r[key] == reply.value && forall k :: k in m && k != key ==> r[k] == m[k]
    ensures !(engineExists && reply.Ok?) ==> r == m
  {
    if engineExists && reply.Ok? then m[key := reply.value] else m
  }

  /** `round(min(score, 1.0), 2)` for a score already in hundredths. */
  function CapAtOne(score: nat): (c: nat)
    ensures c <= 100
    ensures c == score <==> score <= 100
  {
    if score <= 100 then score else 100
  }

  /** The marker an agent records when a reasoning-engine call raised. */
  function FailedMarker(): Value
  {
    Obj(map["status" := Str("failed"), "fallback" := Bool(true)])
  }

  /** The marker an agent records when ADK is enabled but no reasoning engine exists. */
  function UnavailableMarker(): Value
  {
    Obj(map["status" := Str("adk_unavailable"), "fallback" := Bool(true)])
  }
}
