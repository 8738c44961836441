/**
 * The lesson pipeline (orchestrator/lesson_pipeline.py): per-lesson-type
 * stage tables, filtering by request flags, the layered dependency
 * resolver, the sequential stage loop with its partial-failure policy,
 * step-context construction and the assembly of the final response.
 *
 * A stage handler is an oracle `run(name, context)` that returns the
 * handler's dict or raises (an error message).
 */
module LessonPipeline {
  import opened Wrappers
  import opened Text
  import opened Values

  // ================================================================ stage tables

  datatype StepConfig = StepConfig(name: string, required: bool, dependsOn: seq<string>)

  const Planning := StepConfig("planning", true, [])
  const ContentGeneration := StepConfig("content_generation", true, ["planning"])
  const VisualAids := StepConfig("visual_aids", false, ["planning", "content_generation"])
  const AssessmentCreation := StepConfig("assessment_creation", false, ["planning", "content_generation"])

  /** `self.pipeline_steps.get(lesson_type, [])`. */
  function PipelineSteps(lessonType: string): (steps: seq<StepConfig>)
    ensures steps != [] <==> lessonType in {"complete", "planning_only", "content_only"}
    ensures lessonType == "complete" ==> |steps| == 4 && steps[0] == Planning && steps[1] == ContentGeneration
    ensures lessonType != "complete" ==> forall i :: 0 <= i < |steps| ==> steps[i].required && steps[i].dependsOn == []
  {
    if lessonType == "complete" then [Planning, ContentGeneration, VisualAids, AssessmentCreation]
    else if lessonType == "planning_only" then [StepConfig("planning", true, [])]
    else if lessonType == "content_only" then [StepConfig("content_generation", true, [])]
    else []
  }

  predicate Keep(step: StepConfig, includeVisualAids: bool, assessmentRequired: bool)
  {
    !(step.name == "visual_aids" && !includeVisualAids) && !(step.name == "assessment_creation" && !assessmentRequired)
  }

  /** The filtering loop at the head of `_execute_workflow`. */
  function FilterSteps(steps: seq<StepConfig>, includeVisualAids: bool, assessmentRequired: bool): (active: seq<StepConfig>)
    ensures |active| <= |steps|
    ensures forall s :: s in active <==> s in steps && Keep(s, includeVisualAids, assessmentRequired)
  {
    if steps == [] then []
    else
      var rest := FilterSteps(steps[1..], includeVisualAids, assessmentRequired);
      if Keep(steps[0], includeVisualAids, assessmentRequired) then [steps[0]] + rest else rest
  }

  /** For the "complete" table, filtering keeps table order and drops exactly the switched-off optional stages. */
  lemma FilterCompleteTable(includeVisualAids: bool, assessmentRequired: bool)
    ensures FilterSteps(PipelineSteps("complete"), includeVisualAids, assessmentRequired)
      == [Planning, ContentGeneration]
         + (if includeVisualAids then [VisualAids] else [])
         + (if assessmentRequired then [AssessmentCreation] else [])
  {
    var t := PipelineSteps("complete");
    var iv, ar := includeVisualAids, assessmentRequired;
    KeepCompleteTable(iv, ar);
    assert t[1..][1..] == t[2..] && t[2..][1..] == t[3..] && t[3..] == [AssessmentCreation];
    var f3 := FilterSteps(t[3..], iv, ar);
    assert f3 == (if ar then [AssessmentCreation] else []) by {
      FilterUnfold(t[3..], iv, ar);
      assert FilterSteps([AssessmentCreation][1..], iv, ar) == [];
    }
    var f2 := FilterSteps(t[2..], iv, ar);
    assert f2 == (if iv then [VisualAids] else []) + f3 by { FilterUnfold(t[2..], iv, ar); }
    var f1 := FilterSteps(t[1..], iv, ar);
    assert f1 == [ContentGeneration] + f2 by { FilterUnfold(t[1..], iv, ar); }
    assert FilterSteps(t, iv, ar) == [Planning] + f1 by { FilterUnfold(t, iv, ar); }
    ConcatFour(Planning, ContentGeneration, if iv then [VisualAids] else [], f3);
  }

  lemma ConcatFour<T>(a: T, b: T, xs: seq<T>, ys: seq<T>)
    ensures [a] + ([b] + (xs + ys)) == [a, b] + xs + ys
  {
  }

  lemma KeepCompleteTable(includeVisualAids: bool, assessmentRequired: bool)
    ensures Keep(Planning, includeVisualAids, assessmentRequired)
    ensures Keep(ContentGeneration, includeVisualAids, assessmentRequired)
    ensures Keep(VisualAids, includeVisualAids, assessmentRequired) <==> includeVisualAids
    ensures Keep(AssessmentCreation, includeVisualAids, assessmentRequired) <==> assessmentRequired
  {
    assert |Planning.name| == 8 && |ContentGeneration.name| == 18;
    assert |VisualAids.name| == 11 && |AssessmentCreation.name| == 19;
  }

  lemma FilterUnfold(steps: seq<StepConfig>, includeVisualAids: bool, assessmentRequired: bool)
    requires steps != []
    ensures FilterSteps(steps, includeVisualAids, assessmentRequired)
      == (if Keep(steps[0], includeVisualAids, assessmentRequired) then [steps[0]] else [])
         + FilterSteps(steps[1..], includeVisualAids, assessmentRequired)
  {
  }

  // ================================================================ dependency resolution

  function Names(steps: seq<StepConfig>): (names: seq<string>)
    ensures |names| == |steps|
    ensures forall i :: 0 <= i < |steps| ==> names[i] == steps[i].name
  {
    if steps == [] then [] else [steps[0].name] + Names(steps[1..])
  }

  predicate Distinct<T(==)>(xs: seq<T>)
  {
    forall i, j :: 0 <= i < j < |xs| ==> xs[i] != xs[j]
  }

  /** `list(step_map.keys())`: each name once, in order of first appearance. */
  function UniqueNames(steps: seq<StepConfig>): (names: seq<string>)
    ensures Distinct(names)
    ensures forall n :: n in names <==> exists i :: 0 <= i < |steps| && steps[i].name == n
  {
    if steps == [] then []
    else
      var front := UniqueNames(steps[..|steps| - 1]);
      var last := steps[|steps| - 1].name;
      assert forall i :: 0 <= i < |steps| - 1 ==> steps[..|steps| - 1][i] == steps[i];
      if last in front then front else front + [last]
  }

  /** `step_map[name].get("depends_on", [])`: a later step with the same name replaces an earlier one. */
  function DepsMap(steps: seq<StepConfig>): (deps: map<string, seq<string>>)
    ensures forall n :: n in deps <==> exists i :: 0 <= i < |steps| && steps[i].name == n
  {
    if steps == [] then map[]
    else
      var last := steps[|steps| - 1];
      assert forall i :: 0 <= i < |steps| - 1 ==> steps[..|steps| - 1][i] == steps[i];
      DepsMap(steps[..|steps| - 1])[last.name := last.dependsOn]
  }

  predicate AllIn(xs: seq<string>, ys: seq<string>)
  {
    forall i :: 0 <= i < |xs| ==> xs[i] in ys
  }

  function DepsOf(deps: map<string, seq<string>>, n: string): seq<string>
  {
    if n in deps then deps[n] else []
  }

  predicate IsReady(deps: map<string, seq<string>>, resolved: seq<string>, n: string)
  {
    AllIn(DepsOf(deps, n), resolved)
  }

  /** The names of `remaining` whose dependencies are all resolved, in order. */
  function Ready(remaining: seq<string>, deps: map<string, seq<string>>, resolved: seq<string>): (ready: seq<string>)
    ensures |ready| <= |remaining|
  {
    if remaining == [] then []
    else
      var rest := Ready(remaining[1..], deps, resolved);
      if IsReady(deps, resolved, remaining[0]) then [remaining[0]] + rest else rest
  }

  /** The names of `remaining` that are not ready, in order. */
  function Blocked(remaining: seq<string>, deps: map<string, seq<string>>, resolved: seq<string>): (blocked: seq<string>)
    ensures |blocked| <= |remaining|
  {
    if remaining == [] then []
    else
      var rest := Blocked(remaining[1..], deps, resolved);
      if IsReady(deps, resolved, remaining[0]) then rest else [remaining[0]] + rest
  }

  /** A name is ready-listed exactly when it remains and its dependencies are resolved. */
  lemma {:induction false} ReadyMembers(remaining: seq<string>, deps: map<string, seq<string>>, resolved: seq<string>)
    ensures forall n :: n in Ready(remaining, deps, resolved) <==> n in remaining && IsReady(deps, resolved, n)
    ensures forall n :: n in Blocked(remaining, deps, resolved) <==> n in remaining && !IsReady(deps, resolved, n)
  {
    if remaining != [] {
      ReadyMembers(remaining[1..], deps, resolved);
      assert forall n :: n in remaining <==> n == remaining[0] || n in remaining[1..];
    }
  }

  lemma {:induction false} ReadyBlockedSplit(remaining: seq<string>, deps: map<string, seq<string>>, resolved: seq<string>)
    ensures multiset(Ready(remaining, deps, resolved)) + multiset(Blocked(remaining, deps, resolved)) == multiset(remaining)
    ensures |Ready(remaining, deps, resolved)| + |Blocked(remaining, deps, resolved)| == |remaining|
  {
    if remaining != [] {
      var r := remaining;
      ReadyBlockedSplit(r[1..], deps, resolved);
      HeadTail(r);
      assert multiset(r) == multiset([r[0]]) + multiset(r[1..]);
    }
  }

  /** Elements at even positions: what the aliased removal loop takes. */
  function Evens<T>(xs: seq<T>): (r: seq<T>)
    ensures |r| == (|xs| + 1) / 2
    ensures forall i :: 0 <= i < |r| ==> r[i] == xs[2 * i]
  {
    seq((|xs| + 1) / 2, i requires 0 <= i < (|xs| + 1) / 2 => xs[2 * i])
  }

  /** Elements at odd positions: what the aliased removal loop leaves behind. */
  function Odds<T>(xs: seq<T>): (r: seq<T>)
    ensures |r| == |xs| / 2
    ensures forall i :: 0 <= i < |r| ==> r[i] == xs[2 * i + 1]
  {
    seq(|xs| / 2, i requires 0 <= i < |xs| / 2 => xs[2 * i + 1])
  }

  lemma {:induction false} EvensOddsSplit<T>(xs: seq<T>)
    ensures multiset(Evens(xs)) + multiset(Odds(xs)) == multiset(xs)
    decreases |xs|
  {
    if |xs| >= 2 {
      var t := xs[2..];
      EvensOddsSplit(t);
      EvensOddsCons(xs);
    } else if |xs| == 1 {
      assert Evens(xs) == xs;
      assert Odds(xs) == [];
    }
  }

  lemma EvensOddsCons<T>(xs: seq<T>)
    requires |xs| >= 2
    ensures Evens(xs) == [xs[0]] + Evens(xs[2..])
    ensures Odds(xs) == [xs[1]] + Odds(xs[2..])
    ensures xs == [xs[0], xs[1]] + xs[2..]
  {
    EvensCons(xs);
    OddsCons(xs);
  }

  lemma EvensCons<T>(xs: seq<T>)
    requires |xs| >= 2
    ensures Evens(xs) == [xs[0]] + Evens(xs[2..])
  {
    var a, b := Evens(xs), [xs[0]] + Evens(xs[2..]);
    assert |a| == |b|;
    forall i | 0 <= i < |a| ensures a[i] == b[i] {
      if i > 0 { assert b[i] == Evens(xs[2..])[i - 1] == xs[2..][2 * (i - 1)] == xs[2 * i]; }
    }
  }

  lemma OddsCons<T>(xs: seq<T>)
    requires |xs| >= 2
    ensures Odds(xs) == [xs[1]] + Odds(xs[2..])
  {
    var a, b := Odds(xs), [xs[1]] + Odds(xs[2..]);
    assert |a| == |b|;
    forall i | 0 <= i < |a| ensures a[i] == b[i] {
      if i > 0 { assert b[i] == Odds(xs[2..])[i - 1] == xs[2..][2 * (i - 1) + 1] == xs[2 * i + 1]; }
    }
  }

  /**
   * The rounds of `_resolve_step_dependencies`, as a reference definition:
   * each round appends the ready names in order; a round with no ready name
   * appends the names at even positions and keeps those at odd positions,
   * because `ready_steps` is then the very list being removed from.
   */
  function Resolve(remaining: seq<string>, deps: map<string, seq<string>>, resolved: seq<string>): (r: seq<string>)
    ensures |r| >= |resolved| && forall i :: 0 <= i < |resolved| ==> r[i] == resolved[i]
    decreases |remaining|
  {
    if remaining == [] then resolved
    else
      var ready := Ready(remaining, deps, resolved);
      if ready != [] then
        ReadyBlockedSplit(remaining, deps, resolved);
        Resolve(Blocked(remaining, deps, resolved), deps, resolved + ready)
      else
        Resolve(Odds(remaining), deps, resolved + Evens(remaining))
  }

  function ResolveOrder(steps: seq<StepConfig>): seq<string>
  {
    Resolve(UniqueNames(steps), DepsMap(steps), [])
  }

  /** `list.remove(x)`: drops the first occurrence. */
  function RemoveFirst(xs: seq<string>, x: string): (r: seq<string>)
    requires x in xs
    ensures |r| == |xs| - 1
  {
    if xs[0] == x then xs[1..]
    else [xs[0]] + RemoveFirst(xs[1..], x)
  }

  lemma {:induction false} RemoveFirstAt(xs: seq<string>, k: nat)
    requires k < |xs| && forall i :: 0 <= i < k ==> xs[i] != xs[k]
    ensures RemoveFirst(xs, xs[k]) == xs[..k] + xs[k + 1..]
  {
    if k == 0 {
      assert xs[..0] + xs[1..] == xs[1..];
    } else {
      var t := xs[1..];
      assert t[k - 1] == xs[k];
      assert xs[k] in t;
      assert RemoveFirst(xs, xs[k]) == [xs[0]] + RemoveFirst(t, xs[k]);
      RemoveFirstAt(t, k - 1);
      assert t[..k - 1] == xs[1..k];
      assert t[k..] == xs[k + 1..];
      assert xs[..k] == [xs[0]] + xs[1..k];
      ConsAssoc(xs[0], xs[1..k], xs[k + 1..]);
    }
  }

  lemma ConsAssoc<T>(x: T, ys: seq<T>, zs: seq<T>)
    ensures [x] + (ys + zs) == ([x] + ys) + zs
  {
  }

  /** Names of `xs` that are not in `ys`, in order. */
  function Without(xs: seq<string>, ys: seq<string>): (r: seq<string>)
    ensures forall n :: n in r <==> n in xs && n !in ys
  {
    if xs == [] then [] else (if xs[0] in ys then [] else [xs[0]]) + Without(xs[1..], ys)
  }

  lemma {:induction false} RemoveFirstWithout(xs: seq<string>, ys: seq<string>, x: string)
    requires Distinct(xs) && x in xs && x !in ys
    ensures x in Without(xs, ys)
    ensures RemoveFirst(Without(xs, ys), x) == Without(xs, ys + [x])
  {
    DistinctTail(xs);
    var t := xs[1..];
    assert Without(xs, ys) == (if xs[0] in ys then [] else [xs[0]]) + Without(t, ys);
    assert Without(xs, ys + [x]) == (if xs[0] in ys + [x] then [] else [xs[0]]) + Without(t, ys + [x]);
    if xs[0] == x {
      WithoutAbsent(t, ys, x);
    } else {
      assert x in t;
      RemoveFirstWithout(t, ys, x);
      var w := Without(t, ys);
      if xs[0] !in ys {
        assert Without(xs, ys) == [xs[0]] + w;
        assert RemoveFirst([xs[0]] + w, x) == [xs[0]] + RemoveFirst(w, x);
      } else {
        assert Without(xs, ys) == w;
        assert Without(xs, ys + [x]) == Without(t, ys + [x]);
      }
    }
  }

  lemma {:induction false} WithoutAbsent(xs: seq<string>, ys: seq<string>, x: string)
    requires x !in xs
    ensures Without(xs, ys + [x]) == Without(xs, ys)
  {
    if xs != [] {
      WithoutAbsent(xs[1..], ys, x);
    }
  }

  lemma {:induction false} WithoutReady(xs: seq<string>, deps: map<string, seq<string>>, resolved: seq<string>)
    requires Distinct(xs)
    ensures Without(xs, Ready(xs, deps, resolved)) == Blocked(xs, deps, resolved)
  {
    if xs != [] {
      DistinctTail(xs);
      var ready := Ready(xs, deps, resolved);
      ReadyMembers(xs, deps, resolved);
      ReadyMembers(xs[1..], deps, resolved);
      assert xs[0] in ready <==> IsReady(deps, resolved, xs[0]);
      WithoutSame(xs[1..], ready, Ready(xs[1..], deps, resolved));
      WithoutReady(xs[1..], deps, resolved);
    }
  }

  /** Removing the names of `ys` or of `zs` from `xs` is the same when they agree on the names of `xs`. */
  lemma {:induction false} WithoutSame(xs: seq<string>, ys: seq<string>, zs: seq<string>)
    requires forall n :: n in xs ==> (n in ys <==> n in zs)
    ensures Without(xs, ys) == Without(xs, zs)
  {
    if xs != [] {
      assert xs[0] in xs;
      assert forall n :: n in xs[1..] ==> n in xs;
      WithoutSame(xs[1..], ys, zs);
    }
  }

  lemma DistinctTail(xs: seq<string>)
    requires Distinct(xs) && xs != []
    ensures Distinct(xs[1..]) && xs[0] !in xs[1..]
  {
    forall i, j | 0 <= i < j < |xs| - 1 ensures xs[1..][i] != xs[1..][j] {
      assert xs[1..][i] == xs[i + 1] && xs[1..][j] == xs[j + 1];
    }
    forall i | 0 <= i < |xs| - 1 ensures xs[1..][i] != xs[0] {
      assert xs[1..][i] == xs[i + 1];
    }
  }

  lemma {:induction false} DistinctSub(xs: seq<string>, ys: seq<string>)
    requires Distinct(xs) && multiset(ys) <= multiset(xs)
    ensures Distinct(ys)
  {
    forall i, j | 0 <= i < j < |ys| ensures ys[i] != ys[j] {
      if ys[i] == ys[j] {
        TwoOccurrences(ys, i, j);
        CountInDistinct(xs, ys[i]);
      }
    }
  }

  lemma TwoOccurrences(ys: seq<string>, i: nat, j: nat)
    requires i < j < |ys| && ys[i] == ys[j]
    ensures multiset(ys)[ys[i]] >= 2
  {
    var front, back := ys[..j], ys[j..];
    assert ys == front + back;
    assert front[i] == ys[i] && back[0] == ys[j];
    assert multiset(ys) == multiset(front) + multiset(back);
  }

  lemma {:induction false} CountInDistinct(xs: seq<string>, x: string)
    requires Distinct(xs)
    ensures multiset(xs)[x] <= 1
  {
    if xs != [] {
      DistinctTail(xs);
      CountInDistinct(xs[1..], x);
      assert xs == [xs[0]] + xs[1..];
    }
  }

  /**
   * `_resolve_step_dependencies`: rounds until every name is resolved.
   */
  method ResolveStepDependencies(steps: seq<StepConfig>) returns (resolved: seq<string>)
    ensures resolved == ResolveOrder(steps)
  {
    var deps := DepsMap(steps);
    var remaining := UniqueNames(steps);
    resolved := [];
    while remaining != []
      invariant Distinct(remaining)
      invariant Resolve(remaining, deps, resolved) == ResolveOrder(steps)
      decreases |remaining|
    {
      ghost var before := Resolve(remaining, deps, resolved);
      var ready := ScanReady(remaining, deps, resolved);
      if ready == [] {
        assert before == Resolve(Odds(remaining), deps, resolved + Evens(remaining));
        remaining, resolved := TakeAliased(remaining, resolved);
      } else {
        assert before == Resolve(Blocked(remaining, deps, resolved), deps, resolved + ready);
        ReadyBlockedSplit(remaining, deps, resolved);
        remaining, resolved := TakeReady(remaining, deps, resolved, ready);
      }
    }
  }

  /** The scanning loop of one round: names whose dependencies are all in `resolved`. */
  method ScanReady(remaining: seq<string>, deps: map<string, seq<string>>, resolved: seq<string>) returns (ready: seq<string>)
    ensures ready == Ready(remaining, deps, resolved)
  {
    ready := [];
    var i := 0;
    while i < |remaining|
      invariant 0 <= i <= |remaining|
      invariant ready == Ready(remaining[..i], deps, resolved)
    {
      assert remaining[..i + 1] == remaining[..i] + [remaining[i]];
      ReadyAppend(remaining[..i], remaining[i], deps, resolved);
      if IsReady(deps, resolved, remaining[i]) {
        ready := ready + [remaining[i]];
      }
      i := i + 1;
    }
    assert remaining[..i] == remaining;
  }

  /**
   * A round with no ready name: `ready_steps = remaining`, so the removal
   * loop walks an index over the very list it shrinks and takes every other
   * name.
   */
  method TakeAliased(remaining: seq<string>, resolved: seq<string>) returns (remaining': seq<string>, resolved': seq<string>)
    requires Distinct(remaining) && remaining != []
    ensures remaining' == Odds(remaining) && resolved' == resolved + Evens(remaining)
    ensures Distinct(remaining')
  {
    remaining', resolved' := remaining, resolved;
    var k := 0;
    AliasedStart(remaining, resolved);
    while k < |remaining'|
      invariant AliasedState(remaining, resolved, k, remaining', resolved')
      decreases |remaining'| - k
    {
      AliasedRound(remaining, resolved, k, remaining', resolved');
      var name := remaining'[k];
      resolved' := resolved' + [name];
      remaining' := RemoveFirst(remaining', name);
      k := k + 1;
    }
    AliasedEnd(remaining, resolved, k, remaining', resolved');
  }

  /**
   * The removal loop's state after `k` passes: the first `2 * k` names of the
   * round's list have been split, the even ones taken and the odd ones kept,
   * and the rest is untouched.
   */
  predicate AliasedState(rem0: seq<string>, resolved: seq<string>, k: nat, rem: seq<string>, res: seq<string>)
  {
    2 * k <= |rem0| + 1 && |rem| == |rem0| - k
    && rem == Odds(rem0[..Min(2 * k, |rem0|)]) + rem0[Min(2 * k, |rem0|)..]
    && res == resolved + Evens(rem0[..Min(2 * k, |rem0|)])
  }

  /** One pass of the aliased removal loop keeps its invariant for the next index. */
  lemma AliasedRound(rem0: seq<string>, resolved: seq<string>, k: nat, rem: seq<string>, res: seq<string>)
    requires Distinct(rem0) && AliasedState(rem0, resolved, k, rem, res) && k < |rem|
    ensures AliasedState(rem0, resolved, k + 1, RemoveFirst(rem, rem[k]), res + [rem[k]])
  {
    AliasedStep(rem0, k, rem);
    EvensSnoc(rem0, k);
    AppendAssoc(resolved, Evens(rem0[..Min(2 * k, |rem0|)]), rem[k]);
    assert 2 * (k + 1) == 2 * k + 2;
  }

  lemma AppendAssoc<T>(xs: seq<T>, ys: seq<T>, x: T)
    ensures (xs + ys) + [x] == xs + (ys + [x])
  {
  }

  lemma AliasedStart(rem0: seq<string>, resolved: seq<string>)
    ensures AliasedState(rem0, resolved, 0, rem0, resolved)
  {
    assert rem0[..0] == [] && rem0[0..] == rem0;
  }

  /** Once the index has passed the shrinking list, the odd names remain and the even ones were taken. */
  lemma AliasedEnd(rem0: seq<string>, resolved: seq<string>, k: nat, rem: seq<string>, res: seq<string>)
    requires Distinct(rem0) && AliasedState(rem0, resolved, k, rem, res) && k >= |rem|
    ensures rem == Odds(rem0) && res == resolved + Evens(rem0)
    ensures Distinct(rem)
  {
    assert |rem0| <= 2 * k;
    assert rem0[..|rem0|] == rem0 && rem0[|rem0|..] == [];
    EvensOddsSplit(rem0);
    DistinctSub(rem0, Odds(rem0));
  }

  /** A round with ready names: each is appended to `resolved` and removed from `remaining`. */
  method TakeReady(remaining: seq<string>, deps: map<string, seq<string>>, resolved: seq<string>, ready: seq<string>)
    returns (remaining': seq<string>, resolved': seq<string>)
    requires Distinct(remaining) && ready == Ready(remaining, deps, resolved)
    ensures remaining' == Blocked(remaining, deps, resolved) && resolved' == resolved + ready
    ensures Distinct(remaining')
  {
    remaining', resolved' := remaining, resolved;
    WithoutNothing(remaining);
    assert ready[..0] == [];
    var j := 0;
    while j < |ready|
      invariant 0 <= j <= |ready|
      invariant resolved' == resolved + ready[..j]
      invariant remaining' == Without(remaining, ready[..j])
    {
      ReadyRound(remaining, deps, resolved, ready, j, remaining', resolved');
      resolved' := resolved' + [ready[j]];
      remaining' := RemoveFirst(remaining', ready[j]);
      j := j + 1;
    }
    assert ready[..j] == ready;
    BlockedRemain(remaining, deps, resolved);
  }

  /** One pass of the removal loop over the ready names keeps its invariant for the next index. */
  lemma ReadyRound(remaining: seq<string>, deps: map<string, seq<string>>, resolved: seq<string>, ready: seq<string>, j: nat,
                   rem: seq<string>, res: seq<string>)
    requires Distinct(remaining) && ready == Ready(remaining, deps, resolved) && j < |ready|
    requires rem == Without(remaining, ready[..j]) && res == resolved + ready[..j]
    ensures ready[j] in rem
    ensures RemoveFirst(rem, ready[j]) == Without(remaining, ready[..j + 1])
    ensures res + [ready[j]] == resolved + ready[..j + 1]
  {
    ReadyDistinctPrefix(remaining, deps, resolved, j);
    RemoveFirstWithout(remaining, ready[..j], ready[j]);
    PrefixSnoc(ready, j);
    AppendAssoc(resolved, ready[..j], ready[j]);
  }

  lemma PrefixSnoc<T>(xs: seq<T>, j: nat)
    requires j < |xs|
    ensures xs[..j + 1] == xs[..j] + [xs[j]]
  {
  }

  /** After a round with ready names, what remains are the blocked names, still distinct. */
  lemma BlockedRemain(remaining: seq<string>, deps: map<string, seq<string>>, resolved: seq<string>)
    requires Distinct(remaining)
    ensures Without(remaining, Ready(remaining, deps, resolved)) == Blocked(remaining, deps, resolved)
    ensures Distinct(Blocked(remaining, deps, resolved))
  {
    WithoutReady(remaining, deps, resolved);
    ReadyBlockedSplit(remaining, deps, resolved);
    DistinctSub(remaining, Blocked(remaining, deps, resolved));
  }

  lemma {:induction false} WithoutNothing(xs: seq<string>)
    ensures Without(xs, []) == xs
  {
    if xs != [] {
      WithoutNothing(xs[1..]);
    }
  }

  function Min(a: int, b: int): int { if a <= b then a else b }

  lemma {:induction false} ReadyAppend(xs: seq<string>, x: string, deps: map<string, seq<string>>, resolved: seq<string>)
    ensures Ready(xs + [x], deps, resolved)
      == Ready(xs, deps, resolved) + (if IsReady(deps, resolved, x) then [x] else [])
  {
    if xs != [] {
      assert (xs + [x])[1..] == xs[1..] + [x];
      ReadyAppend(xs[1..], x, deps, resolved);
    } else {
      assert [x][1..] == [];
    }
  }

  /** The ready names are distinct, and the next one has not been removed yet. */
  lemma ReadyDistinctPrefix(rem: seq<string>, deps: map<string, seq<string>>, resolved: seq<string>, j: nat)
    requires Distinct(rem) && j < |Ready(rem, deps, resolved)|
    ensures Ready(rem, deps, resolved)[j] in rem
    ensures Ready(rem, deps, resolved)[j] !in Ready(rem, deps, resolved)[..j]
  {
    var ready := Ready(rem, deps, resolved);
    ReadyMembers(rem, deps, resolved);
    assert ready[j] in ready;
    ReadyBlockedSplit(rem, deps, resolved);
    DistinctSub(rem, ready);
  }

  lemma AliasedStep(rem0: seq<string>, k: nat, remaining: seq<string>)
    requires Distinct(rem0) && 2 * k <= |rem0| + 1
    requires remaining == Odds(rem0[..Min(2 * k, |rem0|)]) + rem0[Min(2 * k, |rem0|)..]
    requires k < |remaining|
    ensures 2 * k < |rem0| && remaining[k] == rem0[2 * k]
    ensures RemoveFirst(remaining, remaining[k])
      == Odds(rem0[..Min(2 * k + 2, |rem0|)]) + rem0[Min(2 * k + 2, |rem0|)..]
  {
    AliasedShape(rem0, k, remaining);
    AliasedFirstOccurrence(rem0, k, remaining);
    RemoveFirstAt(remaining, k);
    OddsSnoc(rem0, k);
  }

  /** While the loop runs, the name at index `k` is the one at `2 * k` of the round's list. */
  lemma AliasedShape(rem0: seq<string>, k: nat, remaining: seq<string>)
    requires 2 * k <= |rem0| + 1
    requires remaining == Odds(rem0[..Min(2 * k, |rem0|)]) + rem0[Min(2 * k, |rem0|)..]
    requires k < |remaining|
    ensures 2 * k < |rem0| && remaining[k] == rem0[2 * k]
    ensures remaining[..k] == Odds(rem0[..2 * k]) && remaining[k + 1..] == rem0[2 * k + 1..]
  {
    var m := Min(2 * k, |rem0|);
    assert |remaining| == m / 2 + (|rem0| - m);
    var pre := rem0[..2 * k];
    assert |Odds(pre)| == k;
  }

  /** The names before index `k` sit at odd positions below `2 * k`, so none of them is the name at `2 * k`. */
  lemma AliasedFirstOccurrence(rem0: seq<string>, k: nat, remaining: seq<string>)
    requires Distinct(rem0) && 2 * k < |rem0| && k < |remaining|
    requires remaining[..k] == Odds(rem0[..2 * k]) && remaining[k] == rem0[2 * k]
    ensures forall i :: 0 <= i < k ==> remaining[i] != remaining[k]
  {
    var pre := rem0[..2 * k];
    forall i | 0 <= i < k ensures remaining[i] != remaining[k] {
      assert remaining[i] == remaining[..k][i] == Odds(pre)[i] == pre[2 * i + 1] == rem0[2 * i + 1];
    }
  }

  /** Taking the name at `2 * k` leaves the odd names below `2 * k + 2` and the untouched tail. */
  lemma OddsSnoc(rem0: seq<string>, k: nat)
    requires 2 * k < |rem0|
    ensures Odds(rem0[..2 * k]) + rem0[2 * k + 1..] == Odds(rem0[..Min(2 * k + 2, |rem0|)]) + rem0[Min(2 * k + 2, |rem0|)..]
  {
    var pre := rem0[..2 * k];
    if 2 * k + 2 <= |rem0| {
      assert Odds(rem0[..2 * k + 2]) == Odds(pre) + [rem0[2 * k + 1]];
      assert rem0[2 * k + 1..] == [rem0[2 * k + 1]] + rem0[2 * k + 2..];
    } else {
      assert Odds(rem0[..|rem0|]) == Odds(pre);
      assert rem0[2 * k + 1..] == [];
    }
  }

  lemma EvensSnoc(rem0: seq<string>, k: nat)
    requires 2 * k < |rem0|
    ensures Evens(rem0[..Min(2 * k + 2, |rem0|)]) == Evens(rem0[..2 * k]) + [rem0[2 * k]]
  {
  }

  // ---------------------------------------------------------------- properties of the resolver

  /** Every name is emitted exactly once: the result is a permutation of the step names. */
  lemma {:induction false} ResolvePermutes(remaining: seq<string>, deps: map<string, seq<string>>, resolved: seq<string>)
    ensures multiset(Resolve(remaining, deps, resolved)) == multiset(resolved) + multiset(remaining)
    ensures |Resolve(remaining, deps, resolved)| == |resolved| + |remaining|
    ensures Resolve(remaining, deps, resolved)[..|resolved|] == resolved
    decreases |remaining|
  {
    if remaining != [] {
      var ready := Ready(remaining, deps, resolved);
      var out := Resolve(remaining, deps, resolved);
      if ready != [] {
        var blocked := Blocked(remaining, deps, resolved);
        assert out == Resolve(blocked, deps, resolved + ready);
        ReadyBlockedSplit(remaining, deps, resolved);
        ResolvePermutes(blocked, deps, resolved + ready);
        PermutesRound(remaining, resolved, ready, blocked, out);
      } else {
        var evens, odds := Evens(remaining), Odds(remaining);
        assert out == Resolve(odds, deps, resolved + evens);
        EvensOddsSplit(remaining);
        ResolvePermutes(odds, deps, resolved + evens);
        PermutesRound(remaining, resolved, evens, odds, out);
      }
    }
  }

  /** A round that moves `taken` to the output and keeps `kept` keeps the permutation property. */
  lemma PermutesRound(remaining: seq<string>, resolved: seq<string>, taken: seq<string>, kept: seq<string>, out: seq<string>)
    requires multiset(taken) + multiset(kept) == multiset(remaining) && |taken| + |kept| == |remaining|
    requires multiset(out) == multiset(resolved + taken) + multiset(kept)
    requires |out| == |resolved + taken| + |kept| && out[..|resolved + taken|] == resolved + taken
    ensures multiset(out) == multiset(resolved) + multiset(remaining)
    ensures |out| == |resolved| + |remaining|
    ensures out[..|resolved|] == resolved
  {
    assert multiset(resolved + taken) == multiset(resolved) + multiset(taken);
    assert out[..|resolved|] == (out[..|resolved + taken|])[..|resolved|];
  }

  /** `_resolve_step_dependencies` returns each distinct step name exactly once. */
  lemma ResolveOrderIsPermutation(steps: seq<StepConfig>)
    ensures multiset(ResolveOrder(steps)) == multiset(UniqueNames(steps))
    ensures Distinct(ResolveOrder(steps))
    ensures forall n :: n in ResolveOrder(steps) <==> exists i :: 0 <= i < |steps| && steps[i].name == n
  {
    ResolvePermutes(UniqueNames(steps), DepsMap(steps), []);
    DistinctSub(UniqueNames(steps), ResolveOrder(steps));
    forall n ensures n in ResolveOrder(steps) <==> n in UniqueNames(steps) {
      assert n in ResolveOrder(steps) <==> n in multiset(ResolveOrder(steps));
    }
  }

  /** Every name of `out` is preceded by all of its dependencies. */
  predicate RespectsDeps(out: seq<string>, deps: map<string, seq<string>>)
  {
    forall i :: 0 <= i < |out| ==> AllIn(DepsOf(deps, out[i]), out[..i])
  }

  /** Dependencies stay inside the step set, and a ranking strictly increases along every dependency: the graph is acyclic. */
  predicate Acyclic(names: seq<string>, deps: map<string, seq<string>>, rank: map<string, nat>)
  {
    (forall n :: n in names ==> n in rank)
    && forall n :: n in names ==> forall j :: 0 <= j < |DepsOf(deps, n)| ==>
         DepsOf(deps, n)[j] in names && rank[DepsOf(deps, n)[j]] < rank[n]
  }

  /** In an acyclic, closed graph some remaining name is always ready: one of least rank. */
  lemma SomeReady(all: seq<string>, remaining: seq<string>, deps: map<string, seq<string>>, resolved: seq<string>, rank: map<string, nat>)
    requires Acyclic(all, deps, rank)
    requires remaining != [] && forall n :: n in remaining ==> n in all
    requires forall n :: n in all ==> n in remaining || n in resolved
    ensures Ready(remaining, deps, resolved) != []
  {
    var m := MinRank(remaining, rank);
    forall j | 0 <= j < |DepsOf(deps, m)| ensures DepsOf(deps, m)[j] in resolved {
      var d := DepsOf(deps, m)[j];
      assert rank[d] < rank[m];
    }
    ReadyMembers(remaining, deps, resolved);
    assert m in Ready(remaining, deps, resolved);
  }

  function MinRank(xs: seq<string>, rank: map<string, nat>): (m: string)
    requires xs != [] && forall n :: n in xs ==> n in rank
    ensures m in xs && forall n :: n in xs ==> rank[m] <= rank[n]
  {
    if |xs| == 1 then xs[0]
    else
      var m := MinRank(xs[1..], rank);
      assert forall n :: n in xs ==> n == xs[0] || n in xs[1..];
      if rank[xs[0]] <= rank[m] then xs[0] else m
  }

  lemma {:induction false} ResolveRespects(all: seq<string>, remaining: seq<string>, deps: map<string, seq<string>>, resolved: seq<string>, rank: map<string, nat>)
    requires Acyclic(all, deps, rank)
    requires forall n :: n in remaining ==> n in all
    requires forall n :: n in all ==> n in remaining || n in resolved
    requires RespectsDeps(resolved, deps)
    ensures RespectsDeps(Resolve(remaining, deps, resolved), deps)
    decreases |remaining|
  {
    if remaining != [] {
      SomeReady(all, remaining, deps, resolved, rank);
      var ready := Ready(remaining, deps, resolved);
      ReadyMembers(remaining, deps, resolved);
      var next := resolved + ready;
      forall i | 0 <= i < |next| ensures AllIn(DepsOf(deps, next[i]), next[..i]) {
        if i < |resolved| {
          assert next[..i] == resolved[..i];
        } else {
          assert ready[i - |resolved|] in ready;
          assert resolved <= next[..i];
        }
      }
      ReadyBlockedSplit(remaining, deps, resolved);
      ResolveRespects(all, Blocked(remaining, deps, resolved), deps, next, rank);
    }
  }

  /**
   * With dependencies that name only steps of the run and contain no cycle,
   * every step comes after all of its dependencies.
   */
  lemma ResolveOrderRespectsDependencies(steps: seq<StepConfig>, rank: map<string, nat>)
    requires Acyclic(UniqueNames(steps), DepsMap(steps), rank)
    ensures RespectsDeps(ResolveOrder(steps), DepsMap(steps))
  {
    ResolveRespects(UniqueNames(steps), UniqueNames(steps), DepsMap(steps), [], rank);
  }

  /** Blocked `[a, b, c]`: the first round emits `a` and `c`, and `b` only comes in the next round. */
  const BlockedSteps := [StepConfig("a", true, ["z"]), StepConfig("b", true, ["z"]), StepConfig("c", true, ["z"])]
  const BlockedDeps := map["a" := ["z"], "b" := ["z"], "c" := ["z"]]

  lemma BlockedMaps()
    ensures UniqueNames(BlockedSteps) == ["a", "b", "c"]
    ensures DepsMap(BlockedSteps) == BlockedDeps
  {
    var steps := BlockedSteps;
    var a, b := steps[0], steps[1];
    assert steps[..2] == [a, b] && steps[..2][..1] == [a] && [a][..0] == [];
    assert DepsMap([a]) == map["a" := ["z"]];
    assert DepsMap([a, b]) == map["a" := ["z"], "b" := ["z"]];
    assert UniqueNames([a]) == ["a"];
    assert UniqueNames([a, b]) == ["a", "b"];
  }

  lemma BlockedRound1()
    ensures Ready(["a", "b", "c"], BlockedDeps, []) == []
    ensures Evens(["a", "b", "c"]) == ["a", "c"] && Odds(["a", "b", "c"]) == ["b"]
  {
    var names, deps := ["a", "b", "c"], BlockedDeps;
    NotReadyBecause(deps, [], "a", 0);
    NotReadyBecause(deps, [], "b", 0);
    NotReadyBecause(deps, [], "c", 0);
    assert names[1..] == ["b", "c"] && names[1..][1..] == ["c"] && ["c"][1..] == [];
    assert Ready(["c"], deps, []) == [];
    assert Ready(["b", "c"], deps, []) == [];
  }

  lemma BlockedRound2()
    ensures Ready(["b"], BlockedDeps, ["a", "c"]) == []
    ensures Evens(["b"]) == ["b"] && Odds(["b"]) == []
  {
    NotReadyBecause(BlockedDeps, ["a", "c"], "b", 0);
    assert ["b"][1..] == [];
  }

  lemma ResolveBlockedRound(remaining: seq<string>, deps: map<string, seq<string>>, resolved: seq<string>)
    requires remaining != [] && Ready(remaining, deps, resolved) == []
    ensures Resolve(remaining, deps, resolved)
      == Resolve(Odds(remaining), deps, resolved + Evens(remaining))
  {
  }

  /**
   * Three names blocked on a missing dependency: the first round emits `a`
   * and `c` (every other name), and `b` only comes in the next round.
   */
  lemma AliasedFallbackSkipsEveryOther()
    ensures ResolveOrder(BlockedSteps) == ["a", "c", "b"]
  {
    BlockedMaps();
    BlockedFirstRound();
    BlockedSecondRound();
  }

  lemma BlockedFirstRound()
    ensures Resolve(["a", "b", "c"], BlockedDeps, []) == Resolve(["b"], BlockedDeps, ["a", "c"])
  {
    BlockedRound1();
    ResolveBlockedRound(["a", "b", "c"], BlockedDeps, []);
    assert [] + ["a", "c"] == ["a", "c"];
  }

  lemma BlockedSecondRound()
    ensures Resolve(["b"], BlockedDeps, ["a", "c"]) == ["a", "c", "b"]
  {
    BlockedRound2();
    ResolveBlockedRound(["b"], BlockedDeps, ["a", "c"]);
    assert ["a", "c"] + ["b"] == ["a", "c", "b"];
  }

  const CompleteNames := ["planning", "content_generation", "visual_aids", "assessment_creation"]
  const CompleteDeps := map["planning" := [], "content_generation" := ["planning"],
    "visual_aids" := ["planning", "content_generation"],
    "assessment_creation" := ["planning", "content_generation"]]

  lemma CompleteTableMaps()
    ensures UniqueNames(PipelineSteps("complete")) == CompleteNames
    ensures DepsMap(PipelineSteps("complete")) == CompleteDeps
  {
    CompleteTablePrefixes();
    CompleteTableNames();
    CompleteTableDeps();
  }

  lemma CompleteTablePrefixes()
    ensures PipelineSteps("complete")[..3] == [Planning, ContentGeneration, VisualAids]
    ensures [Planning, ContentGeneration, VisualAids][..2] == [Planning, ContentGeneration]
    ensures [Planning, ContentGeneration][..1] == [Planning] && [Planning][..0] == []
  {
  }

  lemma CompleteTableNames()
    requires PipelineSteps("complete")[..3] == [Planning, ContentGeneration, VisualAids]
    requires [Planning, ContentGeneration, VisualAids][..2] == [Planning, ContentGeneration]
    requires [Planning, ContentGeneration][..1] == [Planning] && [Planning][..0] == []
    ensures UniqueNames(PipelineSteps("complete")) == CompleteNames
  {
    assert UniqueNames([Planning]) == ["planning"];
    assert UniqueNames([Planning, ContentGeneration]) == CompleteNames[..2];
    assert UniqueNames([Planning, ContentGeneration, VisualAids]) == CompleteNames[..3];
  }

  lemma CompleteTableDeps()
    requires PipelineSteps("complete")[..3] == [Planning, ContentGeneration, VisualAids]
    requires [Planning, ContentGeneration, VisualAids][..2] == [Planning, ContentGeneration]
    requires [Planning, ContentGeneration][..1] == [Planning] && [Planning][..0] == []
    ensures DepsMap(PipelineSteps("complete")) == CompleteDeps
  {
    assert DepsMap([Planning]) == map["planning" := []];
    assert DepsMap([Planning, ContentGeneration]) == map["planning" := [], "content_generation" := ["planning"]];
  }

  lemma CompleteRound1()
    ensures Ready(CompleteNames, CompleteDeps, []) == ["planning"]
    ensures Blocked(CompleteNames, CompleteDeps, []) == CompleteNames[1..]
  {
    var names, deps := CompleteNames, CompleteDeps;
    assert names[1..][1..] == names[2..] && names[2..][1..] == names[3..] && names[3..][1..] == [];
    assert IsReady(deps, [], "planning");
    NotReadyBecause(deps, [], "content_generation", 0);
    NotReadyBecause(deps, [], "visual_aids", 0);
    NotReadyBecause(deps, [], "assessment_creation", 0);
    assert Ready(names[3..], deps, []) == [];
    assert Ready(names[2..], deps, []) == [];
    assert Ready(names[1..], deps, []) == [];
    assert Blocked(names[3..], deps, []) == names[3..];
    assert Blocked(names[2..], deps, []) == names[2..];
    assert Blocked(names[1..], deps, []) == names[1..];
  }

  lemma CompleteRound2()
    ensures Ready(CompleteNames[1..], CompleteDeps, ["planning"]) == ["content_generation"]
    ensures Blocked(CompleteNames[1..], CompleteDeps, ["planning"]) == CompleteNames[2..]
  {
    var names, deps, r1 := CompleteNames, CompleteDeps, ["planning"];
    assert names[1..][1..] == names[2..] && names[2..][1..] == names[3..] && names[3..][1..] == [];
    assert DepsOf(deps, "visual_aids") == ["planning", "content_generation"];
    assert DepsOf(deps, "assessment_creation") == ["planning", "content_generation"];
    assert IsReady(deps, r1, "content_generation");
    NotReadyBecause(deps, r1, "visual_aids", 1);
    NotReadyBecause(deps, r1, "assessment_creation", 1);
    assert Ready(names[3..], deps, r1) == [] && Blocked(names[3..], deps, r1) == names[3..];
    assert Ready(names[2..], deps, r1) == [] && Blocked(names[2..], deps, r1) == names[2..];
  }

  lemma CompleteRound3()
    ensures Ready(CompleteNames[2..], CompleteDeps, ["planning", "content_generation"]) == CompleteNames[2..]
    ensures Blocked(CompleteNames[2..], CompleteDeps, ["planning", "content_generation"]) == []
  {
    var names, deps, r2 := CompleteNames, CompleteDeps, ["planning", "content_generation"];
    assert names[2..][1..] == names[3..] && names[3..][1..] == [];
    assert IsReady(deps, r2, "visual_aids") && IsReady(deps, r2, "assessment_creation");
    assert Ready(names[3..], deps, r2) == names[3..] && Blocked(names[3..], deps, r2) == [];
  }

  lemma CompleteRounds()
    ensures Resolve(CompleteNames, CompleteDeps, []) == CompleteNames
  {
    CompleteFirstRound();
    CompleteSecondRound();
    CompleteThirdRound();
  }

  lemma CompleteFirstRound()
    ensures Resolve(CompleteNames, CompleteDeps, []) == Resolve(CompleteNames[1..], CompleteDeps, ["planning"])
  {
    CompleteRound1();
    ResolveReadyRound(CompleteNames, CompleteDeps, []);
    assert [] + ["planning"] == ["planning"];
  }

  lemma CompleteSecondRound()
    ensures Resolve(CompleteNames[1..], CompleteDeps, ["planning"])
         == Resolve(CompleteNames[2..], CompleteDeps, ["planning", "content_generation"])
  {
    CompleteRound2();
    ResolveReadyRound(CompleteNames[1..], CompleteDeps, ["planning"]);
    assert ["planning"] + ["content_generation"] == ["planning", "content_generation"];
  }

  lemma CompleteThirdRound()
    ensures Resolve(CompleteNames[2..], CompleteDeps, ["planning", "content_generation"]) == CompleteNames
  {
    CompleteRound3();
    ResolveReadyRound(CompleteNames[2..], CompleteDeps, ["planning", "content_generation"]);
    assert ["planning", "content_generation"] + CompleteNames[2..] == CompleteNames;
  }

  /** The full table: planning, then content, then both optional stages in table order. */
  lemma CompleteTableOrder()
    ensures ResolveOrder(PipelineSteps("complete")) == CompleteNames
  {
    CompleteTableMaps();
    CompleteRounds();
  }

  lemma NotReadyBecause(deps: map<string, seq<string>>, resolved: seq<string>, n: string, j: nat)
    requires j < |DepsOf(deps, n)| && DepsOf(deps, n)[j] !in resolved
    ensures !IsReady(deps, resolved, n)
  {
  }

  lemma ResolveReadyRound(remaining: seq<string>, deps: map<string, seq<string>>, resolved: seq<string>)
    requires Ready(remaining, deps, resolved) != []
    ensures Resolve(remaining, deps, resolved)
      == Resolve(Blocked(remaining, deps, resolved), deps, resolved + Ready(remaining, deps, resolved))
  {
  }

  // ================================================================ the request and its context

  datatype PipelineRequest = PipelineRequest(
    teacherId: string, classId: string, topic: string, gradeLevel: string, duration: int,
    lessonType: string, curriculumStandards: Value, learningObjectives: Value, studentData: Value,
    includeVisualAids: bool, assessmentRequired: bool, preferences: Value)

  /** `_prepare_pipeline_context`; `pipelineId` stands for the clock-derived id. */
  function PreparePipelineContext(req: PipelineRequest, pipelineId: string): (ctx: Record)
    ensures "topic" in ctx && ctx["topic"] == Str(req.topic)
    ensures "pipeline_config" in ctx && ctx["pipeline_config"].Obj? && "lesson_type" in ctx["pipeline_config"].fields
    ensures ctx["pipeline_config"].fields["lesson_type"] == Str(req.lessonType)
    ensures ctx["pipeline_config"].fields.Keys == {"include_visual_aids", "assessment_required", "lesson_type"}
    ensures ctx["pipeline_config"].fields["include_visual_aids"] == Bool(req.includeVisualAids)
    ensures ctx["pipeline_config"].fields["assessment_required"] == Bool(req.assessmentRequired)
    ensures ctx.Keys == {"pipeline_id", "teacher_id", "class_id", "topic", "grade_level", "duration",
                         "curriculum_standards", "learning_objectives", "student_data", "preferences", "pipeline_config"}
    ensures ctx["pipeline_id"] == Str(pipelineId)
    ensures ctx["teacher_id"] == Str(req.teacherId) && ctx["class_id"] == Str(req.classId)
    ensures ctx["grade_level"] == Str(req.gradeLevel) && ctx["duration"] == Int(req.duration)
    ensures ctx["curriculum_standards"] == req.curriculumStandards
    ensures ctx["learning_objectives"] == req.learningObjectives
    ensures ctx["student_data"] == req.studentData && ctx["preferences"] == req.preferences
  {
    map["pipeline_id" := Str(pipelineId), "teacher_id" := Str(req.teacherId), "class_id" := Str(req.classId),
        "topic" := Str(req.topic), "grade_level" := Str(req.gradeLevel), "duration" := Int(req.duration),
        "curriculum_standards" := req.curriculumStandards, "learning_objectives" := req.learningObjectives,
        "student_data" := req.studentData, "preferences" := req.preferences,
        "pipeline_config" := Obj(map["include_visual_aids" := Bool(req.includeVisualAids),
                                     "assessment_required" := Bool(req.assessmentRequired),
                                     "lesson_type" := Str(req.lessonType)])]
  }

  /** Step results in insertion order: a Python dict from step name to the step's dict. */
  type StepResults = seq<(string, Record)>

  function Keys(results: StepResults): (ks: seq<string>)
    ensures |ks| == |results|
    ensures forall i :: 0 <= i < |results| ==> ks[i] == results[i].0
  {
    if results == [] then [] else [results[0].0] + Keys(results[1..])
  }

  function Lookup(results: StepResults, name: string): (r: Option<Record>)
    ensures r.Some? <==> name in Keys(results)
  {
    if results == [] then None
    else if results[0].0 == name then Some(results[0].1)
    else Lookup(results[1..], name)
  }

  /** `results[name] = value`: replaces the entry in place, or appends a new one. */
  function Assign(results: StepResults, name: string, value: Record): (r: StepResults)
    ensures name !in Keys(results) ==> r == results + [(name, value)]
    ensures name in Keys(results) ==> Keys(r) == Keys(results)
    ensures Lookup(r, name) == Some(value)
  {
    if results == [] then [(name, value)]
    else if results[0].0 == name then [(name, value)] + results[1..]
    else [results[0]] + Assign(results[1..], name, value)
  }

  // ================================================================ step context

  function ResultKey(dep: string): string { dep + "_result" }

  predicate IsResultKey(k: string) { EndsWith(k, "_result") }

  lemma ResultKeyInjective(a: string, b: string)
    ensures IsResultKey(ResultKey(a))
    ensures ResultKey(a) == ResultKey(b) ==> a == b
  {
    if ResultKey(a) == ResultKey(b) {
      assert a == ResultKey(a)[..|a|] && b == ResultKey(b)[..|b|];
    }
  }

  /** The entries the loop over `depends_on` adds: `<dep>_result` for each dependency that has a result. */
  function DependencyResults(deps: seq<string>, previous: StepResults): (m: map<string, Value>)
    ensures forall k :: k in m ==> IsResultKey(k)
  {
    if deps == [] then map[]
    else
      var d := deps[|deps| - 1];
      var m := DependencyResults(deps[..|deps| - 1], previous);
      ResultKeyInjective(d, d);
      match Lookup(previous, d)
      case Some(res) => m[ResultKey(d) := Obj(res)]
      case None => m
  }

  /** Every dependency that has a result appears under its `<dep>_result` key with that result. */
  lemma {:induction false} DependencyResultsHas(deps: seq<string>, previous: StepResults)
    ensures forall j :: 0 <= j < |deps| && deps[j] in Keys(previous) ==>
      ResultKey(deps[j]) in DependencyResults(deps, previous)
      && DependencyResults(deps, previous)[ResultKey(deps[j])] == Obj(Lookup(previous, deps[j]).value)
    decreases |deps|
  {
    if deps != [] {
      var front := deps[..|deps| - 1];
      var d := deps[|deps| - 1];
      DependencyResultsHas(front, previous);
      assert forall j :: 0 <= j < |front| ==> front[j] == deps[j];
      forall d' ensures ResultKey(d') == ResultKey(d) ==> d' == d { ResultKeyInjective(d', d); }
    }
  }

  /** Every entry is the `<dep>_result` key of a dependency that has a result. */
  lemma {:induction false} DependencyResultsOnly(deps: seq<string>, previous: StepResults)
    ensures forall k :: k in DependencyResults(deps, previous) ==>
      exists j :: 0 <= j < |deps| && k == ResultKey(deps[j]) && deps[j] in Keys(previous)
    decreases |deps|
  {
    if deps != [] {
      var front := deps[..|deps| - 1];
      var d := deps[|deps| - 1];
      DependencyResultsOnly(front, previous);
      var m := DependencyResults(deps, previous);
      var fm := DependencyResults(front, previous);
      forall k | k in m ensures exists j :: 0 <= j < |deps| && k == ResultKey(deps[j]) && deps[j] in Keys(previous) {
        if k in fm {
          var j :| 0 <= j < |front| && k == ResultKey(front[j]) && front[j] in Keys(previous);
          assert front[j] == deps[j];
        } else {
          assert Lookup(previous, d).Some? && k == ResultKey(d);
          assert deps[|deps| - 1] == d;
        }
      }
    }
  }

  /** The keys a stage's own block sets (after the dependency results). */
  function StepKeys(name: string, hasPlanning: bool): set<string>
  {
    if name == "content_generation" then (if hasPlanning then {"lesson_plan", "content_type", "topic"} else {})
    else if name == "visual_aids" then {"visual_type", "purpose", "topic"}
    else if name == "assessment_creation" then {"assessment_type", "topic", "question_count"}
    else {}
  }

  lemma StepKeysAreNotResultKeys(name: string, hasPlanning: bool)
    ensures forall k :: k in StepKeys(name, hasPlanning) ==> !IsResultKey(k)
  {
    assert "lesson_plan"[4] == 'o' && "content_type"[5] == 'n' && "visual_type"[4] == 'a';
    assert "purpose"[0] == 'p' && "assessment_type"[8] == 'n' && "question_count"[7] == 'n';
  }

  /**
   * `_prepare_step_context`: a copy of the base context, plus one
   * `<dep>_result` entry per dependency that already has a result, plus the
   * stage's own entries. `topic` is rewritten with its own value.
   */
  function PrepareStepContext(step: StepConfig, base: Record, previous: StepResults): (ctx: Record)
    requires "topic" in base
    ensures base.Keys <= ctx.Keys
  {
    var withDeps := base + DependencyResults(step.dependsOn, previous);
    withDeps + StageEntries(step.name, Lookup(previous, "planning"), withDeps["topic"])
  }

  /**
   * What a stage's context holds: every base entry, unchanged unless the
   * stage or a dependency result overwrites it (`topic` keeps its value);
   * new entries are the stage's own or `<dep>_result` entries for
   * dependencies that already ran; and the fixed values each stage sets.
   */
  lemma StepContextEntries(step: StepConfig, base: Record, previous: StepResults)
    requires "topic" in base
    ensures var ctx := PrepareStepContext(step, base, previous);
      (forall k :: k in base && !IsResultKey(k) && k !in StepKeys(step.name, "planning" in Keys(previous)) ==> ctx[k] == base[k])
      && "topic" in ctx && ctx["topic"] == base["topic"]
      && (forall k :: k in ctx && k !in base ==>
            k in StepKeys(step.name, "planning" in Keys(previous))
            || exists j :: 0 <= j < |step.dependsOn| && k == ResultKey(step.dependsOn[j]) && step.dependsOn[j] in Keys(previous))
    ensures var ctx := PrepareStepContext(step, base, previous);
      (step.name == "content_generation" && "planning" in Keys(previous) ==>
        "content_type" in ctx && ctx["content_type"] == Str("lesson") && "lesson_plan" in ctx
        && ctx["lesson_plan"] == Get(Lookup(previous, "planning").value, "lesson_plan", Obj(map[])))
      && (step.name == "visual_aids" ==>
        "visual_type" in ctx && ctx["visual_type"] == Str("infographic") && "purpose" in ctx && ctx["purpose"] == Str("explanation"))
      && (step.name == "assessment_creation" ==>
        "assessment_type" in ctx && ctx["assessment_type"] == Str("quiz") && "question_count" in ctx && ctx["question_count"] == Int(10))
  {
    StepKeysAreNotResultKeys(step.name, "planning" in Keys(previous));
    DependencyResultsOnly(step.dependsOn, previous);
    assert !IsResultKey("topic");
  }

  /** Each dependency that already has a result is passed on under `<dep>_result`. */
  lemma DependencyResultsPassedOn(step: StepConfig, base: Record, previous: StepResults, j: nat)
    requires "topic" in base
    requires j < |step.dependsOn| && step.dependsOn[j] in Keys(previous)
    ensures ResultKey(step.dependsOn[j]) in PrepareStepContext(step, base, previous)
    ensures PrepareStepContext(step, base, previous)[ResultKey(step.dependsOn[j])]
      == Obj(Lookup(previous, step.dependsOn[j]).value)
  {
    var dep := step.dependsOn[j];
    ResultKeyInjective(dep, dep);
    DependencyResultsHas(step.dependsOn, previous);
    StepKeysAreNotResultKeys(step.name, "planning" in Keys(previous));
    var withDeps := base + DependencyResults(step.dependsOn, previous);
    var stage := StageEntries(step.name, Lookup(previous, "planning"), withDeps["topic"]);
    assert ResultKey(dep) !in stage;
  }

  /** The `step_context.update(...)` of each stage; `topic` is the context's own topic. */
  function StageEntries(name: string, planning: Option<Record>, topic: Value): (m: map<string, Value>)
    ensures m.Keys == StepKeys(name, planning.Some?)
    ensures "topic" in m ==> m["topic"] == topic
    ensures name == "content_generation" && planning.Some? ==>
      m["content_type"] == Str("lesson") && m["lesson_plan"] == Get(planning.value, "lesson_plan", Obj(map[]))
    ensures name == "visual_aids" ==> m["visual_type"] == Str("infographic") && m["purpose"] == Str("explanation")
    ensures name == "assessment_creation" ==> m["assessment_type"] == Str("quiz") && m["question_count"] == Int(10)
  {
    if name == "content_generation" then
      match planning
      case Some(p) => map["lesson_plan" := Get(p, "lesson_plan", Obj(map[])), "content_type" := Str("lesson"), "topic" := topic]
      case None => map[]
    else if name == "visual_aids" then
      map["visual_type" := Str("infographic"), "purpose" := Str("explanation"), "topic" := topic]
    else if name == "assessment_creation" then
      map["assessment_type" := Str("quiz"), "topic" := topic, "question_count" := Int(10)]
    else map[]
  }

  // ================================================================ the stage loop

  /** What `_execute_step` does for one stage: the handler's dict, or the message of what it raised. */
  type StepRunner = (string, Record) -> Result<Record, string>

  function FailedRecord(error: string): Record
  {
    map["error" := Str(error), "status" := Str("failed")]
  }

  /** What the loop stores for a stage's outcome (an optional stage's failure becomes a failure record). */
  function Recorded(outcome: Result<Record, string>): Record
  {
    match outcome
    case Ok(r) => r
    case Err(e) => FailedRecord(e)
  }

  /** `next(s for s in active_steps if s["name"] == name)`: the first stage of that name. */
  function ConfigOf(active: seq<StepConfig>, name: string): (c: StepConfig)
    requires name in Names(active)
    ensures c in active && c.name == name
  {
    if active[0].name == name then active[0]
    else
      assert Names(active) == [active[0].name] + Names(active[1..]);
      ConfigOf(active[1..], name)
  }

  predicate NamesKnown(active: seq<StepConfig>, order: seq<string>)
  {
    forall i :: 0 <= i < |order| ==> order[i] in Names(active)
  }

  /**
   * The loop of `_execute_workflow` over the execution order, from the
   * results gathered so far: a stage that raises aborts everything if it is
   * required and is recorded as failed otherwise.
   */
  function RunSteps(active: seq<StepConfig>, order: seq<string>, base: Record, run: StepRunner, results: StepResults)
    : (r: Result<StepResults, string>)
    requires "topic" in base && NamesKnown(active, order)
    ensures r.Err? ==> exists i :: 0 <= i < |order| && ConfigOf(active, order[i]).required
    ensures r.Ok? ==> |r.value| >= |results|
    decreases |order|
  {
    if order == [] then Ok(results)
    else
      var step := ConfigOf(active, order[0]);
      var outcome := run(order[0], PrepareStepContext(step, base, results));
      if outcome.Err? && step.required then Err(outcome.error)
      else RunSteps(active, order[1..], base, run, Assign(results, order[0], Recorded(outcome)))
  }

  /** Entry `offset + i` of `res` is stage `order[i]` with what it returned from the context built on the entries before it. */
  predicate EntryFor(active: seq<StepConfig>, order: seq<string>, base: Record, run: StepRunner, res: StepResults, offset: nat, i: nat)
    requires "topic" in base && NamesKnown(active, order) && i < |order| && offset + i <= |res|
  {
    var step := ConfigOf(active, order[i]);
    var outcome := run(order[i], PrepareStepContext(step, base, res[..offset + i]));
    offset + i < |res| && res[offset + i] == (order[i], Recorded(outcome)) && (outcome.Err? ==> !step.required)
  }

  /**
   * When the workflow completes, every stage of the order has exactly one
   * entry, in order; each entry is what its stage returned from a context
   * built on the entries before it, or a failure record for an optional
   * stage that raised.
   */
  lemma {:induction false} RunStepsCompleted(active: seq<StepConfig>, order: seq<string>, base: Record, run: StepRunner, results: StepResults)
    requires "topic" in base && NamesKnown(active, order)
    requires Distinct(order) && forall i :: 0 <= i < |order| ==> order[i] !in Keys(results)
    requires RunSteps(active, order, base, run, results).Ok?
    ensures var res := RunSteps(active, order, base, run, results).value;
      |res| == |results| + |order| && res[..|results|] == results
      && forall i :: 0 <= i < |order| ==> EntryFor(active, order, base, run, res, |results|, i)
    decreases |order|
  {
    if order != [] {
      var rest := order[1..];
      TailStillUnrecorded(active, order, results, rest);
      var next := FirstStepRecorded(active, order, base, run, results);
      RunStepsCompleted(active, rest, base, run, next);
      var res := RunSteps(active, order, base, run, results).value;
      FirstEntry(active, order, base, run, results, next, res);
      EntriesFromTail(active, order, base, run, res, |results|, rest, |next|);
    }
  }

  /** The first stage of a completing run is appended to the results, and the run goes on from there. */
  lemma FirstStepRecorded(active: seq<StepConfig>, order: seq<string>, base: Record, run: StepRunner, results: StepResults)
    returns (next: StepResults)
    requires "topic" in base && NamesKnown(active, order) && order != [] && order[0] !in Keys(results)
    requires NamesKnown(active, order[1..])
    requires RunSteps(active, order, base, run, results).Ok?
    ensures var outcome := run(order[0], PrepareStepContext(ConfigOf(active, order[0]), base, results));
      !(outcome.Err? && ConfigOf(active, order[0]).required) && next == results + [(order[0], Recorded(outcome))]
    ensures Keys(next) == Keys(results) + [order[0]]
    ensures RunSteps(active, order[1..], base, run, next) == RunSteps(active, order, base, run, results)
  {
    var outcome := run(order[0], PrepareStepContext(ConfigOf(active, order[0]), base, results));
    RunStepsFirst(active, order, base, run, results);
    next := Assign(results, order[0], Recorded(outcome));
    KeysSnoc(results, order[0], Recorded(outcome));
  }

  lemma KeysSnoc(results: StepResults, name: string, value: Record)
    ensures Keys(results + [(name, value)]) == Keys(results) + [name]
  {
    var r := results + [(name, value)];
    assert forall i :: 0 <= i < |results| ==> r[i] == results[i];
  }

  /** The entry for the first stage sits right after the results the run started from. */
  lemma FirstEntry(active: seq<StepConfig>, order: seq<string>, base: Record, run: StepRunner,
                   results: StepResults, next: StepResults, res: StepResults)
    requires "topic" in base && NamesKnown(active, order) && order != []
    requires var outcome := run(order[0], PrepareStepContext(ConfigOf(active, order[0]), base, results));
      !(outcome.Err? && ConfigOf(active, order[0]).required) && next == results + [(order[0], Recorded(outcome))]
    requires |next| <= |res| && res[..|next|] == next
    ensures res[..|results|] == results
    ensures EntryFor(active, order, base, run, res, |results|, 0)
  {
    assert res[..|results|] == next[..|results|];
    assert res[|results|] == next[|results|];
  }

  /** After the first stage is recorded, the rest of the order is still distinct, known and unrecorded. */
  lemma TailStillUnrecorded(active: seq<StepConfig>, order: seq<string>, results: StepResults, rest: seq<string>)
    requires NamesKnown(active, order) && order != [] && rest == order[1..]
    requires Distinct(order) && forall i :: 0 <= i < |order| ==> order[i] !in Keys(results)
    ensures Distinct(rest) && NamesKnown(active, rest)
    ensures forall i :: 0 <= i < |rest| ==> rest[i] !in Keys(results) + [order[0]]
  {
    forall i | 0 <= i < |rest| ensures rest[i] == order[i + 1] { }
    forall i | 0 <= i < |rest| ensures rest[i] !in Keys(results) + [order[0]] {
      assert rest[i] == order[i + 1] != order[0];
    }
  }

  lemma EntriesFromTail(active: seq<StepConfig>, order: seq<string>, base: Record, run: StepRunner, res: StepResults, offset: nat,
                        tail: seq<string>, tailOffset: nat)
    requires "topic" in base && NamesKnown(active, order) && order != [] && offset + |order| <= |res|
    requires tail == order[1..] && tailOffset == offset + 1 && NamesKnown(active, tail)
    requires EntryFor(active, order, base, run, res, offset, 0)
    requires forall i :: 0 <= i < |tail| ==> EntryFor(active, tail, base, run, res, tailOffset, i)
    ensures forall i :: 0 <= i < |order| ==> EntryFor(active, order, base, run, res, offset, i)
  {
    forall i | 0 < i < |order| ensures EntryFor(active, order, base, run, res, offset, i) {
      EntryShift(active, order, base, run, res, offset, i);
    }
  }

  lemma EntryShift(active: seq<StepConfig>, order: seq<string>, base: Record, run: StepRunner, res: StepResults, offset: nat, i: nat)
    requires "topic" in base && NamesKnown(active, order) && 0 < i < |order| && offset + i <= |res|
    requires NamesKnown(active, order[1..])
    requires EntryFor(active, order[1..], base, run, res, offset + 1, i - 1)
    ensures EntryFor(active, order, base, run, res, offset, i)
  {
    assert order[1..][i - 1] == order[i];
  }

  /** Stage `order[i]` is required and raised `error` from the context built on `prior`. */
  predicate RaisedBy(active: seq<StepConfig>, order: seq<string>, base: Record, run: StepRunner, i: int, prior: StepResults, error: string)
    requires "topic" in base && NamesKnown(active, order)
  {
    0 <= i < |order| && ConfigOf(active, order[i]).required
    && run(order[i], PrepareStepContext(ConfigOf(active, order[i]), base, prior)) == Err(error)
  }

  /** One unfolding of the stage loop: the first stage runs on the results so far, then the rest of the order follows. */
  lemma RunStepsFirst(active: seq<StepConfig>, order: seq<string>, base: Record, run: StepRunner, results: StepResults)
    requires "topic" in base && NamesKnown(active, order) && order != []
    ensures NamesKnown(active, order[1..])
    ensures var step := ConfigOf(active, order[0]);
      var outcome := run(order[0], PrepareStepContext(step, base, results));
      RunSteps(active, order, base, run, results)
      == if outcome.Err? && step.required then Err(outcome.error)
         else RunSteps(active, order[1..], base, run, Assign(results, order[0], Recorded(outcome)))
  {
    forall j | 0 <= j < |order[1..]| ensures order[1..][j] == order[j + 1] { }
  }

  /** When the workflow aborts, a required stage raised exactly that error. */
  lemma {:induction false} RunStepsAborted(active: seq<StepConfig>, order: seq<string>, k: nat, base: Record, run: StepRunner,
                                           results: StepResults, error: string)
    returns (i: nat, prior: StepResults)
    requires "topic" in base && NamesKnown(active, order) && k < |order|
    requires NamesKnown(active, order[k..]) && RunSteps(active, order[k..], base, run, results) == Err(error)
    ensures k <= i && RaisedBy(active, order, base, run, i, prior, error)
    decreases |order| - k
  {
    WorkflowRound(active, order, k, base, run, results);
    var step := ConfigOf(active, order[k]);
    var outcome := run(order[k], PrepareStepContext(step, base, results));
    if outcome.Err? && step.required {
      i, prior := k, results;
    } else {
      var next := Assign(results, order[k], Recorded(outcome));
      AbortedRunHasStage(active, order[k + 1..], base, run, next);
      i, prior := RunStepsAborted(active, order, k + 1, base, run, next, error);
    }
  }

  /** A run that aborts has a stage left to run. */
  lemma AbortedRunHasStage(active: seq<StepConfig>, order: seq<string>, base: Record, run: StepRunner, results: StepResults)
    requires "topic" in base && NamesKnown(active, order)
    requires RunSteps(active, order, base, run, results).Err?
    ensures order != []
  {
  }

  datatype WorkflowResult = WorkflowResult(
    stepResults: StepResults, stepsExecuted: seq<string>, executionOrder: seq<string>, totalSteps: nat)

  lemma OrderNamesKnown(active: seq<StepConfig>)
    ensures NamesKnown(active, ResolveOrder(active)) && Distinct(ResolveOrder(active))
  {
    ResolveOrderIsPermutation(active);
    forall i | 0 <= i < |ResolveOrder(active)| ensures ResolveOrder(active)[i] in Names(active) {
      var n := ResolveOrder(active)[i];
      assert n in ResolveOrder(active);
      var j :| 0 <= j < |active| && active[j].name == n;
      assert Names(active)[j] == n;
    }
  }

  /** `_execute_workflow` as a reference definition. */
  function Workflow(req: PipelineRequest, ctx: Record, run: StepRunner): (r: Result<WorkflowResult, string>)
    requires "topic" in ctx
    ensures PipelineSteps(req.lessonType) == [] ==> r == Err("Unknown lesson type: " + req.lessonType)
    ensures r.Err? && PipelineSteps(req.lessonType) != [] ==>
      var active := FilterSteps(PipelineSteps(req.lessonType), req.includeVisualAids, req.assessmentRequired);
      exists s :: s in active && s.required
  {
    var steps := PipelineSteps(req.lessonType);
    if steps == [] then Err("Unknown lesson type: " + req.lessonType)
    else
      var active := FilterSteps(steps, req.includeVisualAids, req.assessmentRequired);
      var order := ResolveOrder(active);
      OrderNamesKnown(active);
      match RunSteps(active, order, ctx, run, [])
      case Err(e) => Err(e)
      case Ok(res) => Ok(WorkflowResult(res, Keys(res), order, |active|))
  }

  /**
   * `_execute_workflow`: the stage table, the filter, the resolver, and then
   * the loop that fills `results` in execution order.
   */
  method ExecuteWorkflow(req: PipelineRequest, ctx: Record, run: StepRunner) returns (r: Result<WorkflowResult, string>)
    requires "topic" in ctx
    ensures r == Workflow(req, ctx, run)
  {
    var steps := PipelineSteps(req.lessonType);
    if steps == [] {
      return Err("Unknown lesson type: " + req.lessonType);
    }
    var active := FilterSteps(steps, req.includeVisualAids, req.assessmentRequired);
    var order := ResolveStepDependencies(active);
    OrderNamesKnown(active);
    var results: StepResults := [];
    var i := 0;
    while i < |order|
      invariant 0 <= i <= |order|
      invariant RunSteps(active, order[i..], ctx, run, results) == RunSteps(active, order, ctx, run, [])
    {
      WorkflowRound(active, order, i, ctx, run, results);
      var step := ConfigOf(active, order[i]);
      var stepContext := PrepareStepContext(step, ctx, results);
      var outcome := run(order[i], stepContext);
      if outcome.Err? {
        if step.required {
          return Err(outcome.error);
        }
        results := Assign(results, order[i], FailedRecord(outcome.error));
      } else {
        results := Assign(results, order[i], outcome.value);
      }
      i := i + 1;
    }
    assert order[i..] == [];
    return Ok(WorkflowResult(results, Keys(results), order, |active|));
  }

  /** One pass of the stage loop: the stage at `i` runs on the results so far, then the rest of the order follows. */
  lemma WorkflowRound(active: seq<StepConfig>, order: seq<string>, i: nat, base: Record, run: StepRunner, results: StepResults)
    requires "topic" in base && NamesKnown(active, order) && i < |order|
    ensures NamesKnown(active, order[i..]) && NamesKnown(active, order[i + 1..])
    ensures var step := ConfigOf(active, order[i]);
      var outcome := run(order[i], PrepareStepContext(step, base, results));
      RunSteps(active, order[i..], base, run, results)
      == if outcome.Err? && step.required then Err(outcome.error)
         else RunSteps(active, order[i + 1..], base, run, Assign(results, order[i], Recorded(outcome)))
  {
    forall j | 0 <= j < |order[i..]| ensures order[i..][j] == order[i + j] { }
    assert order[i..][0] == order[i] && order[i..][1..] == order[i + 1..];
    RunStepsFirst(active, order[i..], base, run, results);
  }

  /** A completed workflow executed every stage of its order, once each, in that order. */
  lemma WorkflowExecutesOrder(req: PipelineRequest, ctx: Record, run: StepRunner)
    requires "topic" in ctx && Workflow(req, ctx, run).Ok?
    ensures var w := Workflow(req, ctx, run).value;
      w.stepsExecuted == w.executionOrder
      && w.executionOrder == ResolveOrder(FilterSteps(PipelineSteps(req.lessonType), req.includeVisualAids, req.assessmentRequired))
      && w.totalSteps == |FilterSteps(PipelineSteps(req.lessonType), req.includeVisualAids, req.assessmentRequired)|
  {
    var active := FilterSteps(PipelineSteps(req.lessonType), req.includeVisualAids, req.assessmentRequired);
    var order := ResolveOrder(active);
    OrderNamesKnown(active);
    assert PipelineSteps(req.lessonType) != [];
    RunStepsCompleted(active, order, ctx, run, []);
    var res := RunSteps(active, order, ctx, run, []).value;
    assert Workflow(req, ctx, run).value == WorkflowResult(res, Keys(res), order, |active|);
    KeysFromEntries(active, order, ctx, run, res);
  }

  lemma KeysFromEntries(active: seq<StepConfig>, order: seq<string>, base: Record, run: StepRunner, res: StepResults)
    requires "topic" in base && NamesKnown(active, order) && |res| == |order|
    requires forall i :: 0 <= i < |order| ==> EntryFor(active, order, base, run, res, 0, i)
    ensures Keys(res) == order
  {
    forall i | 0 <= i < |order| ensures Keys(res)[i] == order[i] {
      assert EntryFor(active, order, base, run, res, 0, i);
    }
  }

  /** A lesson type without a stage table raises before any stage runs. */
  lemma UnknownLessonTypeRaises(req: PipelineRequest, ctx: Record, run: StepRunner)
    requires "topic" in ctx && req.lessonType !in {"complete", "planning_only", "content_only"}
    ensures Workflow(req, ctx, run) == Err("Unknown lesson type: " + req.lessonType)
  {
  }

  // ================================================================ post-processing and the response

  datatype Processed = Processed(lessonPlan: Value, content: Value, assessment: Value, visualAids: Value, stepResults: StepResults)

  function Field(results: StepResults, step: string, key: string, default: Value): Value
  {
    match Lookup(results, step)
    case Some(r) => Get(r, key, default)
    case None => default
  }

  /**
   * `_process_workflow_result` as written: lesson plan and content default
   * to `{}`, assessment and visual aids to `None`; visual aids are the
   * visual stage's `visual_content`, or `[]` when the stage recorded none.
   */
  function ProcessWorkflowResult(w: WorkflowResult, includeVisualAids: bool, assessmentRequired: bool): (p: Processed)
    ensures "planning" !in Keys(w.stepResults) ==> p.lessonPlan == Obj(map[])
    ensures "content_generation" !in Keys(w.stepResults) ==> p.content == Obj(map[])
    ensures p.assessment != Null ==> "assessment_creation" in Keys(w.stepResults) && assessmentRequired
    ensures "assessment_creation" in Keys(w.stepResults) && assessmentRequired ==>
      p.assessment == Get(Lookup(w.stepResults, "assessment_creation").value, "assessment", Obj(map[]))
    ensures "visual_aids" in Keys(w.stepResults) && includeVisualAids ==>
      p.visualAids == Get(Lookup(w.stepResults, "visual_aids").value, "visual_content", List([]))
    ensures "visual_aids" !in Keys(w.stepResults) || !includeVisualAids ==> p.visualAids == Null
    ensures p.stepResults == w.stepResults
  {
    var r := w.stepResults;
    Processed(
      Field(r, "planning", "lesson_plan", Obj(map[])),
      Field(r, "content_generation", "content", Obj(map[])),
      if "assessment_creation" in Keys(r) && assessmentRequired then Field(r, "assessment_creation", "assessment", Obj(map[])) else Null,
      if "visual_aids" in Keys(r) && includeVisualAids then Field(r, "visual_aids", "visual_content", List([])) else Null,
      r)
  }

  /**
   * The visual stage's `visual_content` as the list of dicts the response
   * declares: a single dict becomes a one-element list.
   */
  function VisualAidsList(v: Value): (r: Value)
    ensures v.Obj? ==> r == List([v])
    ensures !v.Obj? ==> r == v
  {
    if v.Obj? then List([v]) else v
  }

  /** `_process_workflow_result` with the visual content wrapped into a list, as the response type requires. */
  function ProcessWorkflowResultFixed(w: WorkflowResult, includeVisualAids: bool, assessmentRequired: bool): (p: Processed)
    ensures var q := ProcessWorkflowResult(w, includeVisualAids, assessmentRequired);
      p.lessonPlan == q.lessonPlan && p.content == q.content && p.assessment == q.assessment
      && p.stepResults == q.stepResults && p.visualAids == VisualAidsList(q.visualAids)
  {
    var q := ProcessWorkflowResult(w, includeVisualAids, assessmentRequired);
    q.(visualAids := VisualAidsList(q.visualAids))
  }

  datatype Components = Components(lessonPlan: bool, content: bool, assessment: bool, visualAids: bool)

  datatype ExecutionSummary = ExecutionSummary(
    totalProcessingTime: real, stepsExecuted: seq<string>, successRate: real, components: Components)

  datatype PipelineResponse = PipelineResponse(
    lessonPlan: Record, content: Record, assessment: Option<Record>, visualAids: Option<seq<Record>>,
    metadata: Record, summary: ExecutionSummary, recommendations: seq<string>, nextSteps: seq<string>)

  const PipelineVersion := "2.0.0"

  /** The message a failed response-model validation raises. */
  const ResponseValidationError := "validation error for LessonPipelineResponse"

  /** Validation of a `Dict[str, Any]` field. */
  function AsDict(v: Value): (r: Result<Record, string>)
    ensures r.Ok? <==> v.Obj?
    ensures r.Ok? ==> Obj(r.value) == v
  {
    if v.Obj? then Ok(v.fields) else Err(ResponseValidationError)
  }

  /** Validation of an `Optional[Dict[str, Any]]` field. */
  function AsOptionalDict(v: Value): (r: Result<Option<Record>, string>)
    ensures r.Ok? <==> v.Null? || v.Obj?
    ensures r == Ok(None) <==> v.Null?
  {
    if v.Null? then Ok(None) else if v.Obj? then Ok(Some(v.fields)) else Err(ResponseValidationError)
  }

  predicate IsDictList(v: Value)
  {
    v.List? && forall i :: 0 <= i < |v.items| ==> v.items[i].Obj?
  }

  /** Validation of an `Optional[List[Dict[str, Any]]]` field: a dict is not a list. */
  function AsOptionalDictList(v: Value): (r: Result<Option<seq<Record>>, string>)
    ensures r.Ok? <==> v.Null? || IsDictList(v)
    ensures r.Ok? && r.value.Some? ==> (v.List? && |r.value.value| == |v.items|
                                        && forall i :: 0 <= i < |v.items| ==> Obj(r.value.value[i]) == v.items[i])
  {
    if v.Null? then Ok(None)
    else if IsDictList(v) then Ok(Some(seq(|v.items|, i requires 0 <= i < |v.items| => v.items[i].fields)))
    else Err(ResponseValidationError)
  }

  /** The number of results without a truthy "error". */
  function CountSuccessful(results: StepResults): (n: nat)
    ensures n <= |results|
    ensures n == |results| <==> forall i :: 0 <= i < |results| ==> !Truthy(Get(results[i].1, "error", Null))
  {
    if results == [] then 0
    else
      var rest := CountSuccessful(results[1..]);
      assert forall i :: 1 <= i < |results| ==> results[i] == results[1..][i - 1];
      (if Truthy(Get(results[0].1, "error", Null)) then 0 else 1) + rest
  }

  /** `_calculate_success_rate`, without the rounding to two decimals. */
  function SuccessRate(results: StepResults): (r: real)
    ensures 0.0 <= r <= 1.0
    ensures results == [] ==> r == 0.0
    ensures results != [] ==> (r == 1.0 <==> forall i :: 0 <= i < |results| ==> !Truthy(Get(results[i].1, "error", Null)))
  {
    if results == [] then 0.0
    else
      RatioBounds(CountSuccessful(results), |results|);
      (CountSuccessful(results) as real) / (|results| as real)
  }

  lemma RatioBounds(n: nat, d: nat)
    requires 0 < d && n <= d
    ensures 0.0 <= (n as real) / (d as real) <= 1.0
    ensures (n as real) / (d as real) == 1.0 <==> n == d
  {
    var q := (n as real) / (d as real);
    assert q * (d as real) == n as real;
  }

  /** The recommendations `_generate_pipeline_recommendations` can make. */
  datatype Recommendation =
    | ReviewLessonPlan | CustomizeContent | ConsiderVisualAids | CreateAssessmentTools | PilotTest | GatherFeedback
  {
    function Text(): string
    {
      match this
      case ReviewLessonPlan => "Review lesson plan for alignment with learning objectives"
      case CustomizeContent => "Customize content for your specific classroom needs"
      case ConsiderVisualAids => "Consider adding visual aids to enhance student engagement"
      case CreateAssessmentTools => "Create assessment tools to measure student understanding"
      case PilotTest => "Pilot test the lesson with a small group before full implementation"
      case GatherFeedback => "Gather student feedback to improve future lessons"
    }
  }

  /** The recommendations that depend on what was generated, in order. */
  function ConditionalRecommendations(p: Processed, includeVisualAids: bool, assessmentRequired: bool): (r: seq<Recommendation>)
    ensures |r| <= 4
    ensures PilotTest !in r && GatherFeedback !in r
    ensures ReviewLessonPlan in r <==> Truthy(p.lessonPlan)
    ensures CustomizeContent in r <==> Truthy(p.content)
    ensures ConsiderVisualAids in r <==> includeVisualAids && !Truthy(p.visualAids)
    ensures CreateAssessmentTools in r <==> assessmentRequired && !Truthy(p.assessment)
  {
    (if Truthy(p.lessonPlan) then [ReviewLessonPlan] else [])
    + (if Truthy(p.content) then [CustomizeContent] else [])
    + (if includeVisualAids && !Truthy(p.visualAids) then [ConsiderVisualAids] else [])
    + (if assessmentRequired && !Truthy(p.assessment) then [CreateAssessmentTools] else [])
  }

  /**
   * `_generate_pipeline_recommendations`: the conditional items, then the
   * two general ones, cut to five. The pilot test always survives the cut;
   * the feedback item is dropped exactly when all four conditions hold.
   */
  function PipelineRecommendations(p: Processed, includeVisualAids: bool, assessmentRequired: bool): (r: seq<Recommendation>)
    ensures |ConditionalRecommendations(p, includeVisualAids, assessmentRequired)| < |r| <= 5
    ensures PilotTest in r
    ensures GatherFeedback in r <==> |ConditionalRecommendations(p, includeVisualAids, assessmentRequired)| < 4
    ensures r[..|ConditionalRecommendations(p, includeVisualAids, assessmentRequired)|] == ConditionalRecommendations(p, includeVisualAids, assessmentRequired)
  {
    var cond := ConditionalRecommendations(p, includeVisualAids, assessmentRequired);
    TakeFiveKeepsFirstGeneral(cond, PilotTest, GatherFeedback);
    Take(cond + [PilotTest, GatherFeedback], 5)
  }

  /** Cutting `cond + [a, b]` to five keeps `cond` and `a`, and keeps `b` exactly when `cond` has fewer than four items. */
  lemma TakeFiveKeepsFirstGeneral<T>(cond: seq<T>, a: T, b: T)
    requires |cond| <= 4 && b !in cond && a != b
    ensures var r := Take(cond + [a, b], 5);
      |cond| < |r| <= 5 && a in r && r[..|cond|] == cond && (b in r <==> |cond| < 4)
  {
    var all := cond + [a, b];
    var r := Take(all, 5);
    assert r[|cond|] == all[|cond|] == a;
    if |cond| < 4 {
      assert r[|cond| + 1] == b;
    } else {
      assert r == cond + [a];
    }
  }

  /** The steps `_generate_pipeline_next_steps` can list. */
  datatype NextStep =
    | ReviewComponents | PrepareMaterials | SetUpVisualAids | PrepareAssessment | ScheduleDelivery | MonitorEngagement
  {
    function Text(): string
    {
      match this
      case ReviewComponents => "Review all generated components for accuracy and relevance"
      case PrepareMaterials => "Prepare required materials and resources"
      case SetUpVisualAids => "Set up visual aids and multimedia equipment"
      case PrepareAssessment => "Prepare assessment materials and rubrics"
      case ScheduleDelivery => "Schedule lesson delivery and assessment dates"
      case MonitorEngagement => "Monitor student engagement and understanding during delivery"
    }
  }

  /** `_generate_pipeline_next_steps`. */
  function PipelineNextSteps(p: Processed): (r: seq<NextStep>)
    ensures 4 <= |r| <= 6
    ensures r[..2] == [ReviewComponents, PrepareMaterials]
    ensures r[|r| - 2..] == [ScheduleDelivery, MonitorEngagement]
    ensures SetUpVisualAids in r <==> Truthy(p.visualAids)
    ensures PrepareAssessment in r <==> Truthy(p.assessment)
  {
    [ReviewComponents, PrepareMaterials]
    + (if Truthy(p.visualAids) then [SetUpVisualAids] else [])
    + (if Truthy(p.assessment) then [PrepareAssessment] else [])
    + [ScheduleDelivery, MonitorEngagement]
  }

  /** The texts of a list of recommendations or next steps, in order. */
  function RecommendationTexts(rs: seq<Recommendation>): (ts: seq<string>)
    ensures |ts| == |rs| && forall i :: 0 <= i < |rs| ==> ts[i] == rs[i].Text()
  {
    seq(|rs|, i requires 0 <= i < |rs| => rs[i].Text())
  }

  function NextStepTexts(ns: seq<NextStep>): (ts: seq<string>)
    ensures |ts| == |ns| && forall i :: 0 <= i < |ns| ==> ts[i] == ns[i].Text()
  {
    seq(|ns|, i requires 0 <= i < |ns| => ns[i].Text())
  }

  /** `components_generated`: each flag is the truthiness of its field. */
  function ComponentsOf(p: Processed): (c: Components)
    ensures c.lessonPlan <==> Truthy(p.lessonPlan)
    ensures c.visualAids <==> Truthy(p.visualAids)
    ensures c.content <==> Truthy(p.content)
    ensures c.assessment <==> Truthy(p.assessment)
  {
    Components(Truthy(p.lessonPlan), Truthy(p.content), Truthy(p.assessment), Truthy(p.visualAids))
  }

  /**
   * `_create_pipeline_response`, including the validation the response model
   * performs on its typed fields; `elapsed` stands for the wall-clock time.
   */
  function CreatePipelineResponse(p: Processed, req: PipelineRequest, elapsed: real): (r: Result<PipelineResponse, string>)
    ensures r.Ok? <==> (p.lessonPlan.Obj? && p.content.Obj? && (p.assessment.Null? || p.assessment.Obj?)
                        && (p.visualAids.Null? || IsDictList(p.visualAids)))
    ensures r.Ok? ==> (r.value.summary.stepsExecuted == Keys(p.stepResults)
                       && r.value.summary.successRate == SuccessRate(p.stepResults)
                       && r.value.summary.components == ComponentsOf(p)
                       && |r.value.recommendations| <= 5 && 4 <= |r.value.nextSteps| <= 6)
    ensures r.Err? ==> r.error == ResponseValidationError
  {
    var summary := ExecutionSummary(elapsed, Keys(p.stepResults), SuccessRate(p.stepResults), ComponentsOf(p));
    var metadata := map["pipeline_version" := Str(PipelineVersion), "execution_time" := Real(elapsed),
                        "lesson_type" := Str(req.lessonType), "topic" := Str(req.topic), "grade_level" := Str(req.gradeLevel)];
    match (AsDict(p.lessonPlan), AsDict(p.content), AsOptionalDict(p.assessment), AsOptionalDictList(p.visualAids))
    case (Ok(lp), Ok(c), Ok(a), Ok(va)) =>
      Ok(PipelineResponse(lp, c, a, va, metadata, summary,
        RecommendationTexts(PipelineRecommendations(p, req.includeVisualAids, req.assessmentRequired)),
        NextStepTexts(PipelineNextSteps(p))))
    case _ => Err(ResponseValidationError)
  }

  /** `_create_error_response`. */
  function ErrorResponse(req: PipelineRequest, error: string, elapsed: real): (r: PipelineResponse)
    ensures r.summary.stepsExecuted == [] && r.summary.successRate == 0.0
    ensures r.summary.components == Components(false, false, false, false)
    ensures r.lessonPlan == FailedRecord(error) && r.content == FailedRecord(error)
    ensures r.assessment.None? && r.visualAids.None?
  {
    PipelineResponse(FailedRecord(error), FailedRecord(error), None, None,
      map["pipeline_version" := Str(PipelineVersion), "execution_time" := Real(elapsed),
          "lesson_type" := Str(req.lessonType), "error" := Str(error)],
      ExecutionSummary(elapsed, [], 0.0, Components(false, false, false, false)),
      ["Check system logs for error details", "Retry with simpler parameters"],
      ["Review error and adjust request", "Contact support if issue persists"])
  }

  /** The stage results a run of the four agent handlers produces, as far as the response model cares. */
  predicate HandlerShaped(results: StepResults)
  {
    (Lookup(results, "planning").Some? ==> Get(Lookup(results, "planning").value, "lesson_plan", Obj(map[])).Obj?)
    && (Lookup(results, "content_generation").Some? ==> Get(Lookup(results, "content_generation").value, "content", Obj(map[])).Obj?)
    && (Lookup(results, "assessment_creation").Some? ==> Get(Lookup(results, "assessment_creation").value, "assessment", Obj(map[])).Obj?)
    && (Lookup(results, "visual_aids").Some? ==> Get(Lookup(results, "visual_aids").value, "visual_content", Obj(map[])).Obj?)
  }

  /**
   * As written, a visual stage that returned its `visual_content` dict makes
   * the response model reject `visual_aids`, so the whole run ends in the
   * error response.
   */
  lemma VisualContentDictRejected(w: WorkflowResult, req: PipelineRequest, elapsed: real)
    requires req.includeVisualAids && Lookup(w.stepResults, "visual_aids").Some?
    requires "visual_content" in Lookup(w.stepResults, "visual_aids").value
    requires Lookup(w.stepResults, "visual_aids").value["visual_content"].Obj?
    ensures CreatePipelineResponse(ProcessWorkflowResult(w, req.includeVisualAids, req.assessmentRequired), req, elapsed).Err?
  {
  }

  /** With the visual content wrapped, results of the shape the handlers produce always pass validation. */
  lemma FixedResponseValidates(w: WorkflowResult, req: PipelineRequest, elapsed: real)
    requires HandlerShaped(w.stepResults)
    ensures CreatePipelineResponse(ProcessWorkflowResultFixed(w, req.includeVisualAids, req.assessmentRequired), req, elapsed).Ok?
  {
    var r := w.stepResults;
    var q := ProcessWorkflowResult(w, req.includeVisualAids, req.assessmentRequired);
    if Lookup(r, "visual_aids").Some? && req.includeVisualAids {
      var v := Lookup(r, "visual_aids").value;
      assert q.visualAids == Get(v, "visual_content", List([]));
    }
  }

  /**
   * `execute_pipeline` as a reference definition: any exception, from the
   * workflow or from building the response, yields the error response.
   */
  function PipelineOutcome(req: PipelineRequest, pipelineId: string, elapsed: real, run: StepRunner): (r: PipelineResponse)
    ensures Workflow(req, PreparePipelineContext(req, pipelineId), run).Err? ==>
      r == ErrorResponse(req, Workflow(req, PreparePipelineContext(req, pipelineId), run).error, elapsed)
    ensures r.summary.successRate != 0.0 ==> Workflow(req, PreparePipelineContext(req, pipelineId), run).Ok?
  {
    var ctx := PreparePipelineContext(req, pipelineId);
    match Workflow(req, ctx, run)
    case Err(e) => ErrorResponse(req, e, elapsed)
    case Ok(w) =>
      match CreatePipelineResponse(ProcessWorkflowResult(w, req.includeVisualAids, req.assessmentRequired), req, elapsed)
      case Ok(resp) => resp
      case Err(e) => ErrorResponse(req, e, elapsed)
  }

  /** `execute_pipeline` with the visual content wrapped into a list, every other step as written. */
  function PipelineOutcomeFixed(req: PipelineRequest, pipelineId: string, elapsed: real, run: StepRunner): (r: PipelineResponse)
    ensures Workflow(req, PreparePipelineContext(req, pipelineId), run).Err? ==>
      r == ErrorResponse(req, Workflow(req, PreparePipelineContext(req, pipelineId), run).error, elapsed)
    ensures r.summary.successRate != 0.0 ==> Workflow(req, PreparePipelineContext(req, pipelineId), run).Ok?
  {
    var ctx := PreparePipelineContext(req, pipelineId);
    match Workflow(req, ctx, run)
    case Err(e) => ErrorResponse(req, e, elapsed)
    case Ok(w) =>
      match CreatePipelineResponse(ProcessWorkflowResultFixed(w, req.includeVisualAids, req.assessmentRequired), req, elapsed)
      case Ok(resp) => resp
      case Err(e) => ErrorResponse(req, e, elapsed)
  }

  /**
   * As written, a run whose visual stage returned its `visual_content` dict
   * ends in the error response, although every stage succeeded.
   */
  lemma VisualStageEndsInErrorResponse(req: PipelineRequest, pipelineId: string, elapsed: real, run: StepRunner)
    requires Workflow(req, PreparePipelineContext(req, pipelineId), run).Ok?
    requires var w := Workflow(req, PreparePipelineContext(req, pipelineId), run).value;
      req.includeVisualAids && Lookup(w.stepResults, "visual_aids").Some?
      && "visual_content" in Lookup(w.stepResults, "visual_aids").value
      && Lookup(w.stepResults, "visual_aids").value["visual_content"].Obj?
    ensures PipelineOutcome(req, pipelineId, elapsed, run) == ErrorResponse(req, ResponseValidationError, elapsed)
  {
    var w := Workflow(req, PreparePipelineContext(req, pipelineId), run).value;
    VisualContentDictRejected(w, req, elapsed);
  }

  /**
   * As written, a run without a visual stage whose stages return results of
   * the handlers' shape gets the response that reports every stage it ran.
   */
  lemma RunWithoutVisualStageSucceeds(req: PipelineRequest, pipelineId: string, elapsed: real, run: StepRunner)
    requires Workflow(req, PreparePipelineContext(req, pipelineId), run).Ok?
    requires var w := Workflow(req, PreparePipelineContext(req, pipelineId), run).value;
      HandlerShaped(w.stepResults) && (!req.includeVisualAids || Lookup(w.stepResults, "visual_aids").None?)
    ensures var w := Workflow(req, PreparePipelineContext(req, pipelineId), run).value;
      var resp := PipelineOutcome(req, pipelineId, elapsed, run);
      resp.summary.stepsExecuted == Keys(w.stepResults) && resp.summary.successRate == SuccessRate(w.stepResults)
  {
    var w := Workflow(req, PreparePipelineContext(req, pipelineId), run).value;
    var q := ProcessWorkflowResult(w, req.includeVisualAids, req.assessmentRequired);
    assert q.visualAids == Null;
    assert ProcessWorkflowResultFixed(w, req.includeVisualAids, req.assessmentRequired) == q;
    FixedResponseValidates(w, req, elapsed);
  }

  /**
   * With the visual content wrapped, a run whose stages return results of
   * the handlers' shape always gets the response that reports every stage
   * it ran, never the error response.
   */
  lemma FixedPipelineSucceeds(req: PipelineRequest, pipelineId: string, elapsed: real, run: StepRunner)
    requires Workflow(req, PreparePipelineContext(req, pipelineId), run).Ok?
    requires HandlerShaped(Workflow(req, PreparePipelineContext(req, pipelineId), run).value.stepResults)
    ensures var w := Workflow(req, PreparePipelineContext(req, pipelineId), run).value;
      var resp := PipelineOutcomeFixed(req, pipelineId, elapsed, run);
      resp.summary.stepsExecuted == Keys(w.stepResults) && resp.summary.successRate == SuccessRate(w.stepResults)
  {
    var w := Workflow(req, PreparePipelineContext(req, pipelineId), run).value;
    FixedResponseValidates(w, req, elapsed);
  }

  /** `execute_pipeline`: context, workflow, post-processing and response, in sequence. */
  method ExecutePipeline(req: PipelineRequest, pipelineId: string, elapsed: real, run: StepRunner) returns (resp: PipelineResponse)
    ensures resp == PipelineOutcome(req, pipelineId, elapsed, run)
  {
    var ctx := PreparePipelineContext(req, pipelineId);
    var workflow := ExecuteWorkflow(req, ctx, run);
    if workflow.Err? {
      return ErrorResponse(req, workflow.error, elapsed);
    }
    var processed := ProcessWorkflowResult(workflow.value, req.includeVisualAids, req.assessmentRequired);
    var response := CreatePipelineResponse(processed, req, elapsed);
    if response.Err? {
      return ErrorResponse(req, response.error, elapsed);
    }
    return response.value;
  }

  /**
   * A required stage that raises ends the run in the error response: no
   * stages executed, success rate 0, no component generated, and the error
   * is the one that stage raised.
   */
  lemma RequiredFailureGivesErrorResponse(req: PipelineRequest, pipelineId: string, elapsed: real, run: StepRunner)
    requires Workflow(req, PreparePipelineContext(req, pipelineId), run).Err?
    ensures var resp := PipelineOutcome(req, pipelineId, elapsed, run);
      resp.summary.stepsExecuted == [] && resp.summary.successRate == 0.0
      && resp.summary.components == Components(false, false, false, false)
      && resp.lessonPlan == FailedRecord(Workflow(req, PreparePipelineContext(req, pipelineId), run).error)
  {
  }
}
