/**
 * The planning rules of the orchestrator agent: how complex a workflow is,
 * how long it should take, which agents it needs and in what order, how
 * complete its result is, and the confidence, recommendations, next steps
 * and fallback response it reports. The reasoning engine is an oracle
 * (its recommendations are a parameter); execution itself is the lesson
 * pipeline.
 */
module OrchestratorAgent {
  import opened Wrappers
  import opened Text
  import opened Values
  import opened AgentPolicy

  /** The fields of `OrchestrationRequest` the planning rules read. */
  datatype OrchestrationRequest = OrchestrationRequest(
    topic: string,
    workflowType: string,
    gradeLevel: string,
    learningObjectives: Option<seq<string>>,
    studentData: Option<Record>,
    includeVisualAids: bool,
    assessmentRequired: bool)

  predicate CoversPlanning(t: string) { t == "complete" || t == "planning_only" }
  predicate CoversContent(t: string) { t == "complete" || t == "content_only" }
  predicate CoversAssessment(t: string) { t == "complete" || t == "assessment_only" }
  predicate CoversVisual(t: string) { t == "complete" || t == "visual_only" }

  /** More than three learning objectives were given. */
  predicate ManyObjectives(req: OrchestrationRequest)
  {
    req.learningObjectives.Some? && |req.learningObjectives.value| > 3
  }

  /** Student data was given and is not empty. */
  predicate HasStudentData(req: OrchestrationRequest)
  {
    req.studentData.Some? && |req.studentData.value| > 0
  }

  /** The points the workflow type contributes to the complexity score. */
  function WorkflowWeight(t: string): nat
  {
    if t == "complete" then 3
    else if t == "content_only" || t == "assessment_only" then 2
    else 1
  }

  /** The score `_assess_complexity` accumulates. */
  function ComplexityScore(req: OrchestrationRequest): nat
  {
    WorkflowWeight(req.workflowType)
    + (if ManyObjectives(req) then 1 else 0)
    + (if HasStudentData(req) then 1 else 0)
  }

  datatype Complexity = Simple | Moderate | Complex

  /**
   * `_assess_complexity`. Only a complete workflow with many objectives and
   * student data is complex; a complete workflow is never simple; a
   * content-only or assessment-only workflow is simple exactly when neither
   * extra applies, and any other workflow when at most one does.
   */
  function AssessComplexity(req: OrchestrationRequest): (c: Complexity)
    ensures c == Complex <==> req.workflowType == "complete" && ManyObjectives(req) && HasStudentData(req)
    ensures req.workflowType == "complete" ==> c != Simple
    ensures req.workflowType == "content_only" || req.workflowType == "assessment_only" ==>
      (c == Simple <==> !ManyObjectives(req) && !HasStudentData(req))
    ensures req.workflowType !in {"complete", "content_only", "assessment_only"} ==>
      (c == Simple <==> !(ManyObjectives(req) && HasStudentData(req)))
  {
    var score := ComplexityScore(req);
    if score <= 2 then Simple
    else if score <= 4 then Moderate
    else Complex
  }

  /** `_estimate_duration`, in seconds. */
  function EstimateDuration(req: OrchestrationRequest): (d: nat)
    ensures 30 <= d <= 125
    ensures d == 125 <==> req.workflowType == "complete" && req.includeVisualAids && req.assessmentRequired
    ensures d == 30 <==>
      req.workflowType !in {"complete", "content_only", "assessment_only"} && !req.includeVisualAids && !req.assessmentRequired
  {
    30
    + (if req.workflowType == "complete" then 60
       else if req.workflowType == "content_only" || req.workflowType == "assessment_only" then 30
       else 0)
    + (if req.includeVisualAids then 20 else 0)
    + (if req.assessmentRequired then 15 else 0)
  }

  /** Asking for visual aids adds twenty seconds and asking for an assessment fifteen, whatever else is requested. */
  lemma DurationFlagIncrements(req: OrchestrationRequest)
    ensures EstimateDuration(req.(includeVisualAids := true)) == EstimateDuration(req.(includeVisualAids := false)) + 20
    ensures EstimateDuration(req.(assessmentRequired := true)) == EstimateDuration(req.(assessmentRequired := false)) + 15
  {
  }

  datatype Agent = Planner | Content | Assessment | VisualAid
  {
    function Name(): string
    {
      match this
      case Planner => "planner"
      case Content => "content"
      case Assessment => "assessment"
      case VisualAid => "visual_aid"
    }
  }

  /** The `agent_requirements` part of the orchestration context. */
  datatype Requirements = Requirements(planner: bool, content: bool, assessment: bool, visualAid: bool)

  function AgentRequirements(req: OrchestrationRequest): Requirements
  {
    Requirements(
      CoversPlanning(req.workflowType),
      CoversContent(req.workflowType),
      req.assessmentRequired && CoversAssessment(req.workflowType),
      req.includeVisualAids && CoversVisual(req.workflowType))
  }

  /** Whether `Requirements` asks for agent `a`. */
  predicate Needs(r: Requirements, a: Agent)
  {
    match a
    case Planner => r.planner
    case Content => r.content
    case Assessment => r.assessment
    case VisualAid => r.visualAid
  }

  /** The order `_determine_required_agents` lists agents in. */
  function ListRank(a: Agent): nat
  {
    match a
    case Planner => 0
    case Content => 1
    case Assessment => 2
    case VisualAid => 3
  }

  /** `xs` lists agents in `_determine_required_agents` order, without repeats. */
  predicate InListOrder(xs: seq<Agent>)
  {
    forall i, j :: 0 <= i < j < |xs| ==> ListRank(xs[i]) < ListRank(xs[j])
  }

  /**
   * `_determine_required_agents`: exactly the agents the requirements ask
   * for, in planner, content, assessment, visual-aid order.
   */
  function RequiredAgents(req: OrchestrationRequest): (agents: seq<Agent>)
    ensures forall a :: a in agents <==> Needs(AgentRequirements(req), a)
    ensures InListOrder(agents)
  {
    RequiredAgentsOf(AgentRequirements(req))
  }

  function RequiredAgentsOf(r: Requirements): (agents: seq<Agent>)
    ensures forall a :: a in agents <==> Needs(r, a)
    ensures InListOrder(agents)
  {
    (if r.planner then [Planner] else [])
    + (if r.content then [Content] else [])
    + (if r.assessment then [Assessment] else [])
    + (if r.visualAid then [VisualAid] else [])
  }

  /** The `workflow_plan` `_plan_workflow` returns. */
  datatype WorkflowPlan = WorkflowPlan(
    executionStrategy: string,
    agentSequence: seq<Agent>,
    dependencies: map<Agent, seq<Agent>>,
    fastMode: bool,
    qualityMode: bool)

  /** The order `_plan_workflow` sequences agents in: visual aids come before assessment. */
  function PlanRank(a: Agent): nat
  {
    match a
    case Planner => 0
    case Content => 1
    case VisualAid => 2
    case Assessment => 3
  }

  /** `xs` lists agents in `_plan_workflow` order, without repeats. */
  predicate InPlanOrder(xs: seq<Agent>)
  {
    forall i, j :: 0 <= i < j < |xs| ==> PlanRank(xs[i]) < PlanRank(xs[j])
  }

  /** Every dependency of a sequenced agent runs before it. */
  predicate DependenciesRespected(plan: WorkflowPlan)
  {
    forall a, d :: a in plan.dependencies && d in plan.dependencies[a] ==>
      a in plan.agentSequence && d in plan.agentSequence && RunsBefore(plan.agentSequence, d, a)
  }

  /** `d` occurs in `s` at a position before one where `a` occurs. */
  predicate RunsBefore(s: seq<Agent>, d: Agent, a: Agent)
  {
    exists i, j :: 0 <= i < j < |s| && s[i] == d && s[j] == a
  }

  /**
   * What `_plan_workflow` promises: the plan is sequential; it runs
   * exactly the required agents, planner and content first, then visual
   * aids and assessment; content depends on the planner when both run,
   * visual aids and assessment on content when it runs; every dependency
   * runs earlier; the plan is fast when the workflow is simple and
   * quality-first when it is complex.
   */
  predicate SoundPlan(required: Requirements, complexity: Complexity, plan: WorkflowPlan)
  {
    && plan.executionStrategy == "sequential"
    && (forall a :: a in plan.agentSequence <==> Needs(required, a))
    && InPlanOrder(plan.agentSequence)
    && Planner !in plan.dependencies
    && (Content in plan.dependencies <==> Content in plan.agentSequence && Planner in plan.agentSequence)
    && (VisualAid in plan.dependencies <==> VisualAid in plan.agentSequence)
    && (Assessment in plan.dependencies <==> Assessment in plan.agentSequence)
    && (Content in plan.dependencies ==> plan.dependencies[Content] == [Planner])
    && (VisualAid in plan.dependencies ==>
          plan.dependencies[VisualAid] == (if Content in plan.agentSequence then [Content] else []))
    && (Assessment in plan.dependencies ==>
          plan.dependencies[Assessment] == (if Content in plan.agentSequence then [Content] else []))
    && DependenciesRespected(plan)
    && (plan.fastMode <==> complexity == Simple)
    && (plan.qualityMode <==> complexity == Complex)
  }

  /** `_plan_workflow`, given the agent requirements and the complexity the context analysis found. */
  method PlanWorkflow(required: Requirements, complexity: Complexity) returns (plan: WorkflowPlan)
    ensures SoundPlan(required, complexity, plan)
  {
    var sequence: seq<Agent> := [];
    var dependencies: map<Agent, seq<Agent>> := map[];
    if required.planner {
      sequence := sequence + [Planner];
    }
    assert sequence == Opt(required.planner, Planner);
    if required.content {
      sequence := sequence + [Content];
      if Planner in sequence {
        dependencies := dependencies[Content := [Planner]];
      }
    }
    assert sequence == Opt(required.planner, Planner) + Opt(required.content, Content);
    assert Content in sequence <==> required.content;
    var parallel: seq<Agent> := [];
    if required.visualAid {
      parallel := parallel + [VisualAid];
      dependencies := dependencies[VisualAid := if Content in sequence then [Content] else []];
    }
    assert parallel == Opt(required.visualAid, VisualAid);
    if required.assessment {
      parallel := parallel + [Assessment];
      dependencies := dependencies[Assessment := if Content in sequence then [Content] else []];
    }
    assert parallel == Opt(required.visualAid, VisualAid) + Opt(required.assessment, Assessment);
    sequence := sequence + parallel;
    plan := WorkflowPlan("sequential", sequence, dependencies, complexity == Simple, complexity == Complex);
    PlanIsSound(required, complexity, plan);
  }

  /** A plan built in closed form is sound. */
  lemma PlanIsSound(r: Requirements, complexity: Complexity, plan: WorkflowPlan)
    requires plan.executionStrategy == "sequential"
    requires plan.agentSequence == Opt(r.planner, Planner) + Opt(r.content, Content) + (Opt(r.visualAid, VisualAid) + Opt(r.assessment, Assessment))
    requires plan.dependencies == PlanDependencies(r)
    requires (plan.fastMode <==> complexity == Simple) && (plan.qualityMode <==> complexity == Complex)
    ensures SoundPlan(r, complexity, plan)
  {
    PlanSequenceMembers(r, plan.agentSequence);
    PlanSequenceOrdered(r, plan.agentSequence);
    PlanDependencyEntries(r, plan);
    PlanDependenciesRespected(r, plan);
  }

  /** `[a]` when `b` holds, else nothing. */
  function Opt(b: bool, a: Agent): (r: seq<Agent>)
    ensures a in r <==> b
    ensures |r| <= 1 && forall x :: x in r ==> x == a
  {
    if b then [a] else []
  }

  /** The dependency map `_plan_workflow` builds, in closed form. */
  function PlanDependencies(r: Requirements): map<Agent, seq<Agent>>
  {
    var onContent := Opt(r.content, Content);
    var m0: map<Agent, seq<Agent>> := if r.planner && r.content then map[Content := [Planner]] else map[];
    var m1 := if r.visualAid then m0[VisualAid := onContent] else m0;
    if r.assessment then m1[Assessment := onContent] else m1
  }

  /** The plan's sequence holds exactly the required agents. */
  lemma PlanSequenceMembers(r: Requirements, s: seq<Agent>)
    requires s == Opt(r.planner, Planner) + Opt(r.content, Content) + (Opt(r.visualAid, VisualAid) + Opt(r.assessment, Assessment))
    ensures forall a :: a in s <==> Needs(r, a)
  {
    forall a ensures a in s <==> Needs(r, a)
    {
      match a
      case Planner => assert a in s <==> a in Opt(r.planner, Planner);
      case Content => assert a in s <==> a in Opt(r.content, Content);
      case VisualAid => assert a in s <==> a in Opt(r.visualAid, VisualAid);
      case Assessment => assert a in s <==> a in Opt(r.assessment, Assessment);
    }
  }

  /** The plan's sequence is in plan order. */
  lemma PlanSequenceOrdered(r: Requirements, s: seq<Agent>)
    requires s == Opt(r.planner, Planner) + Opt(r.content, Content) + (Opt(r.visualAid, VisualAid) + Opt(r.assessment, Assessment))
    ensures InPlanOrder(s)
  {
    var front := Opt(r.planner, Planner) + Opt(r.content, Content);
    var back := Opt(r.visualAid, VisualAid) + Opt(r.assessment, Assessment);
    AscendingConcat(Opt(r.planner, Planner), Opt(r.content, Content));
    AscendingConcat(Opt(r.visualAid, VisualAid), Opt(r.assessment, Assessment));
    AscendingConcat(front, back);
  }

  /** Which agents the dependency map has entries for, and what they are. */
  lemma PlanDependencyEntries(r: Requirements, plan: WorkflowPlan)
    requires forall a :: a in plan.agentSequence <==> Needs(r, a)
    requires plan.dependencies == PlanDependencies(r)
    ensures Planner !in plan.dependencies
    ensures Content in plan.dependencies <==> Content in plan.agentSequence && Planner in plan.agentSequence
    ensures VisualAid in plan.dependencies <==> VisualAid in plan.agentSequence
    ensures Assessment in plan.dependencies <==> Assessment in plan.agentSequence
    ensures Content in plan.dependencies ==> plan.dependencies[Content] == [Planner]
    ensures VisualAid in plan.dependencies ==>
      plan.dependencies[VisualAid] == (if Content in plan.agentSequence then [Content] else [])
    ensures Assessment in plan.dependencies ==>
      plan.dependencies[Assessment] == (if Content in plan.agentSequence then [Content] else [])
  {
    assert Planner in plan.agentSequence <==> r.planner;
    assert Content in plan.agentSequence <==> r.content;
    assert VisualAid in plan.agentSequence <==> r.visualAid;
    assert Assessment in plan.agentSequence <==> r.assessment;
  }

  /** Every dependency in the map points at an agent that runs earlier. */
  lemma PlanDependenciesRespected(r: Requirements, plan: WorkflowPlan)
    requires forall a :: a in plan.agentSequence <==> Needs(r, a)
    requires InPlanOrder(plan.agentSequence)
    requires plan.dependencies == PlanDependencies(r)
    ensures DependenciesRespected(plan)
  {
    var s := plan.agentSequence;
    forall a, d | a in plan.dependencies && d in plan.dependencies[a]
      ensures a in s && d in s && RunsBefore(s, d, a)
    {
      DependencyEntry(r, a, d);
      assert a in s && d in s;
      Before(s, d, a);
    }
  }

  /** Each dependency the plan records is a required agent of lower rank than the required agent that waits for it. */
  lemma DependencyEntry(r: Requirements, a: Agent, d: Agent)
    requires a in PlanDependencies(r) && d in PlanDependencies(r)[a]
    ensures Needs(r, a) && Needs(r, d) && PlanRank(d) < PlanRank(a)
  {
    var onContent := Opt(r.content, Content);
    var m0: map<Agent, seq<Agent>> := if r.planner && r.content then map[Content := [Planner]] else map[];
    var m1 := if r.visualAid then m0[VisualAid := onContent] else m0;
    assert PlanDependencies(r) == if r.assessment then m1[Assessment := onContent] else m1;
    if a == Content {
      assert r.planner && r.content && d == Planner;
    } else if a == VisualAid || a == Assessment {
      assert d in onContent;
    } else {
      assert false;
    }
  }

  /** Two ascending runs, the first wholly below the second, make an ascending run. */
  lemma AscendingConcat(xs: seq<Agent>, ys: seq<Agent>)
    requires InPlanOrder(xs) && InPlanOrder(ys)
    requires forall x, y :: x in xs && y in ys ==> PlanRank(x) < PlanRank(y)
    ensures InPlanOrder(xs + ys)
  {
    var zs := xs + ys;
    forall i, j | 0 <= i < j < |zs| ensures PlanRank(zs[i]) < PlanRank(zs[j])
    {
      if j < |xs| {
        assert zs[i] == xs[i] && zs[j] == xs[j];
      } else if i < |xs| {
        assert zs[i] in xs && zs[j] in ys;
      } else {
        assert zs[i] == ys[i - |xs|] && zs[j] == ys[j - |xs|];
      }
    }
  }

  /** In an ascending sequence, an agent of lower rank comes first. */
  lemma Before(s: seq<Agent>, d: Agent, a: Agent)
    requires InPlanOrder(s) && d in s && a in s && PlanRank(d) < PlanRank(a)
    ensures RunsBefore(s, d, a)
  {
    var i := IndexOf(s, d);
    var j := IndexOf(s, a);
    assert i < j && s[i] == d && s[j] == a;
  }

  /** A position at which `x` occurs in `xs`. */
  function IndexOf<T(==)>(xs: seq<T>, x: T): (i: nat)
    requires x in xs
    ensures i < |xs| && xs[i] == x
  {
    if xs[0] == x then 0 else 1 + IndexOf(xs[1..], x)
  }

  /**
   * The plan runs exactly the agents `_determine_required_agents` lists,
   * and the two orders agree except that visual aids move ahead of
   * assessment.
   */
  lemma PlanRunsRequiredAgents(req: OrchestrationRequest, plan: WorkflowPlan)
    requires SoundPlan(AgentRequirements(req), AssessComplexity(req), plan)
    ensures var p := plan.agentSequence;
      RequiredAgents(req) == if VisualAid in p && Assessment in p then p[..|p| - 2] + [Assessment, VisualAid] else p
  {
    var r := AgentRequirements(req);
    SoundPlanSequence(r, AssessComplexity(req), plan);
    ListOrderSwapsLastTwo(r);
    assert VisualAid in plan.agentSequence <==> r.visualAid;
    assert Assessment in plan.agentSequence <==> r.assessment;
  }

  /** The agents of `r` in plan order. */
  function PlanOrder(r: Requirements): seq<Agent>
  {
    Opt(r.planner, Planner) + Opt(r.content, Content) + (Opt(r.visualAid, VisualAid) + Opt(r.assessment, Assessment))
  }

  /** A sound plan's sequence is determined by the requirements. */
  lemma SoundPlanSequence(r: Requirements, complexity: Complexity, plan: WorkflowPlan)
    requires SoundPlan(r, complexity, plan)
    ensures plan.agentSequence == PlanOrder(r)
  {
    PlanSequenceMembers(r, PlanOrder(r));
    PlanSequenceOrdered(r, PlanOrder(r));
    OrderedUnique(plan.agentSequence, PlanOrder(r));
  }

  /** `_determine_required_agents` lists the plan's agents with the last two swapped when both visual aids and assessment run. */
  lemma ListOrderSwapsLastTwo(r: Requirements)
    ensures RequiredAgentsOf(r) ==
      if r.visualAid && r.assessment then PlanOrder(r)[..|PlanOrder(r)| - 2] + [Assessment, VisualAid] else PlanOrder(r)
  {
    var front := Opt(r.planner, Planner) + Opt(r.content, Content);
    var p := PlanOrder(r);
    var av := Opt(r.assessment, Assessment) + Opt(r.visualAid, VisualAid);
    var va := Opt(r.visualAid, VisualAid) + Opt(r.assessment, Assessment);
    assert RequiredAgentsOf(r) == front + av;
    assert p == front + va;
    if r.visualAid && r.assessment {
      assert va == [VisualAid, Assessment] && av == [Assessment, VisualAid];
      assert p[..|p| - 2] == front by {
        assert |va| == 2;
      }
    } else {
      assert av == va;
    }
  }

  /** Two plan-ordered sequences with the same agents are the same sequence. */
  lemma {:induction false} OrderedUnique(p: seq<Agent>, q: seq<Agent>)
    requires InPlanOrder(p) && InPlanOrder(q)
    requires forall a :: a in p <==> a in q
    ensures p == q
    decreases |p|
  {
    if p == [] {
      if q != [] {
        HasMember(q);
      }
    } else {
      assert p[0] in q;
      var j := IndexOf(q, p[0]);
      var i := IndexOf(p, q[0]);
      FirstIsLeast(q, j);
      FirstIsLeast(p, i);
      assert p[0] == q[0];
      OrderedTail(p);
      OrderedTail(q);
      OrderedUnique(p[1..], q[1..]);
      assert p == [p[0]] + p[1..];
      assert q == [q[0]] + q[1..];
    }
  }

  /** A non-empty sequence has a member. */
  lemma HasMember(q: seq<Agent>)
    requires q != []
    ensures exists a :: a in q
  {
    assert q[0] in q;
  }

  /** The head of a plan-ordered sequence has the least rank. */
  lemma FirstIsLeast(p: seq<Agent>, i: nat)
    requires InPlanOrder(p) && i < |p|
    ensures PlanRank(p[0]) <= PlanRank(p[i])
  {
    if i > 0 {
      assert PlanRank(p[0]) < PlanRank(p[i]);
    }
  }

  /** Dropping the head of a plan-ordered sequence leaves a plan-ordered sequence of the other agents. */
  lemma OrderedTail(p: seq<Agent>)
    requires InPlanOrder(p) && p != []
    ensures InPlanOrder(p[1..])
    ensures forall a :: a in p[1..] <==> a in p && a != p[0]
  {
    forall a | a in p && a != p[0] ensures a in p[1..]
    {
      var k := IndexOf(p, a);
      assert p[1..][k - 1] == a;
    }
    forall a | a in p[1..] ensures a != p[0]
    {
      var k := IndexOf(p[1..], a);
      assert p[k + 1] == a;
    }
  }

  /** The quality metrics `_assess_result_quality` computes. */
  datatype QualityMetrics = QualityMetrics(completeness: real, coherence: real, alignment: real, overall: real)

  /** The result components a request expects, for the completeness metric. */
  function ExpectedComponents(req: OrchestrationRequest): (keys: seq<string>)
    ensures |keys| <= 4
  {
    (if CoversPlanning(req.workflowType) then ["lesson_plan"] else [])
    + (if CoversContent(req.workflowType) then ["content"] else [])
    + (if req.assessmentRequired then ["assessment"] else [])
    + (if req.includeVisualAids then ["visual_aids"] else [])
  }

  /** How many of `keys` the result holds a truthy value for. */
  function CountPresent(result: Record, keys: seq<string>): (n: nat)
    ensures n <= |keys|
    ensures n == |keys| <==> forall k :: k in keys ==> Truthy(Get(result, k, Null))
  {
    if keys == [] then 0
    else CountPresent(result, keys[..|keys| - 1]) + (if Truthy(Get(result, keys[|keys| - 1], Null)) then 1 else 0)
  }

  /**
   * `_assess_result_quality`: completeness is the share of expected
   * components present (one when none is expected); coherence and
   * alignment are fixed, so the overall score lies between 0.495 and
   * 0.895 and exceeds 0.8 exactly when completeness exceeds 0.7625.
   */
  function AssessResultQuality(result: Record, req: OrchestrationRequest): (q: QualityMetrics)
    ensures 0.0 <= q.completeness <= 1.0
    ensures q.completeness == 1.0 <==> forall k :: k in ExpectedComponents(req) ==> Truthy(Get(result, k, Null))
    ensures q.coherence == 0.8 && q.alignment == 0.85
    ensures 0.495 <= q.overall <= 0.895
    ensures q.overall > 0.8 <==> q.completeness > 0.7625
  {
    var expected := ExpectedComponents(req);
    var completed := CountPresent(result, expected);
    var completeness := if expected == [] then 1.0 else Ratio(completed, |expected|);
    QualityMetrics(completeness, 0.8, 0.85, completeness * 0.4 + 0.8 * 0.3 + 0.85 * 0.3)
  }

  /** `n / d` for `n <= d`: a ratio between zero and one, one exactly when `n == d`. */
  function Ratio(n: nat, d: nat): (q: real)
    requires 0 < d && n <= d
    ensures 0.0 <= q <= 1.0
    ensures q == 1.0 <==> n == d
  {
    var q := (n as real) / (d as real);
    assert q * (d as real) == n as real;
    q
  }

  /**
   * `_calculate_confidence`, in hundredths: 70, plus 15 when ADK is
   * enabled, 10 when the quality assessment scores above 0.8, and 5 when
   * the result carries no error, capped at 100.
   */
  function CalculateConfidence(adkEnabled: bool, quality: Option<QualityMetrics>, hasError: bool): (c: nat)
    ensures 70 <= c <= 100
    ensures c == 100 <==> adkEnabled && quality.Some? && quality.value.overall > 0.8 && !hasError
    ensures c == 70 <==> !adkEnabled && !(quality.Some? && quality.value.overall > 0.8) && hasError
  {
    CapAtOne(70
      + (if adkEnabled then 15 else 0)
      + (if quality.Some? && quality.value.overall > 0.8 then 10 else 0)
      + (if !hasError then 5 else 0))
  }

  /** Even the lowest orchestration confidence is above the fallback's. */
  lemma FallbackConfidenceIsLowest(adkEnabled: bool, quality: Option<QualityMetrics>, hasError: bool, req: OrchestrationRequest, error: string)
    ensures FallbackResponse(req, error).confidence < CalculateConfidence(adkEnabled, quality, hasError)
  {
  }

  const ReviewAlignment := "Review generated content for curriculum alignment"
  const TestWithAudience := "Test workflow with target audience"
  const EnsureCohesion := "Ensure all components work together cohesively"
  const ConsiderVisuals := "Consider adding visual aids for better engagement"
  const AddAssessment := "Add assessment components to measure learning outcomes"

  /** The workflow-specific recommendation of the `elif` chain, if any. */
  function WorkflowRecommendation(req: OrchestrationRequest): (r: seq<string>)
    ensures |r| <= 1
    ensures r == [EnsureCohesion] <==> req.workflowType == "complete"
    ensures r == [ConsiderVisuals] <==> req.workflowType == "content_only"
    ensures r == [AddAssessment] <==> req.workflowType !in {"complete", "content_only"} && !req.assessmentRequired
    ensures r == [] <==> req.workflowType !in {"complete", "content_only"} && req.assessmentRequired
  {
    if req.workflowType == "complete" then [EnsureCohesion]
    else if req.workflowType == "content_only" then [ConsiderVisuals]
    else if !req.assessmentRequired then [AddAssessment]
    else []
  }

  /**
   * `_generate_recommendations`: the two base items, at most one
   * workflow-specific item, then as much of the list the reasoning engine
   * returned as fits in five (`adk` is `None` when the engine is
   * unavailable, failed or returned something other than a list).
   */
  function GenerateRecommendations(req: OrchestrationRequest, adk: Option<seq<string>>): (r: seq<string>)
    ensures 2 + |WorkflowRecommendation(req)| <= |r| <= 5
    ensures r[..2 + |WorkflowRecommendation(req)|] == [ReviewAlignment, TestWithAudience] + WorkflowRecommendation(req)
    ensures adk.None? ==> |r| == 2 + |WorkflowRecommendation(req)|
    ensures adk.Some? ==> r[2 + |WorkflowRecommendation(req)|..] == Take(adk.value, 3 - |WorkflowRecommendation(req)|)
  {
    TopFive([ReviewAlignment, TestWithAudience] + WorkflowRecommendation(req), adk)
  }

  const ReviewPlan := "Review and customize lesson plan"
  const PrepareContent := "Prepare content materials for delivery"
  const SetUpAssessment := "Set up assessment environment"
  const IntegrateVisuals := "Integrate visual aids into lesson"
  const TestWorkflow := "Test complete workflow before implementation"

  /**
   * `_generate_next_steps`: one step per component the result holds,
   * in a fixed order, always ending with testing the whole workflow.
   */
  function GenerateNextSteps(result: Record): (steps: seq<string>)
    ensures 1 <= |steps| <= 5
    ensures steps[|steps| - 1] == TestWorkflow
    ensures ReviewPlan in steps <==> Truthy(Get(result, "lesson_plan", Null))
    ensures PrepareContent in steps <==> Truthy(Get(result, "content", Null))
    ensures SetUpAssessment in steps <==> Truthy(Get(result, "assessment", Null))
    ensures IntegrateVisuals in steps <==> Truthy(Get(result, "visual_aids", Null))
  {
    (if Truthy(Get(result, "lesson_plan", Null)) then [ReviewPlan] else [])
    + (if Truthy(Get(result, "content", Null)) then [PrepareContent] else [])
    + (if Truthy(Get(result, "assessment", Null)) then [SetUpAssessment] else [])
    + (if Truthy(Get(result, "visual_aids", Null)) then [IntegrateVisuals] else [])
    + [TestWorkflow]
  }

  /** The `OrchestrationResponse` fields the fallback fills; confidence in hundredths. */
  datatype OrchestrationResponse = OrchestrationResponse(
    orchestrationResult: Record,
    workflowMetadata: Record,
    agentResults: Record,
    recommendations: seq<string>,
    nextSteps: seq<string>,
    confidence: nat)

  /**
   * `_generate_fallback_response`: a basic lesson plan and content built
   * from the request alone, the error recorded twice, no agent results,
   * one recommendation, two next steps and a confidence of 0.3.
   */
  function FallbackResponse(req: OrchestrationRequest, error: string): (resp: OrchestrationResponse)
    ensures resp.orchestrationResult.Keys == {"lesson_plan", "content", "status", "error"}
    ensures resp.orchestrationResult["error"] == Str(error) && resp.orchestrationResult["status"] == Str("fallback_mode")
    ensures resp.orchestrationResult["lesson_plan"].Obj? && resp.orchestrationResult["content"].Obj?
    ensures Get(resp.orchestrationResult["lesson_plan"].fields, "title", Null) == Str("Basic Lesson: " + req.topic)
    ensures Get(resp.orchestrationResult["lesson_plan"].fields, "topic", Null) == Str(req.topic)
    ensures Get(resp.orchestrationResult["content"].fields, "topic", Null) == Str(req.topic)
    ensures resp.workflowMetadata == map["fallback_mode" := Bool(true), "error" := Str(error)]
    ensures resp.agentResults == map[]
    ensures |resp.recommendations| == 1 && |resp.nextSteps| == 2
    ensures resp.confidence == 30
  {
    var lessonPlan := map[
      "title" := Str("Basic Lesson: " + req.topic),
      "topic" := Str(req.topic),
      "grade_level" := Str(req.gradeLevel),
      "status" := Str("fallback_generated")];
    var content := map[
      "topic" := Str(req.topic),
      "materials" := StrList(["Basic materials"]),
      "status" := Str("fallback_generated")];
    OrchestrationResponse(
      map["lesson_plan" := Obj(lessonPlan), "content" := Obj(content), "status" := Str("fallback_mode"), "error" := Str(error)],
      map["fallback_mode" := Bool(true), "error" := Str(error)],
      map[],
      ["Review and enhance manually"],
      ["Add missing components", "Test thoroughly"],
      30)
  }
}
