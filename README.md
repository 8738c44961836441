# Lesson generation backend, modelled in Dafny

This project models the core of an education backend. Teachers send short
requests, such as a lesson on fractions for grade 4. The backend turns each
request into structured artifacts: lesson plans, stories, quizzes, visual
aids and voice replies. It gets them from a generative model, falls back to
fixed templates when the model fails, and stores the results in a document
store.

The model covers these parts:

- **The lesson pipeline** (`lesson_pipeline.dfy`). This is the step table,
  filtered by the request. It includes:
  - the dependency resolution loop, with the aliasing of its no-ready
    fallback;
  - the sequential execution of steps with the required/optional failure
    policy;
  - the per-step context;
  - the processing of step results into the response record, and the
    success rate, recommendations, next steps and error response.
- **The five agents** (orchestrator, planner, content, assessment, visual
  aid). These cover complexity and duration estimates, workflow planning,
  result quality, confidence in integer hundredths, recommendations, next
  steps and the fallback responses.
- **The services:**
  - activities: stories, AR scenes and badges;
  - lesson planning;
  - visual aids;
  - assessment: quiz difficulty;
  - the in-memory voice session store;
  - the teacher dashboard;
  - the diagram image generator.
- **The data-access layer.** Usage statistics and analytics of the
  assessment, planning, content, voice and visual aid collections; the
  error-handling decorators; the Firestore serializer.
- **The request validators and handlers of the education, planning, visual
  aid and voice routes**, together with the way their `except` clauses turn
  exceptions into HTTP responses.

The modules follow the source files one to one. There are also a few shared
modules:

- `Wrappers`: `Option` and `Result`;
- `Text`: the Python string methods the code relies on, such as `strip`,
  `split`, `lower` and `title`;
- `Values`: the dictionary values the code passes around, with Python
  truthiness;
- `AgentPolicy`, `RequestFields`, `UsageStats` and `RouteErrors`: rules that
  several source files share.

External parts become parameters of the model:

- Every call to the generative model, the agent engine, speech synthesis or
  transcription is an oracle argument. It either returns text or fails.
- `json.loads` is a decoder argument. It yields a field map or fails.
- Each document store collection is a `map` held by a class. A store
  failure is an argument: a flag that says whether a write succeeds, or,
  for the badge store, the message of the exception a read or a write
  raises. The visual-aid store's own methods cannot fail; the visual-aid
  service takes the flag and calls the store only when the write succeeds.
- The clock and fresh identifiers are arguments.

Each operation models the code as written, defects included. Where a
defect is listed under "## Findings", a twin whose name ends in `Fixed`
(or a separately named function) models the evidently intended behaviour,
and lemmas relate the two.

## Model

| member | source | states |
|---|---|---|
| LessonPipeline.PipelineSteps | orchestrator/lesson_pipeline.py:71-123 | only "complete", "planning_only" and "content_only" have stage tables; the complete table is planning then content_generation, and the single-stage tables are required with no dependencies |
| LessonPipeline.FilterSteps | orchestrator/lesson_pipeline.py:190-197 | a stage stays exactly when it is not visual_aids with visual aids off and not assessment_creation with assessment off; nothing is added |
| LessonPipeline.FilterCompleteTable | orchestrator/lesson_pipeline.py:186-197 | on the complete table, filtering yields planning, content_generation, then visual_aids iff include_visual_aids and assessment_creation iff assessment_required, in table order |
| LessonPipeline.UniqueNames | orchestrator/lesson_pipeline.py:235-237 | `list(step_map.keys())`: every step name once, in order of first appearance |
| LessonPipeline.DepsMap | orchestrator/lesson_pipeline.py:235-244 | `step_map` has exactly the names of the steps (a later step of the same name replaces an earlier one) |
| LessonPipeline.Ready | orchestrator/lesson_pipeline.py:241-246 | the names of `remaining` whose dependencies are all resolved, in their input order |
| LessonPipeline.ReadyMembers | orchestrator/lesson_pipeline.py:241-246 | a name is in the ready list iff it remains and all its dependencies are resolved |
| LessonPipeline.Evens | orchestrator/lesson_pipeline.py:248-256 | the names the aliased fallback round takes: those at even positions |
| LessonPipeline.Odds | orchestrator/lesson_pipeline.py:248-256 | the names the aliased fallback round leaves for the next round: those at odd positions |
| LessonPipeline.ResolveStepDependencies | orchestrator/lesson_pipeline.py:233-258 | the round loop returns exactly the reference order `ResolveOrder` (ready names appended in input order; with none ready, every other name) |
| LessonPipeline.Resolve | orchestrator/lesson_pipeline.py:239-258 | the names already resolved stay, in order, at the front of the final order |
| LessonPipeline.ScanReady | orchestrator/lesson_pipeline.py:241-246 | the scanning loop collects exactly `Ready` of the remaining names |
| LessonPipeline.TakeAliased | orchestrator/lesson_pipeline.py:248-256 | with `ready_steps = remaining`, removing while iterating appends the even-position names and leaves the odd-position ones |
| LessonPipeline.TakeReady | orchestrator/lesson_pipeline.py:253-256 | a round with ready names appends them in order and leaves exactly the blocked names, still distinct |
| LessonPipeline.ResolvePermutes | orchestrator/lesson_pipeline.py:239-258 | each round moves names from remaining to resolved: the output is resolved followed by a permutation of remaining |
| LessonPipeline.ResolveOrderIsPermutation | orchestrator/lesson_pipeline.py:233-258 | the execution order contains every distinct step name exactly once, and no other name |
| LessonPipeline.ResolveOrderRespectsDependencies | orchestrator/lesson_pipeline.py:239-256 | when dependencies name only steps of the run and are acyclic, every step comes after all of its dependencies |
| LessonPipeline.SomeReady | orchestrator/lesson_pipeline.py:240-248 | in an acyclic closed dependency graph some remaining step is always ready, so the fallback never fires |
| LessonPipeline.AliasedFallbackSkipsEveryOther | orchestrator/lesson_pipeline.py:248-256 | three steps blocked on a missing dependency resolve as a, c, b: the first round takes every other name |
| LessonPipeline.CompleteTableOrder | orchestrator/lesson_pipeline.py:233-258 | the full complete table runs as planning, content_generation, visual_aids, assessment_creation |
| LessonPipeline.PreparePipelineContext | orchestrator/lesson_pipeline.py:160-180 | the run context has exactly the pipeline id, the request's teacher, class, topic, grade, duration, standards, objectives, student data and preferences, and a pipeline_config holding the two flags and the lesson type |
| LessonPipeline.Assign | orchestrator/lesson_pipeline.py:213-222 | `results[name] = value` replaces an existing entry in place or appends a new one, and the name then maps to the value |
| LessonPipeline.DependencyResults | orchestrator/lesson_pipeline.py:265-268 | the entries added for dependencies are `<dep>_result` keys only |
| LessonPipeline.DependencyResultsHas | orchestrator/lesson_pipeline.py:266-268 | each dependency that already has a result appears under `<dep>_result` with that result |
| LessonPipeline.DependencyResultsOnly | orchestrator/lesson_pipeline.py:266-268 | every added entry is the `<dep>_result` key of a dependency that already has a result |
| LessonPipeline.StageEntries | orchestrator/lesson_pipeline.py:270-297 | content_generation gets lesson_plan and content_type "lesson" only with a planning result; visual_aids gets infographic/explanation; assessment_creation gets quiz and 10 questions; topic is rewritten with itself |
| LessonPipeline.PrepareStepContext | orchestrator/lesson_pipeline.py:260-299 | the stage context keeps every key of the base context (it is built on a copy, never mutating the base) |
| LessonPipeline.StepContextEntries | orchestrator/lesson_pipeline.py:260-299 | base entries are unchanged unless overwritten by a stage key or a dependency result; topic is unchanged; every new key is a stage key or a `<dep>_result` of a dependency that ran; the fixed stage values are set |
| LessonPipeline.DependencyResultsPassedOn | orchestrator/lesson_pipeline.py:266-268 | each dependency that already ran is passed on under `<dep>_result` with its result |
| LessonPipeline.ConfigOf | orchestrator/lesson_pipeline.py:204 | the config used for a name is an active step of that name (the first one) |
| LessonPipeline.RunStepsCompleted | orchestrator/lesson_pipeline.py:203-222 | a completed loop records one entry per stage of the order, in order, each the handler's result on the context built from the entries before it, or `{"error", "status": "failed"}` for an optional stage that raised |
| LessonPipeline.RunStepsAborted | orchestrator/lesson_pipeline.py:217-220 | an aborted loop was aborted by a required stage that raised exactly that error |
| LessonPipeline.RunSteps | orchestrator/lesson_pipeline.py:203-222 | the loop aborts only when some stage of the order is required; a completed loop keeps at least the entries it started with |
| LessonPipeline.Workflow | orchestrator/lesson_pipeline.py:182-231 | an unknown lesson type raises "Unknown lesson type: …"; any other failure needs a required stage among the filtered stages |
| LessonPipeline.ExecuteWorkflow | orchestrator/lesson_pipeline.py:182-231 | the method computes exactly the reference workflow: unknown lesson type raises, then filter, resolve, and the stage loop |
| LessonPipeline.WorkflowExecutesOrder | orchestrator/lesson_pipeline.py:224-231 | a completed workflow's steps_executed equals its execution order, and total_steps is the number of active steps |
| LessonPipeline.UnknownLessonTypeRaises | orchestrator/lesson_pipeline.py:186-188 | a lesson type without a table (e.g. assessment_only) raises "Unknown lesson type: …" before any stage runs |
| LessonPipeline.ProcessWorkflowResult | orchestrator/lesson_pipeline.py:335-361 | lesson_plan/content default to {}; assessment is set only when its step ran and assessment is required; visual aids are the visual step's visual_content (default []) only when the step ran and visual aids are on, else None |
| LessonPipeline.ProcessWorkflowResultFixed | orchestrator/lesson_pipeline.py:358-359 | as `ProcessWorkflowResult`, with a visual_content dict wrapped into a one-element list |
| LessonPipeline.VisualAidsList | orchestrator/lesson_pipeline.py:48 | a single visual-content dict becomes a one-element list, any other value is kept |
| LessonPipeline.AsOptionalDictList | orchestrator/lesson_pipeline.py:48 | the response field `Optional[List[Dict]]` accepts None or a list of dicts only; a dict is rejected |
| LessonPipeline.CountSuccessful | orchestrator/lesson_pipeline.py:458 | counts the results without a truthy "error"; all results count iff none has one |
| LessonPipeline.SuccessRate | orchestrator/lesson_pipeline.py:452-461 | 0 with no results, otherwise successful/total, always in [0,1], and 1 iff no result has a truthy error |
| LessonPipeline.ConditionalRecommendations | orchestrator/lesson_pipeline.py:406-422 | each conditional recommendation is present iff its condition holds (lesson plan truthy, content truthy, visual aids wanted but missing, assessment required but missing) |
| LessonPipeline.PipelineRecommendations | orchestrator/lesson_pipeline.py:404-430 | at most 5 items, the conditional ones first and in order; the pilot test always survives the cut; the feedback item survives iff fewer than four conditional items |
| LessonPipeline.PipelineNextSteps | orchestrator/lesson_pipeline.py:432-450 | 4 to 6 items: the two fixed first items, the visual-aids step iff visual aids are truthy, the assessment step iff assessment is truthy, then the two fixed last items |
| LessonPipeline.ComponentsOf | orchestrator/lesson_pipeline.py:377-382 | each components_generated flag is the truthiness of its field |
| LessonPipeline.CreatePipelineResponse | orchestrator/lesson_pipeline.py:363-402 | the response validates iff lesson_plan/content are dicts, assessment is None or a dict and visual aids None or a list of dicts; then steps_executed are the result keys, success rate and components are as above, ≤5 recommendations and 4..6 next steps |
| LessonPipeline.ErrorResponse | orchestrator/lesson_pipeline.py:493-519 | empty steps_executed, success rate 0, all components false, failed lesson plan and content records, no assessment and no visual aids |
| LessonPipeline.VisualContentDictRejected | orchestrator/lesson_pipeline.py:335-402 | as written, a visual stage whose visual_content is a dict makes the response model reject visual_aids |
| LessonPipeline.FixedResponseValidates | orchestrator/lesson_pipeline.py:335-402 | with the visual content wrapped, results shaped like the four handlers' always produce a valid response |
| LessonPipeline.ExecutePipeline | orchestrator/lesson_pipeline.py:131-158 | as written: returns the reference outcome, so a workflow error or a response that fails validation (among them a visual stage that returned its dict) yields the error response |
| LessonPipeline.PipelineOutcome | orchestrator/lesson_pipeline.py:131-158 | as written: a workflow error gives the error response carrying that error; a non-zero success rate only after a completed workflow |
| LessonPipeline.PipelineOutcomeFixed | orchestrator/lesson_pipeline.py:131-158 | the same outcome with the visual content wrapped into a list: a workflow error gives the error response; a non-zero success rate only after a completed workflow |
| LessonPipeline.VisualStageEndsInErrorResponse | orchestrator/lesson_pipeline.py:131-158 | as written, a completed run whose visual stage returned its visual_content dict ends in the validation error response |
| LessonPipeline.RunWithoutVisualStageSucceeds | orchestrator/lesson_pipeline.py:131-158 | as written, a completed run without a visual result reports every executed stage and its success rate |
| LessonPipeline.FixedPipelineSucceeds | orchestrator/lesson_pipeline.py:131-158 | with the visual content wrapped, every completed run of handler-shaped results reports every executed stage and its success rate |
| LessonPipeline.RequiredFailureGivesErrorResponse | orchestrator/lesson_pipeline.py:217-220 | a required stage that raises ends the run in the error response with no steps executed, success rate 0, no components, and that stage's error |
| OrchestratorAgent.AssessComplexity | agents/orchestrator_agent.py:199-221 | "complex" iff the workflow is complete with more than three objectives and non-empty student data; a complete workflow is never "simple"; content_only/assessment_only is "simple" iff neither extra applies; any other type iff not both apply |
| OrchestratorAgent.EstimateDuration | agents/orchestrator_agent.py:223-238 | always 30..125 seconds; 125 iff complete with visual aids and assessment; 30 iff an unlisted workflow type with neither flag |
| OrchestratorAgent.DurationFlagIncrements | agents/orchestrator_agent.py:232-236 | turning visual aids on adds exactly 20 and turning assessment on adds exactly 15, whatever else is requested |
| OrchestratorAgent.RequiredAgents | agents/orchestrator_agent.py:240-256 | exactly the agents whose requirement flag holds, in planner, content, assessment, visual_aid order, without repeats |
| OrchestratorAgent.PlanWorkflow | agents/orchestrator_agent.py:258-297 | the plan is sequential, runs exactly the required agents in planner, content, visual_aid, assessment order; content depends on [planner] only when both run; visual_aid and assessment depend on [content] iff content runs, else []; every dependency runs earlier; fast_mode iff simple, quality_mode iff complex |
| OrchestratorAgent.PlanRunsRequiredAgents | agents/orchestrator_agent.py:240-297 | the plan's sequence is the required-agents list except that visual_aid moves ahead of assessment when both run |
| OrchestratorAgent.AssessResultQuality | agents/orchestrator_agent.py:389-422 | completeness is the share of expected components present (1 when none expected) and is 1 iff all are present; coherence 0.8, alignment 0.85; overall in [0.495, 0.895], above 0.8 iff completeness above 0.7625 |
| OrchestratorAgent.CountPresent | agents/orchestrator_agent.py:403-406 | counts the expected components with a truthy value; all count iff all are truthy |
| OrchestratorAgent.CalculateConfidence | agents/orchestrator_agent.py:452-460 | 70 + 15·adk + 10·[overall > 0.8] + 5·[no error], capped at 100 hundredths: always in [70,100], 100 iff all three bonuses apply, 70 iff none does |
| OrchestratorAgent.FallbackConfidenceIsLowest | agents/orchestrator_agent.py:452-460 | the fallback's 30 is below every confidence a normal run can report |
| OrchestratorAgent.WorkflowRecommendation | agents/orchestrator_agent.py:430-437 | the elif chain: the cohesion item iff complete, the visuals item iff content_only, the assessment item iff another type without assessment, nothing otherwise |
| OrchestratorAgent.GenerateRecommendations | agents/orchestrator_agent.py:424-450 | 2 + (0 or 1) to 5 items: the two fixed base items, the workflow item, then the ADK list cut to fit five; without a usable ADK list nothing else |
| OrchestratorAgent.GenerateNextSteps | agents/orchestrator_agent.py:462-476 | 1..5 items, one per truthy component (lesson_plan, content, assessment, visual_aids) and always ending with "Test complete workflow before implementation" |
| OrchestratorAgent.FallbackResponse | agents/orchestrator_agent.py:507-548 | a basic lesson plan and content built from the request's topic, status "fallback_mode", the error recorded in result and metadata, no agent results, one recommendation, two next steps, confidence 30 hundredths |
| AgentPolicy.TopFive | agents/planner_agent.py:203-217 | at most 5 items; the fixed base items come first as far as they fit; without an engine list the result is the base cut to five, with one the engine items fill the rest in order |
| AgentPolicy.WithEngineAnswer | agents/assessment_agent.py:239-257 | `_enhance_rubric_with_adk`, and likewise `_optimize_design_with_adk` (agents/visual_aid_agent.py:322-341): with an engine that answers, the dict gains exactly the `adk_enhancement` (respectively `adk_optimization`) entry and keeps every other entry; otherwise it is unchanged |
| AgentPolicy.CapAtOne | agents/planner_agent.py:225 | `min(score, 1.0)` in hundredths: never above 100, and unchanged iff the score is at most 100 |
| PlannerAgent.AnalyzePlanningContext | agents/planner_agent.py:148-179 | student_insights exist iff student_data is truthy, with total_students = len(students) (default []) and the three other fields defaulted; a students value without a length raises; the engine analysis is attached iff ADK is enabled with an engine, or the failure marker when it raised |
| PlannerAgent.PersonalizeWithAdk | agents/planner_agent.py:181-200 | only personalization_details is set on the plan; without an engine it is {"status":"adk_unavailable","fallback":True}; otherwise the engine's reply, or the failure marker when it raised |
| PlannerAgent.GenerateRecommendations | agents/planner_agent.py:202-217 | 2..5 items starting with "Review objectives", "Include interactive elements"; only those two without a usable engine reply; an engine list fills the remaining three places |
| PlannerAgent.CalculateConfidence | agents/planner_agent.py:219-225 | min(70 + 20·adk + 10·[student insights], 100) hundredths: in [70,100], 100 iff both bonuses, 70 iff neither |
| PlannerAgent.FallbackLessonCount | agents/planner_agent.py:260 | `min(duration, 5)` lessons: at most 5, exactly the duration for 1..5, none for a non-positive duration |
| PlannerAgent.FallbackResponse | agents/planner_agent.py:259-267 | the plan holds only "lessons", lesson i being day i+1 titled "Lesson i+1"; the error is recorded; one recommendation, one next step, confidence 40 hundredths |
| PlannerAgent.HandlePlanningRequest | agents/planner_agent.py:96-146 | the fallback is returned iff the context analysis or plan generation raised; otherwise the three fixed next steps, confidence 70..100, recommendations starting with the base pair, every generated key kept, and personalization_details present iff ADK is enabled or the plan already had it |
| PlannerAgent.FallbackLessConfident | agents/planner_agent.py:259-267 | a response is the fallback iff its confidence is below 70 hundredths |
| ContentAgent.MultimediaSuggestions | agents/content_agent.py:216-239 | always begins with the three fixed suggestions (diagram for the topic, 3-5 minute video, practice exercise); the engine's items are appended only when its reply is a list |
| ContentAgent.EnhanceWithAdk | agents/content_agent.py:187-214 | only adk_enhancement and possibly multimedia_elements change; without an engine the content is marked adk_unavailable, a raising engine leaves the failure marker, otherwise the reply is recorded and multimedia_elements are added exactly for multimedia/interactive formats |
| ContentAgent.TypeRecommendation | agents/content_agent.py:250-255 | one extra recommendation iff the content type is quiz, presentation or worksheet |
| ContentAgent.GenerateRecommendations | agents/content_agent.py:241-267 | the two base items, then the type item; without a usable engine or when the call raises nothing else; a list reply's string items fill the remaining places up to 5 |
| ContentAgent.CalculateConfidence | agents/content_agent.py:269-275 | min(75 + 15·adk + 10·[learning_objectives truthy], 100) hundredths: in [75,100], 100 iff both bonuses, 75 iff neither |
| ContentAgent.GenerateNextSteps | agents/content_agent.py:277-288 | 2..4 items: the two base items, "Gather multimedia resources" iff the format is multimedia, "Set up assessment rubrics" iff the type is quiz, and that one last |
| ContentAgent.FallbackResponse | agents/content_agent.py:321-351 | content echoing the request's type, topic and duration with status "fallback_generated", the error recorded, one recommendation, two next steps, confidence 40 hundredths |
| ContentAgent.HandleContentRequest | agents/content_agent.py:96-150 | the fallback with the error iff generation raised; otherwise the next steps above, confidence ≥75, every generated key kept, adk_enhancement present iff ADK is enabled (or already present) |
| AssessmentAgent.AdaptiveFeatures | agents/assessment_agent.py:259-281 | the three base features are always present; a dict reply adds its entries and wins on shared keys; otherwise the base features are kept unchanged |
| AssessmentAgent.EnhanceWithAdk | agents/assessment_agent.py:209-237 | only adk_enhancement and adaptive_features change; without an engine the unavailable marker, a raising call the failed marker, otherwise the reply, plus adaptive features for adaptive requests |
| AssessmentAgent.TypeRecommendation | agents/assessment_agent.py:291-296 | at most one item, chosen by the elif chain |
| AssessmentAgent.TypeRecommendationCases | agents/assessment_agent.py:291-296 | quiz item iff quiz, milestones item iff project, adaptive-logic item iff neither and adaptive, nothing iff neither and not adaptive |
| AssessmentAgent.GenerateRecommendations | agents/assessment_agent.py:283-309 | the two fixed items and the type item come first; at most 5; no engine items without a usable engine or when the call raises; a list reply's string items fill the remaining places |
| AssessmentAgent.CalculateConfidence | agents/assessment_agent.py:311-317 | in [80,100] hundredths; 100 iff ADK is enabled and there are at least five questions; undefined exactly when len of a truthy questions value raises |
| AssessmentAgent.GenerateNextSteps | agents/assessment_agent.py:319-332 | 3..5 steps, finalise and delivery first, pilot test last |
| AssessmentAgent.NextStepsCases | agents/assessment_agent.py:319-332 | the rubric step appears iff the type is assignment or project (not essay), the adaptive step iff the request is adaptive |
| AssessmentAgent.FallbackQuestionCount | agents/assessment_agent.py:371-374 | min(question_count, 5) questions, none when question_count is not positive |
| AssessmentAgent.FallbackResponse | agents/assessment_agent.py:367-400 | the fallback assessment: min(question_count, 5) questions, the echoed duration and status "fallback_generated"; no rubric, the error recorded, one recommendation, two next steps, confidence 40 hundredths |
| AssessmentAgent.FallbackAssessmentShape | agents/assessment_agent.py:368-377 | the fallback assessment has exactly title/type/questions/duration/status, questions numbered 1..n about the topic, status fallback_generated |
| AssessmentAgent.HandleAssessmentRequest | agents/assessment_agent.py:105-171 | the fallback iff generation raised, a needed rubric failed, or len of the questions raised; otherwise a rubric iff the type needs one, the question count, confidence in [80,100], the next steps, every generated field kept |
| AssessmentAgent.GeneratedResponse | agents/assessment_agent.py:132-165 | fails exactly when len of the questions raises; otherwise keeps every field, the rubric presence, the question count and confidence in [80,100] |
| AssessmentAgent.EnhancedAssessment | agents/assessment_agent.py:132-136 | keeps every field and the questions; adds adk_enhancement iff ADK is enabled |
| AssessmentAgent.FallbackLessConfident | agents/assessment_agent.py:105-171 | a response is the fallback iff its confidence is below 80 hundredths |
| VisualAidAgent.InfographicSectionsNegative | agents/visual_aid_agent.py:222-233 | as written, the section counts of infographics, charts and posters evaluate to -2, -1 and -2 |
| VisualAidAgent.LayoutSpecs | agents/visual_aid_agent.py:222-233 | every layout has exactly a structure and a section count (the as-written structure); an unknown type gets the flexible three-section layout, and only an unknown type does; any numeric section count is positive |
| VisualAidAgent.ColorPalette | agents/visual_aid_agent.py:235-251 | the scheme's three colours (unknown schemes fall back to vibrant), plus brightness iff the grade is listed: high for elementary/primary, moderate for high school/university |
| VisualAidAgent.UnknownSchemeIsVibrant | agents/visual_aid_agent.py:237-244 | every scheme outside the table gets exactly the vibrant palette |
| VisualAidAgent.FontSizesFor | agents/visual_aid_agent.py:256-260 | heading > body > caption > 0; unlisted grades get the elementary sizes |
| VisualAidAgent.FontSizesShrinkWithGrade | agents/visual_aid_agent.py:256-260 | elementary sizes exceed middle-school sizes, which exceed high-school sizes, in every field |
| VisualAidAgent.TypographySpecs | agents/visual_aid_agent.py:253-266 | the grade's sizes; medium weight iff the text amount is detailed, normal otherwise |
| VisualAidAgent.ImagerySpecs | agents/visual_aid_agent.py:268-276 | the style echoed; vector illustrations iff educational, outline icons iff minimal |
| VisualAidAgent.AccessibilitySpecs | agents/visual_aid_agent.py:278-290 | disabled gives only enabled=false; enabled adds the five requirements, alt text required |
| VisualAidAgent.InteractiveElements | agents/visual_aid_agent.py:343-363 | two elements iff the type is infographic, presentation or diagram, none otherwise |
| VisualAidAgent.AttachedElementsNonEmpty | agents/visual_aid_agent.py:311-314 | attached elements are always two; diagrams have elements but are never given them |
| VisualAidAgent.EnhanceWithAdk | agents/visual_aid_agent.py:292-320 | only adk_enhancement and interactive_elements change; unavailable without an engine, failed when the call raises, else the reply, plus interactive elements for presentations and infographics |
| VisualAidAgent.TypeRecommendation | agents/visual_aid_agent.py:372-377 | at most one item, chosen by the elif chain |
| VisualAidAgent.TypeRecommendationCases | agents/visual_aid_agent.py:372-377 | flow item iff infographic, labels item iff chart, accessibility item iff neither and accessibility requested, nothing otherwise |
| VisualAidAgent.GenerateRecommendations | agents/visual_aid_agent.py:365-391 | the two fixed items and the type item first; at most 5; no engine items without a usable engine or when the call raises; a list reply's string items fill the remaining places |
| VisualAidAgent.CalculateConfidence | agents/visual_aid_agent.py:393-399 | in [75,100] hundredths; 100 iff ADK and key concepts, 75 iff neither; undefined exactly when len of truthy key concepts raises |
| VisualAidAgent.GenerateNextSteps | agents/visual_aid_agent.py:401-414 | 3..5 steps, final design and export first, testing with students last |
| VisualAidAgent.NextStepsCases | agents/visual_aid_agent.py:406-410 | the alt-text step iff accessibility is requested, the interactive step iff the content has truthy interactive elements |
| VisualAidAgent.FallbackShape | agents/visual_aid_agent.py:449-463 | the fallback visual is marked fallback_generated; its design is simple and echoes the accessibility flag |
| VisualAidAgent.FallbackResponse | agents/visual_aid_agent.py:449-488 | the basic visual and design of the request, the error recorded, one recommendation, two next steps, confidence 40 hundredths |
| VisualAidAgent.EnhancedContent | agents/visual_aid_agent.py:125-128 | keeps every field and the key concepts; adds adk_enhancement iff ADK is enabled |
| VisualAidAgent.GeneratedResponse | agents/visual_aid_agent.py:125-160 | fails exactly when len of truthy key concepts raises; otherwise confidence in [75,100] and every generated field kept |
| VisualAidAgent.HandleVisualAidRequest | agents/visual_aid_agent.py:104-163 | as written (layout included): the fallback iff generation raised or len of the key concepts raised, and exactly when confidence is below 75 hundredths |
| VisualAidAgent.DesignSpecifications | agents/visual_aid_agent.py:210-220 | as written: exactly the five design keys; the layout is the as-written layout table and the typography follows grade and text amount |
| VisualAidAgent.DesignSpecificationsFixed | agents/visual_aid_agent.py:210-220 | the same keys and entries except the layout, whose section count is positive whenever it is a number |
| VisualAidAgent.InfographicDesignAsksNegativeSections | agents/visual_aid_agent.py:222-233 | as written, a successful infographic response asks for -2 sections |
| VisualAidAgent.ResponseLayoutAsWritten | agents/visual_aid_agent.py:125-160 | a successful response carries the as-written layout of its visual type |
| VisualAidAgent.InteractiveStepForEnhancedVisuals | agents/visual_aid_agent.py:311-314 | with ADK and an answering engine, a presentation or infographic always gets the implement-interactive step |
| ActivitiesService.ValidateStoryRequest | services/activities_service.py:48-52 | no error iff the grade is in 1..12 and the topic is not blank; an out-of-range grade gives the grade error |
| ActivitiesService.CleanStoryResponse | services/activities_service.py:452-462 | the cleaned reply is never longer than the reply |
| ActivitiesService.FencedReplyUnwraps | services/activities_service.py:452-462 | a reply fenced as a json code block cleans to its stripped body |
| ActivitiesService.UnfencedReplyIsStripped | services/activities_service.py:452-462 | a reply with no backtick at either end of its stripped text cleans to that stripped text |
| ActivitiesService.TextField | services/activities_service.py:476-489 | missing gives the default, a list of strings gives their space-join, a list with a non-string raises, anything else is kept |
| ActivitiesService.ListField | services/activities_service.py:491-504 | missing gives the default, a list is kept, a non-list is wrapped into a one-item list |
| ActivitiesService.FillStoryDefaults | services/activities_service.py:466-512 | raises iff a joined field holds a non-string or the story text is not a string; otherwise the title, story text, subject and text and list fields are the model's where present and typed, the topic-based defaults otherwise |
| ActivitiesService.StoryLength | services/activities_service.py:603-609 | 300 words iff grade ≤ 3, 400 iff grade in 4..6, 500 iff grade > 6 |
| ActivitiesService.TrimStory | services/activities_service.py:612-616 | a text within the cap is kept; a longer one becomes its first cap words with "..." glued to the last |
| ActivitiesService.TrimmedWords | services/activities_service.py:612-614 | joining the first cap words and appending "..." splits back into those words with "..." on the last |
| ActivitiesService.CapWords | services/activities_service.py:682-688 | the result's words are exactly the first cap words of the text |
| ActivitiesService.FallbackStoryData | services/activities_service.py:666-703 | 250 words for grades up to 3, 350 for grades 4..6, the full text above; subject is the topic, four objectives, eight vocabulary words |
| ActivitiesService.FallbackStory | services/activities_service.py:585-636 | a story longer than the grade's length is cut to exactly that many words, a shorter one kept; fixed audio file name; grade, topic and language echoed |
| ActivitiesService.ParseStoryResponse | services/activities_service.py:447-521 | an undecodable reply gives the fallback story data, a decoded dict gets its defaults, any other decoded value raises |
| ActivitiesService.GenerateInteractiveStory | services/activities_service.py:29-206 | raises iff validation fails; a failed, empty or unsaved reply gives the fallback story; a parsed and saved reply gives the parsed story with the saved id; grade, topic and language always echoed |
| ActivitiesService.SceneDefaults | services/activities_service.py:530-537 | the defaults hold a scene name, environment, objects and interactions |
| ActivitiesService.FillSceneDefaults | services/activities_service.py:530-537 | the scene then has all four fields; the model's fields are kept and only missing ones get defaults |
| ActivitiesService.FillSceneDefaultsIdempotent | services/activities_service.py:530-537 | filling the defaults twice equals filling them once |
| ActivitiesService.FallbackArData | services/activities_service.py:706-713 | has all scene fields, with no objects and no interactions |
| ActivitiesService.GradeOrFlexible | services/activities_service.py:662 | "flexible" iff the grade is missing or 0 (falsy) |
| ActivitiesService.FallbackArScene | services/activities_service.py:639-663 | has all scene fields, the given scene id, and the grade or "flexible" |
| ActivitiesService.ParseArResponse | services/activities_service.py:524-545 | an undecodable reply gives the fallback data; a decoded dict gets its defaults; any other decoded value raises; a parsed scene always has all scene fields |
| ActivitiesService.GenerateArScene | services/activities_service.py:207-323 | raises iff the topic is blank; a failed call or save gives the fallback scene; otherwise the parsed scene plus its scene id; every scene returned has all scene fields and an id |
| ActivitiesService.DetermineBadgeType | services/activities_service.py:716-726 | achievement iff the name mentions achievement or complete; participation iff it mentions none of the six words |
| ActivitiesService.BadgePoints | services/activities_service.py:729-738 | points in {10,25,50,100}: 10 iff participation, 100 iff mastery |
| ActivitiesService.BadgeRarity | services/activities_service.py:746-754 | rare iff the name mentions master or expert, uncommon iff achievement and not rare, else common |
| ActivitiesService.RarityFollowsType | services/activities_service.py:716-754 | a mastery badge is rare; an uncommon badge is an achievement |
| ActivitiesService.RareNeedNotBeMastery | services/activities_service.py:716-754 | a "daily expert" badge is a rare consistency badge worth 25 points: rarity and type disagree |
| ActivitiesService.DisplayName | services/activities_service.py:757-759 | same length, no underscore left, characters that are neither letters nor underscores unchanged |
| ActivitiesService.BadgeData | services/activities_service.py:359-367 | records the badge name and the points it earns |
| ActivitiesService.BadgeDescription | services/activities_service.py:741-743 | the description starts with "Earned the '<name>'" |
| ActivitiesService.IconUrl | services/activities_service.py:762-766 | the icon path is /static/badges/ then the badge type, ending in _badge.png |
| ActivitiesService.StoredBadge | services/activities_service.py:359-370 | the stored badge keeps its name and the assignment time |
| ActivitiesService.StoredBadgeIsFound | services/activities_service.py:349-357 | once stored, the duplicate check finds the badge |
| ActivitiesService.AppendNewNameKeepsDistinct | services/activities_service.py:348-370 | adding a badge whose name is not yet held keeps the user's badge names distinct |
| ActivitiesService.FindBadgeNamed | services/activities_service.py:349-357 | true iff the user holds a badge of that name |
| ActivitiesService.EnhanceBadges | services/activities_service.py:407-418 | succeeds iff every badge can be decorated; then one decorated badge per stored badge, in order |
| ActivitiesService.BadgeBook.AssignBadge | services/activities_service.py:323-387 | errors iff the user id is missing or empty, the name is blank, reading the user's badges raises, or the badge is new and writing it raises; a store exception is re-raised as the service's "failed" error for that DAO operation; already-held iff the user holds that name, and then nothing changes; otherwise exactly the new badge is appended and its points returned; no user ever holds two badges of one name |
| ActivitiesService.BadgeBook.GetUserBadges | services/activities_service.py:392-418 | as written: succeeds iff the user id is given and every badge decorates with the as-written date; then each badge decorated, in order; a valid book fails for any user holding a badge |
| ActivitiesService.BadgeBook.GetUserBadgesFixed | services/activities_service.py:392-418 | with the date derived as intended: succeeds iff every badge decorates, each decorated in order; a valid book lists every user's badges |
| ActivitiesService.EnhanceBadgeAsWritten | services/activities_service.py:409-416 | as written: a datetime assigned_at makes the decoration raise; otherwise the achievement date is the split date |
| ActivitiesService.EnhanceBadge | services/activities_service.py:409-416 | succeeds iff the badge name is a string and the assigned_at gives a date; the achievement date is that date |
| ActivitiesService.StoredBadgesBreakListingAsWritten | services/activities_service.py:407-418 | as written, a non-empty list of stored badges never decorates |
| ActivitiesService.StoredBadgesAreListed | services/activities_service.py:407-418 | with the date derived as intended, every list of stored badges decorates |
| ActivitiesService.DecorateBadge | services/activities_service.py:409-416 | succeeds iff the name is a string and the date derives; keeps every field, adds display name, icon and achievement date |
| ActivitiesService.StoredBadgeBreaksListingAsWritten | services/activities_service.py:414 | as written, every stored badge (assigned_at a datetime) makes the listing raise |
| ActivitiesService.StoredBadgeIsListed | services/activities_service.py:414 | with the date derived as intended, every stored badge is listed with its display name and the date part of its assignment time |
| ActivitiesService.OfType | services/activities_service.py:438-440 | no longer than the input; exactly the activities whose type matches |
| ActivitiesService.GetUserActivities | services/activities_service.py:422-445 | fails iff the user id is missing or empty; no type or an empty type returns everything, otherwise only that type |
| PlanningService.ValidatePlanRequest | services/planning_service.py:49-53 | no error iff the class id is given, the plan type is daily/weekly/monthly and the duration is in 1..365; a missing class id gives the id error first |
| PlanningService.ValidateCurriculumRequest | services/planning_service.py:151-157 | no error iff the class id is given, the subject not blank, the grade in 1..12 and the semester in 30..365 days; a missing class id gives the id error first |
| PlanningService.PlanDefaults | services/planning_service.py:516-524 | the defaults hold an overview and a daily schedule |
| PlanningService.FillPlanDefaults | services/planning_service.py:516-527 | keeps every decoded field; only a missing overview gets the default overview and a missing schedule an empty one |
| PlanningService.FallbackPlanData | services/planning_service.py:597-608 | an overview with total_days equal to the duration and an empty daily schedule |
| PlanningService.ParseLessonPlanResponse | services/planning_service.py:510-530 | an undecodable reply gives the fallback data, a decoded dict gets its defaults, any other decoded value raises |
| PlanningService.AiLessonPlan | services/planning_service.py:496-507 | always an overview and a schedule; a failed call gives the fallback data, a parsed reply is returned as parsed |
| PlanningService.Score | services/planning_service.py:618-619 | a metric without an engagement score counts as 0 |
| PlanningService.TotalScore | services/planning_service.py:618-619 | the sum is defined iff every score is a number |
| PlanningService.EngagementSummary | services/planning_service.py:611-625 | "no data" iff no metrics; raises iff some score is not a number; otherwise high iff mean > 0.8, moderate iff 0.6 < mean ≤ 0.8, low iff mean ≤ 0.6 |
| PlanningService.TotalAbove | services/planning_service.py:618-619 | scores each above a bound sum to more than the bound times their number |
| PlanningService.AllEngagedIsHigh | services/planning_service.py:611-625 | a class whose every score exceeds 0.8 is summarised as highly engaged |
| PlanningService.FallbackLessonPlan | services/planning_service.py:565-594 | a fallback plan with an overview and a one-day schedule |
| PlanningService.GenerateLessonPlan | services/planning_service.py:20-127 | raises iff validation fails; the fallback plan iff the class context fails, the class is unknown, the prompt's joins raise or the save fails; a generated plan is the AI plan with the saved id and counts of holidays, metrics and existing plans it drew on |
| PlanningService.CurriculumDefaults | services/planning_service.py:539-547 | the defaults hold an overview and an empty unit list |
| PlanningService.FallbackCurriculum | services/planning_service.py:552-562 | an overview and an empty unit list |
| PlanningService.ParseCurriculumResponse | services/planning_service.py:533-562 | raises iff the decoded value is not a dict; always an overview and units; undecodable gives the fallback, a dict keeps every field and gains only the missing defaults |
| PlanningService.GenerateCurriculumPlan | services/planning_service.py:128-254 | succeeds iff validation passes, the class is found, the model answers, the parse succeeds, units has a length and the save succeeds; then the parsed curriculum, its unit count and the saved id |
| PlanningService.GetLessonPlan | services/planning_service.py:255-280 | succeeds iff the id is given and the plan is stored and non-empty, returning it to any requester; a missing plan gives the not-found error |
| PlanningService.PlanTitle | services/planning_service.py:628-632 | defined iff the plan type is a string; the title always ends " days)" |
| PlanningService.PlanSummary | services/planning_service.py:635-639 | defined iff content and its overview are dicts; no content gives the default summary |
| PlanningService.DecoratePlan | services/planning_service.py:309-314 | succeeds iff title, summary and date derive; keeps every field and adds the title and the date |
| PlanningService.StampedPlanListing | services/planning_service.py:313 | a plan stamped with a server datetime makes the listing raise as written, and is listed with its date part as intended |
| PlanningService.DecoratedPrefixGrows | services/planning_service.py:306-317 | appending the next plan's decoration extends the decorated prefix |
| PlanningService.EnhancePlans | services/planning_service.py:306-317 | succeeds iff every plan decorates; then one decorated plan per plan, in order |
| PlanningService.GetClassLessonPlans | services/planning_service.py:281-320 | as written: succeeds iff the class id is given, the limit is in 1..100 and every plan decorates with the as-written date; an out-of-range limit gives the limit error; a listing holding a stored timestamp fails |
| PlanningService.GetClassLessonPlansFixed | services/planning_service.py:281-320 | with the date derived as intended: the same success condition with the corrected decoration; stored plans with a title and summary are always listed |
| PlanningService.EnhancePlanAsWritten | services/planning_service.py:309-314 | as written: a truthy non-string created_at makes the decoration raise; success iff title, summary and the split date succeed; every key of the plan is kept |
| PlanningService.EnhancePlan | services/planning_service.py:309-314 | success iff title, summary and the intended date succeed; created_date is that date and every key of the plan is kept |
| PlanningService.StampedPlansBreakListingAsWritten | services/planning_service.py:306-317 | as written, one plan with a stored timestamp makes the whole listing fail |
| PlanningService.StampedPlansAreListed | services/planning_service.py:306-317 | with the date derived as intended, stored plans with a title and summary all decorate |
| PlanningService.UpdateFields | services/planning_service.py:350-354 | every caller update is written, plus the modifier and time stamps |
| PlanningService.PlanStore.OwnershipError | services/planning_service.py:339-345 | no error iff no requester is given, or the plan exists, is non-empty and belongs to the requester; errors are not-found or permission errors |
| PlanningService.PlanStore.UpdateLessonPlan | services/planning_service.py:321-363 | errors iff the id is missing or the ownership check fails; success iff the write goes through on an existing plan, and then exactly that plan gains the update fields; otherwise nothing changes |
| PlanningService.PlanStore.DeleteLessonPlan | services/planning_service.py:364-394 | errors iff the id is missing or the ownership check fails; on a successful write exactly that plan is removed; otherwise nothing changes |
| VisualAidService.ValidateVisualAidRequest | services/visual_aid_service.py:48-55 | accepted iff the prompt is not blank, the type is image or video and a given (truthy) grade is in 1..12; every rejection is a ValueError, a blank prompt first |
| VisualAidService.AgeRange | services/visual_aid_service.py:426-432 | grades outside 1..12 get "6-18" |
| VisualAidService.AgeRangeYoung | services/visual_aid_service.py:426-432 | grades 1..6 map to ages grade+5 to grade+6 |
| VisualAidService.AgeRangeOlder | services/visual_aid_service.py:426-432 | grades 7..12 map to ages grade+5 to grade+6 |
| VisualAidService.AgeRangeIsPupilsAges | services/visual_aid_service.py:426-432 | every grade in 1..12 maps to ages grade+5 to grade+6 |
| VisualAidService.Complexity | services/visual_aid_service.py:435-444 | simple iff grade ≤ 3, moderate iff 4..6, detailed iff 7..9, advanced iff above 9 |
| VisualAidService.InfographicComplexity | services/visual_aid_service.py:161 | moderate without a (truthy) grade, the grade's complexity otherwise |
| VisualAidService.Enhancements | services/visual_aid_service.py:387-411 | two grade items iff a grade is given, one subject item iff a subject is given, then the four style requirements last |
| VisualAidService.JoinConcat | services/visual_aid_service.py:387-411 | joining a concatenation is joining each part with the separator between |
| VisualAidService.EnhancedPromptShape | services/visual_aid_service.py:387-411 | the enhanced prompt starts with the prompt and the style heading and ends with the joined style requirements |
| VisualAidService.EnhancePrompt | services/visual_aid_service.py:387-411 | the enhanced prompt begins with the user's prompt and is followed by at least the style heading |
| VisualAidService.ExtractTopic | services/visual_aid_service.py:414-418 | a non-empty topic neither starts nor ends with . , ! or ? |
| VisualAidService.JoinLast | services/visual_aid_service.py:414-418 | a join ends with its last part |
| VisualAidService.ShortPlainPromptIsItsTopic | services/visual_aid_service.py:414-418 | a prompt of at most three words without edge punctuation is its own topic |
| VisualAidService.DisplayTopic | services/visual_aid_service.py:421-423 | defined iff the topic is falsy or a string; falsy gives "General", a string its title case of the same length |
| VisualAidService.DecorateAid | services/visual_aid_service.py:252-257 | succeeds iff the topic displays and the date derives; keeps every other field, adds the display topic and the date |
| VisualAidService.SavedAidBreaksListingAsWritten | services/visual_aid_service.py:256 | as written, every saved aid (created_at a datetime) makes the listing raise |
| VisualAidService.SavedAidIsListed | services/visual_aid_service.py:256 | with the date derived as intended, a saved aid is listed with the date part of its creation time |
| VisualAidService.EnhanceAids | services/visual_aid_service.py:251-259 | succeeds iff every aid decorates; then each aid decorated, in order |
| VisualAidService.GetUserVisualAids | services/visual_aid_service.py:230-263 | as written: succeeds iff the user id is given and every listed aid decorates with the as-written date; a valid store fails for any non-empty listing |
| VisualAidService.ListUserVisualAids | services/visual_aid_service.py:230-263 | for any decoration: succeeds iff the user id is given and every listed aid decorates; then the store's listing, each decorated, in order |
| VisualAidService.GetUserVisualAidsFixed | services/visual_aid_service.py:230-263 | with the date derived as intended: on a valid store, succeeds iff every listed aid has a displayable topic |
| VisualAidService.EnhanceAidAsWritten | services/visual_aid_service.py:252-257 | as written: a truthy non-string created_at makes the decoration raise; created_date is the split date |
| VisualAidService.EnhanceAid | services/visual_aid_service.py:252-257 | succeeds iff the topic displays and the created_at gives a date; created_date is that date |
| VisualAidService.StampedAidBreaksListingAsWritten | services/visual_aid_service.py:256 | as written, an aid with a stored timestamp never decorates |
| VisualAidService.StampedAidIsListed | services/visual_aid_service.py:256 | with the date derived as intended, an aid with a stored timestamp decorates iff its topic displays |
| VisualAidService.FilterByGrade | services/visual_aid_service.py:288-292 | no longer than the input; exactly the aids of that grade or with no grade |
| VisualAidService.FilterByGradeKeepsOrder | services/visual_aid_service.py:288-292 | filtering distributes over concatenation, so order is kept |
| VisualAidService.SearchVisualAids | services/visual_aid_service.py:264-297 | errors iff the topic is blank; at most limit aids from the store's matches for the stripped topic; with a grade, exactly the fitting matches in their order; without one, exactly the matches |
| VisualAidService.DeletionReply | services/visual_aid_service.py:338-342 | status, id and message, status success iff the deletion succeeded |
| VisualAidService.DeletionRefusal | services/visual_aid_service.py:313-320 | no refusal iff the aid exists, is non-empty and belongs to the requester; a missing aid gives not-found |
| VisualAidService.DeleteVisualAid | services/visual_aid_service.py:298-345 | succeeds iff both ids are given and the owner check passes; then exactly that aid is soft-deleted and success is reported; a refusal changes nothing |
| VisualAidService.FallbackVisualAidAsWritten | services/visual_aid_service.py:348-384 | as written, the fallback always points at the static placeholder image and placeholder.txt |
| VisualAidService.FallbackVisualAid | services/visual_aid_service.py:348-384 | the intended fallback: status fallback, a fallback file named for the asset type served under /temp_image/, metadata marked as a fallback |
| VisualAidService.PlaceholderIsNotGenerated | services/visual_aid_service.py:364-368 | the placeholder URL is never a generated image URL |
| VisualAidService.FallbackLosesImageAsWritten | services/visual_aid_service.py:358-368 | as written, the fallback never points at the file the intended fallback draws |
| VisualAidService.GradeLabel | services/visual_aid_service.py:70 | "K-12" without a grade, the grade's digits otherwise |
| VisualAidService.AidImageRequest | services/visual_aid_service.py:59-87 | an illustration about the prompt's topic, subject or "General", the grade label; images use the enhanced prompt, videos end with it |
| VisualAidService.AidData | services/visual_aid_service.py:93-106 | the saved record has the /temp_image/ URL, the topic and the user id |
| VisualAidService.AidReply | services/visual_aid_service.py:112-122 | status success with the new id, the saved URL and topic |
| VisualAidService.ReplyMatchesSavedAid | services/visual_aid_service.py:108-122 | the reply agrees with the saved aid on id, URL and topic, and the saved aid is active |
| VisualAidService.GenerateVisualAid | services/visual_aid_service.py:21-132 | as written: errors iff validation fails; a successful write stores exactly the new aid and replies with it; a failed write stores nothing and replies with the as-written fallback, whose image is the static placeholder |
| VisualAidService.GenerateWithFallback | services/visual_aid_service.py:21-132 | for any fallback: errors iff validation fails; a successful write stores exactly the new aid and replies with it; a failed write stores nothing and replies with the fallback |
| VisualAidService.GenerateVisualAidFixed | services/visual_aid_service.py:21-132 | as intended: the same, except that a failed write replies with the fallback whose image is never the placeholder |
| VisualAidService.ValidateInfographicRequest | services/visual_aid_service.py:154-157 | accepted iff the topic is not blank and there are data points; rejections are ValueErrors |
| VisualAidService.InfographicPrompt | services/visual_aid_service.py:161-175 | an abridged prompt text: it names the topic, the grade band and the requested data points in order |
| VisualAidService.InfographicMetadata | services/visual_aid_service.py:200-204 | the image metadata plus the complexity and the data-point count |
| VisualAidService.InfographicData | services/visual_aid_service.py:191-205 | an infographic record with that metadata and the /temp_image/ URL |
| VisualAidService.InfographicReply | services/visual_aid_service.py:209-218 | success with the id, the complexity, the saved URL and metadata |
| VisualAidService.InfographicReplyMatchesSaved | services/visual_aid_service.py:207-218 | the reply agrees with the saved aid on metadata, URL and id |
| VisualAidService.GenerateInfographic | services/visual_aid_service.py:133-229 | succeeds iff the request is valid and the write succeeds, storing exactly the new infographic; any failure is an error and stores nothing |
| AssessmentService.Band | services/assessment_service.py:132-146 | hard iff strictly above the high bound, easy iff strictly below the low bound, medium otherwise |
| AssessmentService.RecommendNextDifficulty | services/assessment_service.py:126-146 | an empty record is easy; with average_score the 80/40 bands apply (raising when it is not a number); otherwise correct_ratio with the 0.8/0.4 bands, medium when neither is present |
| AssessmentService.RecommendFor | services/assessment_service.py:126-146 | a falsy value is easy, a dict is judged as a record, any other truthy value raises |
| AssessmentService.DifficultyFollowsAverage | services/assessment_service.py:132-138 | a higher average never yields an easier difficulty |
| AssessmentService.ThresholdsAreMedium | services/assessment_service.py:132-146 | averages of exactly 80 and 40 and a ratio of exactly 0.8 are medium, 80.5 is hard, a record with neither field is medium |
| AssessmentService.StoredPerformance | services/assessment_service.py:153 | no stored document gives the empty record |
| AssessmentService.QuizPerformanceAsWritten | services/assessment_service.py:27-28 | as written, a missing document or one without a "performance" entry gives the empty dict |
| AssessmentService.QuizDifficultyAsWritten | services/assessment_service.py:27-30 | as written, such a document always gives easy |
| AssessmentService.QuizDifficulty | services/assessment_service.py:152-155 | corrected: no document is easy, otherwise the recommendation on the document itself |
| AssessmentService.PercentIsNumber | dao/assessment_dao.py:313-326 | every percentage the statistics update stores is a number |
| AssessmentService.PerformanceIsNotAStatsField | dao/assessment_dao.py:315-337 | the statistics update never writes a "performance" field |
| AssessmentService.UpdatedDocHasNoPerformance | dao/assessment_dao.py:289-347 | a document only the statistics update wrote holds no "performance" entry |
| AssessmentService.StatsDocDifficulty | services/assessment_service.py:27-30 | on such a document the as-written rule says easy and the corrected one follows the stored average |
| AssessmentService.QuizDifficultyIgnoresStats | services/assessment_service.py:27-30 | after any statistics update, as written every quiz is easy, corrected it follows the stored average |
| AssessmentService.PerfectScoreStillEasyAsWritten | services/assessment_service.py:27-30 | a first quiz answered 10 of 10: as written the next quiz is easy, corrected it is hard |
| AssessmentService.QuizRecord | services/assessment_service.py:64-71 | the saved document records the difficulty's word, the quiz and status "generated" |
| AssessmentService.QuizOutcome | services/assessment_service.py:23-79 | as written: with no "performance" entry in the stored document, succeeds iff the model answers, the cleaned reply decodes to a dict and the write returns an id; then the quiz with its assessment id |
| AssessmentService.SavedQuizFollowsRecord | services/assessment_service.py:64-71 | the saved quiz carries the difficulty the user's own record calls for |
| AssessmentService.GenerateQuiz | services/assessment_service.py:23-79 | as written: returns the as-written outcome; the quiz is stored exactly when the save is reached and the write succeeds, and then it is saved as easy whenever the stored document has no "performance" entry; performance is untouched |
| AssessmentService.QuizOutcomeAt | services/assessment_service.py:23-79 | for any decided difficulty: succeeds iff the save is reached, the write returns an id and the quiz is a dict; then the quiz with its assessment id |
| AssessmentService.QuizOutcomeFixed | services/assessment_service.py:23-79 | with the difficulty read from the stored statistics: the same success condition; a difficulty error is the quiz error |
| AssessmentService.GenerateQuizAt | services/assessment_service.py:23-79 | for any difficulty judge: stores the quiz with the judged difficulty exactly when the save is reached and the write succeeds; otherwise nothing; performance untouched |
| AssessmentService.GenerateQuizFixed | services/assessment_service.py:23-79 | as intended: the saved difficulty is the recommended difficulty of the stored performance |
| AssessmentService.ScoreOpenEnded | services/assessment_service.py:81-101 | succeeds iff the model answers and the cleaned reply decodes; then the decoded value; otherwise the wrapped error |
| AssessmentService.UpdateUserPerformance | services/assessment_service.py:103-124 | succeeds iff the statistics update goes through; then the stored document is consistent and returned under "performance"; assessments untouched |
| AssessmentService.RecentCount | services/assessment_service.py:158 | at most the limit |
| AssessmentService.PersonalizedRecommendations | services/assessment_service.py:148-172 | succeeds iff the difficulty is decided; then it recommends that difficulty's word; otherwise the wrapped error |
| AssessmentService.GetPersonalizedRecommendations | services/assessment_service.py:148-172 | the recommendations for the stored document and at most five recent assessments |
| AssessmentService.SaveAssessmentResult | services/assessment_service.py:174-182 | succeeds iff the write returns an id; a successful write stores exactly the stamped result; performance untouched |
| AssessmentDao.Counter | dao/assessment_dao.py:309-311 | a missing counter reads as 0, an integer counter as itself |
| AssessmentDao.Percent | dao/assessment_dao.py:313 | 0 without answers, otherwise 100·correct/answered |
| AssessmentDao.PercentBounds | dao/assessment_dao.py:313 | with 0 ≤ correct ≤ answered the percentage is a number in [0,100] |
| AssessmentDao.StatsUpdate | dao/assessment_dao.py:289-347 | a first assessment always writes; an existing document writes iff its three counters are integers; the write holds the counters, the average and this assessment's percentage, and only statistics fields |
| AssessmentDao.Merged | dao/assessment_dao.py:339 | a merge write replaces the written fields and keeps every other stored field |
| AssessmentDao.WrittenStatsAreConsistent | dao/assessment_dao.py:305-337 | the written average is the percentage of the written totals, and each total is the old one advanced by this assessment (one assessment, its correct answers, its questions) |
| AssessmentDao.MergeKeepsConsistency | dao/assessment_dao.py:339 | merging consistent statistics into any document leaves it consistent |
| AssessmentDao.UpdatedStatsAreConsistent | dao/assessment_dao.py:289-347 | after any successful update the stored average agrees with the stored totals, and the totals advance by this assessment |
| AssessmentDao.FirstStatsAverageIsLastScore | dao/assessment_dao.py:324-337 | a first assessment's average equals its own score, with one assessment and the user id |
| AssessmentDao.UpdateKeepsStatsSane | dao/assessment_dao.py:289-347 | with sane totals and 0 ≤ correct ≤ total, the update succeeds, totals stay sane and the average stays in [0,100] |
| AssessmentDao.FieldNumber | dao/assessment_dao.py:378-381 | an absent field adds nothing |
| AssessmentDao.FieldSum | dao/assessment_dao.py:373-381 | the sum exists iff every document's field is a number or absent |
| AssessmentDao.Objects | dao/assessment_dao.py:375 | one list entry per document |
| AssessmentDao.AnalyticsRecord | dao/assessment_dao.py:384-395 | reports the number of documents and the mean score over all of them, 0 with none |
| AssessmentDao.ErrorAnalytics | dao/assessment_dao.py:400-408 | a failure reports zero assessments and the error |
| AssessmentDao.FieldSumStep | dao/assessment_dao.py:373-381 | one more document adds its field to the running sum |
| AssessmentDao.FieldSumFails | dao/assessment_dao.py:378-381 | one non-numeric field makes the whole sum fail |
| AssessmentDao.GetUserAnalytics | dao/assessment_dao.py:349-408 | the accumulating loop computes exactly the analytics record, or the error record when a sum raises |
| AssessmentDao.UserAnalytics | dao/assessment_dao.py:349-408 | always total_assessments and average_score; a failing sum gives the error entry and total 0; otherwise the total is the number of assessments and the average their mean score |
| AssessmentDao.ScoreSumBounds | dao/assessment_dao.py:378-379 | scores in [0,100] sum to between 0 and 100 per document |
| AssessmentDao.MeanBounds | dao/assessment_dao.py:384 | such a total divided by the count lies in [0,100] |
| AssessmentDao.RecordAverageIsAScore | dao/assessment_dao.py:384-392 | the reported average then lies in [0,100] |
| AssessmentDao.AnalyticsAverageIsAScore | dao/assessment_dao.py:349-398 | when every score is in [0,100], the analytics count every document and report an average in [0,100] |
| AssessmentDao.Lookup | dao/assessment_dao.py:265-287 | found iff the id is stored, and then the stored record |
| AssessmentDao.AssessmentStore.GetUserPerformance | dao/assessment_dao.py:265-287 | the user's document exists iff one is stored |
| AssessmentDao.AssessmentStore.UpdateUserPerformanceStats | dao/assessment_dao.py:289-347 | true iff the write succeeds and the counters are integers; then exactly the user's document becomes the merged update; otherwise nothing changes; assessments untouched |
| AssessmentDao.AssessmentStore.SaveAssessment | dao/assessment_dao.py:153-181 | the caller's data is stamped with the user id and timestamps; the id is returned iff the write succeeds, and then exactly the stamped data is stored under it; otherwise nothing changes |
| UsageStats.KindField | dao/planning_dao.py:222-227 | a per-kind field's name starts with its prefix: the counter with `total_`, the last-time field with `last_` |
| UsageStats.TypeKeyInjective | dao/planning_dao.py:223 | two kinds share a per-kind counter only when they are the same kind |
| UsageStats.UsageUpdate | dao/planning_dao.py:218-242 | a first use always writes; a stored document writes iff both counters it reads are integers; the fields written are exactly the counters, the last-time fields, the timestamps and, on a first use, the user id |
| UsageStats.UsageUpdateCounts | dao/planning_dao.py:218-244 | after the merge write the overall counter and the kind's counter are each one more than before (0 when absent), and a first document holds the user id |
| UsageStats.OtherKindsUntouched | dao/planning_dao.py:225-231 | the counter of any other kind keeps its stored value unless its name is the overall counter's |
| PlanningDao.PlanningIsSound | dao/planning_dao.py:222-229 | the planning field names are shaped like per-kind names, so they never clash with the user id or the timestamps |
| PlanningDao.PlansCounterIsTotal | dao/planning_dao.py:222-223 | the plan type "plans" names the overall counter `total_plans_created` |
| PlanningDao.PlanningUsageCounts | dao/planning_dao.py:202-251 | a planning usage update counts one more plan overall and one more of its type, and a first document holds the user id |
| PlanningDao.OtherPlanTypesUntouched | dao/planning_dao.py:225-231 | every other plan type's counter is left as stored |
| PlanningDao.FirstUnhashable | dao/planning_dao.py:284-286 | no item is reported iff every item of the grade list can go into a set; a reported item is in the list and unhashable |
| PlanningDao.CollectStep | dao/planning_dao.py:281-288 | one plan goes through iff its subject and grades are hashable; the subjects gain exactly its subject, the grade levels exactly its grades (each member of a list, or the single value), and the subjects grow by at most one |
| PlanningDao.CollectSucceeds | dao/planning_dao.py:277-288 | the loop goes through iff every plan's subject and grades are hashable |
| PlanningDao.CollectedSubjectsAreStored | dao/planning_dao.py:277-283 | the subjects collected are exactly the stored subjects of the plans |
| PlanningDao.CollectedGradesAreStored | dao/planning_dao.py:277-288 | the grade levels collected are exactly the grades the plans name |
| PlanningDao.SubjectsAtMostPlans | dao/planning_dao.py:277-283 | there are never more distinct subjects than plans |
| PlanningDao.AnalyticsReportStoredValues | dao/planning_dao.py:253-312 | the report exists iff every plan is hashable; it counts every plan, reports exactly the stored subjects (at most one per plan) and the named grades; the error record reports 0 plans |
| PlanningDao.CollectPrefix | dao/planning_dao.py:277-288 | one more plan extends the collection by one step |
| PlanningDao.CollectErrorPersists | dao/planning_dao.py:305-312 | the first failure is the failure of the whole loop |
| PlanningDao.GetPlanningAnalytics | dao/planning_dao.py:253-312 | the loop returns the analytics of the plans the query found, the report or the error record |
| PlanningDao.PlanningStore.SaveLessonPlan | dao/planning_dao.py:31-59 | the caller's dict gains the user id and both timestamps and is stored under the fresh id, which is returned; nothing is stored and `None` is returned when the write fails; the history is untouched |
| PlanningDao.PlanningStore.UpdatePlanningUsageStats | dao/planning_dao.py:202-251 | `True` iff the write goes through and the stored counters are integers; then the history document is the merge of the stored one with the update, otherwise nothing changes; the plans are untouched |
| ContentDao.ContentIsSound | dao/content_dao.py:226-233 | the content field names are shaped like per-kind names |
| ContentDao.ContentCounterIsTotal | dao/content_dao.py:226-227 | the content type "content" names the overall counter |
| ContentDao.ContentUsageCounts | dao/content_dao.py:206-255 | a content usage update counts one more item overall and one more of its type, and a first document holds the user id |
| ContentDao.OtherContentTypesUntouched | dao/content_dao.py:229-235 | every other content type's counter is left as stored |
| ContentDao.ContentAnalytics | dao/content_dao.py:257-304 | the total is always an integer; a failed query (activities first) gives the error record with total 0 and that error; otherwise the activities and the visual aids found are counted |
| ContentDao.ContentTotalIsSum | dao/content_dao.py:281-304 | a report has no error iff both queries went through, and then its total is the activities plus the visual aids; an error record's total is 0 |
| ContentDao.ContentStore.UpdateContentUsageStats | dao/content_dao.py:206-255 | `True` iff the write goes through and the stored counters are integers; then the history document is the merge of the stored one with the update, otherwise nothing changes |
| VoiceAssistantDao.FieldLength | dao/voice_assistant_dao.py:166-169 | a missing field adds 0; a present field adds its length, and raises exactly when it has none |
| VoiceAssistantDao.TotalsStep | dao/voice_assistant_dao.py:161-169 | one conversation goes through iff its present transcript and response have lengths, and then adds exactly those lengths to the two totals |
| VoiceAssistantDao.TotalsSucceed | dao/voice_assistant_dao.py:161-169 | the loop goes through iff every present transcript and response has a length |
| VoiceAssistantDao.MoreTimes | dao/voice_assistant_dao.py:161-169 | one more conversation raises the per-conversation bound's total by the bound |
| VoiceAssistantDao.TranscriptTotalBound | dao/voice_assistant_dao.py:161-167 | transcripts of at most `bound` characters total at most `bound` per conversation |
| VoiceAssistantDao.ResponseTotalBound | dao/voice_assistant_dao.py:161-169 | responses of at most `bound` characters total at most `bound` per conversation |
| VoiceAssistantDao.AverageTimesCount | dao/voice_assistant_dao.py:172-173 | the average is 0 without conversations, and otherwise a number that times the count gives the total |
| VoiceAssistantDao.AnalyticsAveragesTotals | dao/voice_assistant_dao.py:137-197 | the report exists iff every present field has a length; it counts every conversation and reports the loop's totals and their averages; the error record reports 0 conversations |
| VoiceAssistantDao.AveragesAreBounded | dao/voice_assistant_dao.py:172-182 | when every transcript and response has at most `bound` characters the report exists and both averages are at most `bound` |
| VoiceAssistantDao.AverageAtMost | dao/voice_assistant_dao.py:172-173 | a total of at most `bound` per item averages to at most `bound` |
| VoiceAssistantDao.TotalsPrefix | dao/voice_assistant_dao.py:161-169 | one more conversation extends the totals by one step |
| VoiceAssistantDao.TotalsErrorPersists | dao/voice_assistant_dao.py:190-197 | the first failure is the failure of the whole loop |
| VoiceAssistantDao.GetConversationAnalytics | dao/voice_assistant_dao.py:137-197 | the loop returns the analytics of the conversations the query found, the report or the error record |
| VoiceAssistantDao.ConversationStore.SaveConversation | dao/voice_assistant_dao.py:29-57 | the caller's dict gains the user id and both timestamps and is stored under the fresh id, which is returned; nothing is stored and `None` is returned when the write fails |
| VisualAidDao.SavedAid | dao/visual_aid_dao.py:38-47 | the stored record holds the data's fields plus the id, the timestamps and status "active", and keeps every other field of the data |
| VisualAidDao.SoftDeleted | dao/visual_aid_dao.py:268-273 | a deleted aid keeps every field, with status "deleted" and the deletion time added |
| VisualAidDao.NewTemplate | dao/visual_aid_dao.py:175-187 | a new template has usage count 0 and its id, and keeps every other field of the data |
| VisualAidDao.Incremented | dao/visual_aid_dao.py:246 | an integer count grows by one; a missing or non-numeric count becomes 1 |
| VisualAidDao.UsedTemplate | dao/visual_aid_dao.py:244-249 | one use increments the usage count and keeps every field other than the count and the last-use time |
| VisualAidDao.UsageGrows | dao/visual_aid_dao.py:244-249 | `n` uses add exactly `n` to an integer usage count |
| VisualAidDao.UsageCountsUses | dao/visual_aid_dao.py:175-187 | a new template used `n` times has usage count exactly `n` |
| VisualAidDao.UserAidsAmong | dao/visual_aid_dao.py:100-116 | every aid listed is active, belongs to the user and, with a filter, has the asset type; every such aid among the ids scanned is listed; no more than the ids scanned |
| VisualAidDao.UserAidsAmongKeepsOrder | dao/visual_aid_dao.py:100-116 | the listing of a concatenation of ids is the listing of each part, in order |
| VisualAidDao.ListedAreStamped | dao/visual_aid_dao.py:100-116 | when every stored aid carries a server timestamp, so does every listed aid |
| VisualAidDao.NewestListedFirst | dao/visual_aid_dao.py:101-104 | after a save, the user's new aid comes first in the newest-first listing, followed by the listing before it |
| VisualAidDao.PrefixRangeIsPrefix | dao/visual_aid_dao.py:141-145 | the range query holds exactly the strings that start with the query and continue with nothing above U+F8FF |
| VisualAidDao.PrefixInRange | dao/visual_aid_dao.py:141-145 | a string that starts with the query, and has no character at or above U+F8FF, lies in the range |
| VisualAidDao.CapitalisedTopicMissedAsWritten | dao/visual_aid_dao.py:143-144 | as written, the stored topic "Photosynthesis" is not found by the query "Photosynthesis" |
| VisualAidDao.LowerKeepsPrefix | dao/visual_aid_dao.py:143-144 | lower-casing keeps a prefix a prefix |
| VisualAidDao.TopicPrefixIsFound | dao/visual_aid_dao.py:141-145 | with both sides lower-cased, a query that starts the topic finds the aid, whatever the case of either |
| VisualAidDao.TopicMatchesAmong | dao/visual_aid_dao.py:141-155 | every aid listed is active and matches the topic; every active matching aid of the right type among the ids scanned is listed |
| VisualAidDao.Reverse | dao/visual_aid_dao.py:104 | the newest-first order is the saving order reversed |
| VisualAidDao.AssetFilter | dao/visual_aid_dao.py:108-109 | an asset type filters iff it is given and non-empty |
| VisualAidDao.VisualAidStore.constructor | dao/visual_aid_dao.py:19-24 | both collections start empty |
| VisualAidDao.VisualAidStore.SaveVisualAid | dao/visual_aid_dao.py:26-58 | the aid is stored under the fresh id, which is returned, as the data with the metadata; the data itself is a separate value and is not changed; the templates are untouched |
| VisualAidDao.VisualAidStore.GetVisualAid | dao/visual_aid_dao.py:61-85 | the stored record, whatever its status, iff the id is stored |
| VisualAidDao.VisualAidStore.DeleteVisualAid | dao/visual_aid_dao.py:258-280 | a stored aid is soft-deleted and kept, with `True`; a missing one raises, classified by the error decorator, and nothing changes |
| VisualAidDao.VisualAidStore.GetUserVisualAids | dao/visual_aid_dao.py:88-123 | the first `limit` of the user's active aids (of the asset type, with a non-empty filter), newest saved first; on a valid store each carries a server timestamp |
| VisualAidDao.VisualAidStore.SearchVisualAids | dao/visual_aid_dao.py:126-162 | at most `limit` aids, each active and matching the lower-cased topic range |
| VisualAidDao.VisualAidStore.SearchVisualAidsFixed | dao/visual_aid_dao.py:126-162 | with the topic folded on both sides: at most limit aids, each active and matching; within the limit every matching aid is found |
| VisualAidDao.VisualAidStore.SaveTemplate | dao/visual_aid_dao.py:165-195 | the new template is stored under the fresh id, which is returned; the aids are untouched |
| VisualAidDao.VisualAidStore.UpdateTemplateUsage | dao/visual_aid_dao.py:233-255 | an existing template's usage count grows by one, with `True`; a missing one raises, classified by the error decorator, and nothing changes |
| VoiceSessionService.NewSessionId | services/voice_session_service.py:140 | a new session id starts with `session_` |
| VoiceSessionService.NewSession | services/voice_session_service.py:139-150 | a new session belongs to the user, has no history, no interactions, no summary and no topic, and was created and last seen now |
| VoiceSessionService.Refreshed | services/voice_session_service.py:132-137 | a session seen again is last seen now, so it has not expired, and its duration is measured in minutes from its creation; nothing else changes |
| VoiceSessionService.Recent | services/voice_session_service.py:238-239 | the last `n` items, or all of them when there are no more than `n` |
| VoiceSessionService.Summary | services/voice_session_service.py:266 | a stored summary is at most 300 characters |
| VoiceSessionService.WithInteraction | services/voice_session_service.py:224-268 | one more interaction is counted; the history is the last ten of the old history plus the new turn, which comes last; the summary changes only on a third interaction with at least two remembered turns and a model reply, and then is that reply cut to 300 characters; nothing else changes |
| VoiceSessionService.HistoryIsBounded | services/voice_session_service.py:234-239 | the history never exceeds ten turns; below ten nothing is dropped, and at ten the oldest turn goes |
| VoiceSessionService.IdentifyTopic | services/voice_session_service.py:205-222 | the topic is at most 50 characters: the stripped reply without double quotes, cut to 50, or "General Education" when the model fails |
| VoiceSessionService.ContextualResponse | services/voice_session_service.py:165-203 | a model failure gives the base reply; anything other than the base reply, stripped or not, is the stripped non-empty string answer of a JSON object the cleaned reply decodes to |
| VoiceSessionService.AnswerIsTaken | services/voice_session_service.py:196-199 | a decoded object whose answer is a non-blank string gives that answer, stripped |
| VoiceSessionService.InteractionKeepsWellFormed | services/voice_session_service.py:224-268 | an interaction keeps the history within ten turns, the summary within 300 and the topic within 50 characters |
| VoiceSessionService.AddInteraction | services/voice_session_service.py:224-243 | the appending, counting, trimming and summary steps give the session `WithInteraction` describes |
| VoiceSessionService.Unexpired | services/voice_session_service.py:306-314 | exactly the sessions seen within the last 30 minutes stay, unchanged |
| VoiceSessionService.CleanupIsIdempotent | services/voice_session_service.py:303-315 | a second cleanup at the same moment removes nothing more |
| VoiceSessionService.LaterCleanupRemovesMore | services/voice_session_service.py:303-315 | a later cleanup removes every session an earlier one removed |
| VoiceSessionService.SessionInfo | services/voice_session_service.py:323-334 | the details name the session, its user and its interaction count, and say it is active |
| VoiceSessionService.UserSessionIds | services/voice_session_service.py:350-351 | exactly the ids of the sessions of the user |
| VoiceSessionService.NamesMore | services/voice_session_service.py:346-356 | a record naming one of some sessions names one of more sessions |
| VoiceSessionService.CollectUserSessionIds | services/voice_session_service.py:350-351 | the loop lists each of the user's sessions exactly once and nothing else |
| VoiceSessionService.CollectUserInfos | services/voice_session_service.py:346-356 | the loop returns the details of every one of the user's sessions, one record per session, each naming one of them |
| VoiceSessionService.SessionStore.constructor | services/voice_session_service.py:37-40 | the service starts with no sessions |
| VoiceSessionService.SessionStore.CleanupExpiredSessions | services/voice_session_service.py:303-315 | the store keeps exactly the sessions that have not expired, unchanged |
| VoiceSessionService.SessionStore.GetOrCreateSession | services/voice_session_service.py:126-155 | after the cleanup, a live session asked for by a non-empty id is refreshed and returned, and no session is added; otherwise exactly one new session is filed under a new id and returned |
| VoiceSessionService.SessionStore.EnhanceResponseWithContext | services/voice_session_service.py:157-203 | on the first turn the base reply is returned and the session's topic is identified; afterwards the reply is the context-aware one and no session changes |
| VoiceSessionService.SessionStore.UpdateSessionContext | services/voice_session_service.py:224-268 | only this session changes, and it becomes `WithInteraction` of the new turn; every session stays within its limits |
| VoiceSessionService.SessionStore.GetSessionInfo | services/voice_session_service.py:317-334 | `None` iff the id is not active; otherwise the session's details |
| VoiceSessionService.SessionStore.EndSession | services/voice_session_service.py:336-344 | `True` iff the session was active; afterwards it is gone and no other session changes |
| VoiceSessionService.SessionStore.GetUserActiveSessions | services/voice_session_service.py:346-356 | the details of exactly the user's active sessions, one record each |
| TeacherDashboardService.ActivityItems | services/teacher_dashboard_service.py:185-188 | the items looked at are at most four lists of at most `limit` each |
| TeacherDashboardService.ZuluAsOffset | services/teacher_dashboard_service.py:411 | no "Z" is left, and a string without one is unchanged |
| TeacherDashboardService.Moment | services/teacher_dashboard_service.py:408-415 | a falsy `created_at` gives no date; a non-empty string gives what the parser makes of it with "Z" read as "+00:00" |
| TeacherDashboardService.Dates | services/teacher_dashboard_service.py:404-415 | at most one date per item |
| TeacherDashboardService.DatesAreCreatedAts | services/teacher_dashboard_service.py:404-415 | a date is collected exactly when some item's `created_at` stands for it; unparseable values are skipped |
| TeacherDashboardService.Latest | services/teacher_dashboard_service.py:417 | the result is one of the dates and no date is later |
| TeacherDashboardService.LastActivityIsLatest | services/teacher_dashboard_service.py:400-417 | there is a last activity iff some item has a usable `created_at`, and then it is the latest of them all |
| TeacherDashboardService.LastActivityDate | services/teacher_dashboard_service.py:400-417 | the collecting loop and the maximum give the last activity |
| TeacherDashboardService.LastActivityAsWritten | services/teacher_dashboard_service.py:400-417 | as written, `max` raises iff the dates mix offset-aware and naive datetimes; otherwise it agrees with the last activity |
| TeacherDashboardService.LastActivity | services/teacher_dashboard_service.py:400-417 | none iff no item has a parseable date; otherwise the latest of the dates, one of them |
| TeacherDashboardService.CollectDates | services/teacher_dashboard_service.py:404-415 | the loop collects exactly the parseable created_at dates, in order |
| TeacherDashboardService.LastActivityDateAsWritten | services/teacher_dashboard_service.py:400-417 | the loop and max give the as-written last activity, or its comparison error |
| TeacherDashboardService.Recency | services/teacher_dashboard_service.py:201-207 | no activity means neither active nor inactive; active iff at most seven whole days have passed since the last activity |
| TeacherDashboardService.ScoreOf | services/teacher_dashboard_service.py:196-198 | only a truthy average score is collected |
| TeacherDashboardService.TallyOf | services/teacher_dashboard_service.py:181-207 | active plus inactive students and the scores collected are at most the students; the assessment and activity totals are the sums of the per-student counts; every score is truthy |
| TeacherDashboardService.Sum | services/teacher_dashboard_service.py:209 | the sum goes through iff every score is a number |
| TeacherDashboardService.ScoreSumBounds | services/teacher_dashboard_service.py:209 | scores between 0 and 100 sum to between 0 and 100 times their number |
| TeacherDashboardService.Finish | services/teacher_dashboard_service.py:209-223 | the analytics of a non-empty class exist iff the scores sum, and report the class size |
| TeacherDashboardService.ClassAnalyticsShape | services/teacher_dashboard_service.py:164-223 | an empty class gives "No students found" and only it does; otherwise the class size is the number of students, active plus inactive students are at most that, the engagement rate is a percentage and the totals are the per-student sums |
| TeacherDashboardService.ClassAnalyticsWith | services/teacher_dashboard_service.py:164-223 | for any recency judge: no students iff the no-students message; otherwise the class size is the number of students; a failure comes from the tally or the score sum |
| TeacherDashboardService.ClassAnalyticsOf | services/teacher_dashboard_service.py:164-223 | with the intended recency judge: no students iff the no-students message; otherwise the class size is the number of students |
| TeacherDashboardService.FinishBounds | services/teacher_dashboard_service.py:220 | the engagement rate is between 0 and 100 |
| TeacherDashboardService.RatioIsAFraction | services/teacher_dashboard_service.py:220 | a part of a whole, as a percentage, is between 0 and 100 |
| TeacherDashboardService.ClassAverageIsAScore | services/teacher_dashboard_service.py:196-209 | with every truthy average score between 0 and 100, so is the class average |
| TeacherDashboardService.FinishAverage | services/teacher_dashboard_service.py:209 | scores between 0 and 100 average to between 0 and 100 |
| TeacherDashboardService.MeanIsAScore | services/teacher_dashboard_service.py:209 | a total of at most 100 per item averages to between 0 and 100 |
| TeacherDashboardService.ScoresComeFromStudents | services/teacher_dashboard_service.py:196-198 | every score collected is the truthy average score of one of the students |
| TeacherDashboardService.GenerateClassAnalytics | services/teacher_dashboard_service.py:164-223 | as written: the loop and the averages give the class analytics with the as-written recency judge |
| TeacherDashboardService.TallyStudent | services/teacher_dashboard_service.py:182-207 | as written: the loop body for one student is one step of the totals with the as-written recency judge |
| TeacherDashboardService.OffsetDatesBreakAnalyticsAsWritten | services/teacher_dashboard_service.py:201-203 | as written, a student whose dates all carry an offset makes the analytics raise, while the intended analytics count the student as active or inactive |
| TeacherDashboardService.Insert | services/teacher_dashboard_service.py:309-311 | inserting adds exactly the one element |
| TeacherDashboardService.InsertKeepsOrder | services/teacher_dashboard_service.py:309-311 | inserting into an ordered list keeps it ordered |
| TeacherDashboardService.OrderedTail | services/teacher_dashboard_service.py:309-311 | the tail of an ordered list is ordered |
| TeacherDashboardService.InsertBehind | services/teacher_dashboard_service.py:309-311 | inserting behind a head that sorts first keeps the order |
| TeacherDashboardService.InsertInFront | services/teacher_dashboard_service.py:309-311 | inserting in front of a head that does not sort first keeps the order |
| TeacherDashboardService.SortBy | services/teacher_dashboard_service.py:273 | the sorted list is a permutation of the input, ordered by the key |
| TeacherDashboardService.SortedMembers | services/teacher_dashboard_service.py:273 | a sorted list holds exactly the elements it was sorted from |
| TeacherDashboardService.StudentName | services/teacher_dashboard_service.py:233 | without a display name, the name is "Student " and the first eight characters of the id |
| TeacherDashboardService.StudentEntries | services/teacher_dashboard_service.py:230-270 | one student contributes up to five assessments, five activities and three lesson plans, each naming the student |
| TeacherDashboardService.RecentActivitiesAreNewest | services/teacher_dashboard_service.py:225-274 | for timestamps of one comparable kind: at most limit entries, newest first, each one of the students' entries; with no more than limit entries, all of them |
| TeacherDashboardService.KeyKindOf | services/teacher_dashboard_service.py:273 | the sort key is the naive minimum exactly for a falsy timestamp, and a stored datetime is an aware key |
| TeacherDashboardService.RecentActivities | services/teacher_dashboard_service.py:225-274 | the intended list has min(limit, number of entries) entries, each one of the students' entries |
| TeacherDashboardService.RecentActivitiesAsWritten | services/teacher_dashboard_service.py:225-274 | as written: succeeds iff all sort keys are of one comparable kind, with the sort's TypeError otherwise; then the intended list |
| TeacherDashboardService.MissingTimestampBreaksRecentActivities | services/teacher_dashboard_service.py:273 | as written, a student with a stored assessment and a plan without created_at makes the sort raise |
| TeacherDashboardService.GetRecentClassActivities | services/teacher_dashboard_service.py:225-274 | as written: the gathering loop, the partial sort and the cut give the recent activities, or the sort's TypeError |
| TeacherDashboardService.BandOf | services/teacher_dashboard_service.py:301-306 | high iff the score is at least 80, struggling iff below 60, average otherwise |
| TeacherDashboardService.PerformerOf | services/teacher_dashboard_service.py:290-299 | a student is rated only with a non-empty performance record, and the rated score is the number of their average score |
| TeacherDashboardService.BandsOf | services/teacher_dashboard_service.py:286-306 | every performer is in the band of their score, and the bands together hold every rated student |
| TeacherDashboardService.SummaryIsBanded | services/teacher_dashboard_service.py:276-317 | no students gives "No students to analyze" and only that does; each performer is in the band of their score, high and average performers are sorted by descending score and struggling students by ascending score, and the distribution counts every rated student |
| TeacherDashboardService.SummaryOf | services/teacher_dashboard_service.py:276-317 | no students iff the no-students message; it fails iff some band step raises |
| TeacherDashboardService.SortedStaysInBand | services/teacher_dashboard_service.py:309-311 | sorting a band keeps every member in it |
| TeacherDashboardService.GeneratePerformanceSummary | services/teacher_dashboard_service.py:276-317 | the banding loop and the sorts give the performance summary |
| TeacherDashboardService.BandStudent | services/teacher_dashboard_service.py:290-306 | the loop body puts the student's entry in the list of its band |
| TeacherDashboardService.PrefixErrorPersists | services/teacher_dashboard_service.py:286-306 | the first comparison error is the error of the whole loop |
| TeacherDashboardService.PriorityOf | services/teacher_dashboard_service.py:365 | high iff the text mentions "struggling" or "urgent", in any case |
| TeacherDashboardService.FromParts | services/teacher_dashboard_service.py:358-366 | the category is the left part with digits, dots, spaces and brackets trimmed; the recommendation is the right part stripped; the priority is read from the recommendation |
| TeacherDashboardService.ParseLine | services/teacher_dashboard_service.py:355-366 | a line gives a recommendation iff it starts, after whitespace, with a digit 1 to 9 and holds " - " |
| TeacherDashboardService.Collected | services/teacher_dashboard_service.py:355-366 | at most one result per line |
| TeacherDashboardService.CollectedComeFromLines | services/teacher_dashboard_service.py:355-366 | everything collected is what one of the lines gives |
| TeacherDashboardService.CollectedAll | services/teacher_dashboard_service.py:355-366 | a property of every parsed line holds of everything collected |
| TeacherDashboardService.ParsedCategoriesAreTrimmed | services/teacher_dashboard_service.py:360 | every parsed category has nothing left to trim |
| TeacherDashboardService.ParsedLinesComeFromLines | services/teacher_dashboard_service.py:352-368 | at most one recommendation per line, each what one line gives, each with a trimmed category |
| TeacherDashboardService.ParseRecommendations | services/teacher_dashboard_service.py:352-368 | the parsing loop gives the recommendations of the reply's lines in order |
| TeacherDashboardService.ChosenInOrder | services/teacher_dashboard_service.py:374-398 | each of three distinct recommendations is present iff chosen, only the third is medium, and the first leads when chosen |
| TeacherDashboardService.FallbackFollowsTheData | services/teacher_dashboard_service.py:374-398 | Engagement iff the engagement rate is below 50, and then first; Intervention iff some student struggles; Challenge iff the class average is above 85; only Challenge is medium |
| TeacherDashboardService.CategoriesDiffer | services/teacher_dashboard_service.py:378-393 | the three fallback categories are distinct |
| TeacherDashboardService.TeacherRecommendations | services/teacher_dashboard_service.py:319-398 | without a model or when it raises, the fallback; otherwise the parsed reply |
| TeacherDashboardService.HistoryOf | services/teacher_dashboard_service.py:84-127 | as written: raises iff the history's dates mix naive and aware ones, with the comparison error; otherwise the intended history |
| TeacherDashboardService.HistoryOfFixed | services/teacher_dashboard_service.py:84-127 | the history names the student and holds the first 50 assessments, activities, visual aids and plans, the first 30 conversations and the intended last activity |
| TeacherDashboardService.Histories | services/teacher_dashboard_service.py:57-60 | a successful loop gives one intended history per student, in order |
| TeacherDashboardService.HistoriesFail | services/teacher_dashboard_service.py:57-60 | the loop succeeds iff every student's history does |
| TeacherDashboardService.DashboardFailsOnlyOnErrors | services/teacher_dashboard_service.py:29-82 | as written, the dashboard is the error record iff a history, the class analytics, the sort or the performance summary raise |
| TeacherDashboardService.DashboardCoversEveryStudent | services/teacher_dashboard_service.py:44-66 | a complete dashboard, as written or intended, counts the students, has one history per student in order, and lists at most twenty recent activities |
| TeacherDashboardService.GetTeacherCompleteDashboard | services/teacher_dashboard_service.py:29-82 | as written: the steps give the dashboard or the error record of the first step that raises |
| TeacherDashboardService.DashboardOf | services/teacher_dashboard_service.py:29-82 | as written: an error record carries the teacher and the time; a dashboard counts the students and carries the as-written class analytics |
| TeacherDashboardService.DashboardOfFixed | services/teacher_dashboard_service.py:29-82 | as intended: an error record carries the teacher and the time; a dashboard counts the students and carries the intended class analytics |
| TeacherDashboardService.DashboardFixedFailsOnlyOnErrors | services/teacher_dashboard_service.py:29-82 | as intended, the dashboard is the error record iff the class analytics or the performance summary raise |
| TeacherDashboardService.AwareDatesBreakDashboardAsWritten | services/teacher_dashboard_service.py:201-203 | as written, a student whose dates are all aware gets the subtraction error record; the intended dashboard fails only on the summary |
| TeacherDashboardService.CollectHistories | services/teacher_dashboard_service.py:57-60 | the loop gives each student's history, in order |
| ImageGenerator.StripFences | services/image_generator.py:190-196 | removing the whitespace and the fences never lengthens the code |
| ImageGenerator.FirstIndex | services/image_generator.py:202-208 | the index found satisfies the test and no earlier one does; none is found iff no element does |
| ImageGenerator.CleanMermaid | services/image_generator.py:187-213 | the cleaned code has no surrounding whitespace; when no line opens a diagram it is the fence-stripped text, stripped |
| ImageGenerator.RemoveFences | services/image_generator.py:190-196 | the strip and the three fence removals, one reassignment at a time, give `StripFences` |
| ImageGenerator.FindDiagramStart | services/image_generator.py:199-208 | the loop gives the index of the first line that opens a diagram, or -1 iff there is none |
| ImageGenerator.CleanMermaidCode | services/image_generator.py:187-213 | the steps give the cleaned code |
| ImageGenerator.StripLeftAppend | services/image_generator.py:211-213 | dropping leading whitespace of joined text stops inside the first part when it holds a non-whitespace character |
| ImageGenerator.StripRightKeepsPrefix | services/image_generator.py:213 | dropping trailing whitespace keeps a prefix that ends in a non-whitespace character |
| ImageGenerator.DiagramKeywordsAreSolid | services/image_generator.py:204-206 | every diagram keyword is non-empty and ends in a non-whitespace character |
| ImageGenerator.StrippedPrefix | services/image_generator.py:203-206 | a keyword the stripped line starts with also starts the line with its leading whitespace dropped |
| ImageGenerator.StartsWithAppend | services/image_generator.py:211 | appending text keeps a prefix |
| ImageGenerator.PrefixSurvivesTail | services/image_generator.py:211-213 | text after a line keeps the keyword that starts the line once leading whitespace is dropped |
| ImageGenerator.KeywordSurvivesTail | services/image_generator.py:211-213 | text after a line does not change which keyword its stripped form starts with |
| ImageGenerator.KeywordsSurviveTail | services/image_generator.py:204-213 | a stripped line that opens a diagram still opens it with text appended |
| ImageGenerator.JoinFirst | services/image_generator.py:211 | joined lines begin with the first line |
| ImageGenerator.JoinedLinesOpenDiagram | services/image_generator.py:210-213 | lines whose first line opens a diagram, joined and stripped, open the diagram |
| ImageGenerator.CleanedCodeOpensDiagram | services/image_generator.py:199-213 | when some line opens a diagram, the cleaned code starts with a diagram keyword |
| ImageGenerator.MermaidType | services/image_generator.py:123-132 | an unknown visual type gives "flowchart TD"; every type is a flowchart, a graph, a mind map or a timeline |
| ImageGenerator.TypeRequirements | services/image_generator.py:141-175 | three type-specific requirements for the five known types, two otherwise |
| ImageGenerator.ContentPart | services/image_generator.py:136 | the content sentence carries at most the first 500 characters of the content |
| ImageGenerator.PromptParts | services/image_generator.py:134-183 | the parts are the head, the content, the style, the type's requirements and the five closing requirements, in that order |
| ImageGenerator.ClosingRequirements | services/image_generator.py:177-183 | every prompt ends with five requirements |
| ImageGenerator.MermaidPrompt | services/image_generator.py:110-185 | the prompt opens by naming the diagram type, topic, subject and grade, and contains the content sentence |
| ImageGenerator.SafeName | services/image_generator.py:59-60 | spaces and slashes become underscores, every other character is kept, and the result is cut to `n` characters |
| ImageGenerator.PngFilename | services/image_generator.py:68-71 | the name is the type, the safe subject (15), the safe topic (20) and eight characters of the fresh id, joined by underscores, ending in ".png" |
| ImageGenerator.FallbackImage | services/image_generator.py:345-384 | the fallback file is named "fallback_{type}_…" in the output directory; it is a PNG iff drawing it succeeded, and the metadata says so, names the file, topic and subject and marks the image as a fallback |
| ImageGenerator.GenerateImage | services/image_generator.py:27-108 | a failed model call or conversion yields the fallback image; otherwise the PNG under its sanitised name in the output directory, with format "PNG" and the grade in its metadata |
| ImageGenerator.GenerateImageAlwaysNamesFile | services/image_generator.py:27-108 | whatever happens, the metadata's format is "PNG" iff the file name ends in ".png" |
| DaoErrorHandler.ClassifyException | utils/dao_error_handler.py:65-93 | the error names the operation; it is a connection error iff the message mentions permission, 403, connection or timeout; a validation error carries "Data validation failed: " and the message, any other error the message itself |
| DaoErrorHandler.HandleDaoErrors | utils/dao_error_handler.py:35-96 | a returned value passes unchanged unless it is `False` from a save_/update_/delete_/create_ operation, which becomes an operation error; a DAO error is re-raised unchanged; any other exception is classified under the operation |
| DaoErrorHandler.ValidateDaoResult | utils/dao_error_handler.py:98-139 | the result is returned unchanged unless it is `None` from a save_/update_ operation that is not a get_ one, `False` from a boolean operation, or not an instance of the expected type; a get_ operation may return `None`; a validation error only ever reports a type mismatch |
| DaoErrorHandler.EnsureDocumentId | utils/dao_error_handler.py:142-149 | a missing or empty id raises an operation error under the operation; any other id is returned unchanged |
| DaoErrorHandler.HandleServiceDaoErrors | utils/dao_error_handler.py:167-200 | a result passes unchanged; a DAO error becomes "Service '…' failed: " and its message, any other exception "Service '…' encountered an error: " and its message |
| DaoErrorHandler.FalseFromSaveIsOperationError | utils/dao_error_handler.py:53-64 | the `False` of a boolean operation becomes an operation error, and that error raised again is passed on as the same error |
| DaoErrorHandler.GetNoneAndZeroPass | utils/dao_error_handler.py:48-60 | a get_ operation returning `None` or `0` passes |
| FirestoreSerializer.ConvertFirestoreDatetime | utils/firestore_serializer.py:9-29 | no datetime is left; a datetime becomes its ISO string; a dict keeps exactly its keys and a list its length; every other value is returned as it is |
| FirestoreSerializer.ConvertPointwise | utils/firestore_serializer.py:24-27 | each list element and each dict value is converted on its own |
| FirestoreSerializer.ConvertPlainIsIdentity | utils/firestore_serializer.py:9-29 | a value without datetimes is left exactly as it is |
| FirestoreSerializer.ConvertIdempotent | utils/firestore_serializer.py:9-29 | converting twice is converting once |
| FirestoreSerializer.FirestoreToJson | utils/firestore_serializer.py:31-41 | the result holds no datetime, and a document keeps its keys and a list its length |
| RequestFields.RequiredText | routes/education.py:22-31 | accepted iff the submitted string meets the length bounds and is not blank; a length failure is pydantic's, a blank string the validator's error; an accepted value is the string stripped, non-empty |
| RequestFields.InRange | routes/education.py:21 | accepted iff the number lies between the bounds, and then unchanged |
| RequestFields.RangeOrDefault | routes/education.py:24 | an omitted number takes the default; a given one must lie in range |
| RequestFields.OneOf | routes/education.py:25 | accepted iff the string is one of the choices, and then unchanged |
| RequestFields.CleanList | routes/education.py:71 | no more items than submitted, none of them empty |
| RequestFields.CleanListStep | routes/education.py:71 | one more item is appended, stripped, unless it is blank |
| RequestFields.CleanedItemSource | routes/education.py:71 | every item kept is a non-blank submitted item, stripped |
| RequestFields.NonBlankItemKept | routes/education.py:71 | every non-blank submitted item is kept, stripped |
| RequestFields.CleanListEmpty | routes/education.py:71 | nothing is kept iff every item is blank |
| EducationRoutes.ActivityDifficulty | routes/education.py:25 | "medium" when left out; otherwise accepted iff it is easy, medium or hard |
| EducationRoutes.ValidateActivity | routes/education.py:19-31 | the request is accepted iff every field passes, and then holds the validated values and the defaults; otherwise exactly the failing fields are reported |
| EducationRoutes.ActivityFailures | routes/education.py:19-31 | a field is reported iff it failed |
| EducationRoutes.AcceptedActivityIsClean | routes/education.py:19-31 | an accepted activity has a grade of 1 to 12, a stripped non-empty topic, a duration of 5 to 180 (30 when left out) and one of the three difficulties |
| EducationRoutes.OptionalGrade | routes/education.py:36 | a grade level left out stays out; a given one is accepted iff it is 1 to 12 |
| EducationRoutes.ValidateVisualAid | routes/education.py:33-44 | the request is accepted iff the concept and the grade level pass, and then holds the stripped concept and the defaults; otherwise exactly the failing fields are reported |
| EducationRoutes.AddSorted | routes/education.py:65 | adding to an increasing list keeps it increasing and adds exactly the one value |
| EducationRoutes.SortedDistinct | routes/education.py:65 | the result is increasing and holds exactly the values given |
| EducationRoutes.IncreasingDeterminedByMembers | routes/education.py:65 | two increasing lists with the same members are equal, so the sorted distinct grades are unique |
| EducationRoutes.HeadIsLeast | routes/education.py:65 | the head of an increasing list is its least member |
| EducationRoutes.LaterThanHead | routes/education.py:65 | a member of the tail of an increasing list is larger than its head |
| EducationRoutes.HeadOrRest | routes/education.py:65 | a member other than the head lies in the tail |
| EducationRoutes.Grades | routes/education.py:58-65 | no grades is "At least one grade level is required"; a grade outside 1 to 12 is "Grade levels must be between 1 and 12"; otherwise the distinct grades, smallest first |
| EducationRoutes.AcceptedGrades | routes/education.py:58-65 | accepted grades come out increasing, each 1 to 12, none lost, and at most twelve of them |
| EducationRoutes.IncreasingWithinBound | routes/education.py:63-65 | an increasing list of values from 1 to `hi` has at most `hi` elements |
| EducationRoutes.Topics | routes/education.py:49-71 | accepted iff 1 to 10 topics were submitted, and then the non-blank topics, stripped |
| EducationRoutes.BlankTopicsAccepted | routes/education.py:67-71 | a list of blank topics passes and leaves no topic at all |
| EducationRoutes.Subject | routes/education.py:51 | "General" when left out; otherwise accepted iff at most 100 characters, and kept as submitted |
| EducationRoutes.ChoiceOrDefault | routes/education.py:53-54 | the default when left out; otherwise accepted iff it is one of the choices |
| EducationRoutes.ValidateLessonPlan | routes/education.py:46-71 | the request is accepted iff every field passes, and then holds the validated values and the defaults; otherwise exactly the failing fields are reported |
| EducationRoutes.LessonPlanFailures | routes/education.py:46-71 | a field is reported iff it failed |
| EducationRoutes.AcceptedLessonPlanIsClean | routes/education.py:46-71 | an accepted lesson plan has 1 to 12 distinct grades in increasing order, at most 10 non-blank topics and a duration of 15 to 180 (60 when left out) |
| PlanningRoutes.ClassId | routes/planning.py:26-37 | accepted iff at least one character and not blank; the value is stripped and non-empty |
| PlanningRoutes.PlanType | routes/planning.py:27-44 | "weekly" when left out; otherwise accepted iff it is daily, weekly or monthly, and kept; the error is the validator's message |
| PlanningRoutes.ListField | routes/planning.py:46-51 | a list left out stays out; a given one keeps its non-blank items, stripped |
| PlanningRoutes.ValidateLessonPlan | routes/planning.py:25-51 | the request is accepted iff the class id, the plan type and the duration pass, and then holds the validated values and cleaned lists; otherwise exactly the failing fields are reported |
| PlanningRoutes.LessonPlanFailures | routes/planning.py:25-51 | a field is reported iff it failed |
| PlanningRoutes.AcceptedLessonPlanIsClean | routes/planning.py:25-51 | an accepted plan has a stripped non-blank class id, one of the three plan types, a duration of 1 to 365 days (7 when left out) and lists without blank items |
| PlanningRoutes.CurriculumText | routes/planning.py:55-65 | accepted iff at least one character and not blank; the value is stripped and non-empty |
| PlanningRoutes.ValidateCurriculumPlan | routes/planning.py:54-65 | the request is accepted iff every field passes, and then holds the validated values; otherwise exactly the failing fields are reported |
| PlanningRoutes.CurriculumFailures | routes/planning.py:54-65 | a field is reported iff it failed |
| PlanningRoutes.AcceptedCurriculumPlanIsClean | routes/planning.py:54-65 | an accepted curriculum plan has a stripped non-blank class id and subject, a grade of 1 to 12 and a semester of 30 to 365 days (90 when left out) |
| PlanningRoutes.OptionalText | routes/planning.py:69-79 | a field left out stays out; a given one is accepted iff it is within its maximum length and not blank, and is then stripped |
| PlanningRoutes.ValidateUpdate | routes/planning.py:68-79 | the update is accepted iff title, description and notes pass, and then holds them checked; otherwise exactly the failing fields are reported |
| PlanningRoutes.UpdateFailures | routes/planning.py:68-79 | a field is reported iff it failed |
| PlanningRoutes.UpdatesHoldGivenFields | routes/planning.py:357 | the update holds exactly the fields that were given, with their values, and is empty iff none was; a given content counts even when empty |
| PlanningRoutes.UpdateBody | routes/planning.py:355-364 | an empty update raises a 400; otherwise the planning service's result or exception |
| PlanningRoutes.EmptyUpdateIsServerErrorAsWritten | routes/planning.py:357-374 | as written, an update with no field is answered 500, not 400 |
| PlanningRoutes.UpdateLessonPlanRejectsEmptyUpdate | routes/planning.py:340-374 | corrected: an empty update is answered 400; success iff the update is not empty and the service succeeds; a permission error is 403 and a value error 404 |
| PlanningRoutes.UpdateLessonPlan | routes/planning.py:340-374 | as intended: an empty update is a 400; a success only for a non-empty update, with the service's plan |
| PlanningRoutes.PlanTypeFilter | routes/planning.py:323-325 | no filter or an empty one passes; any other passes iff it is daily, weekly, monthly or curriculum, and otherwise raises a 400 |
| PlanningRoutes.ClassPlansBody | routes/planning.py:321-329 | an unknown plan type raises its 400; otherwise the service's plans or exception |
| PlanningRoutes.UnknownPlanTypeIsServerErrorAsWritten | routes/planning.py:324-336 | as written, the plan type "yearly" is answered 500, not 400 |
| PlanningRoutes.ClassPlansRejectsUnknownPlanType | routes/planning.py:305-336 | corrected: an unknown plan type is answered 400, and an accepted filter lists the service's plans |
| PlanningRoutes.ClassPlans | routes/planning.py:305-336 | as intended: an unknown plan type is a 400; a success only for an accepted filter, with the service's plans |
| PlanningRoutes.InCategory | routes/planning.py:471-472 | the filter keeps no more templates than there are |
| PlanningRoutes.InCategoryKeepsCategory | routes/planning.py:471-472 | the filter keeps exactly the templates of the category |
| PlanningRoutes.NoTemplateOfOtherCategory | routes/planning.py:471-472 | a category no template has lists none |
| PlanningRoutes.TemplatesForCategory | routes/planning.py:441-474 | without a category (or with an empty one) every template is listed; with one, exactly its templates, so an unknown category lists none |
| VisualAidRoutes.AssetType | routes/visual_aids.py:26-40 | "image" when left out; otherwise accepted iff it is image or video, and kept |
| VisualAidRoutes.OptionalGrade | routes/visual_aids.py:27 | a grade left out stays out; a given one is accepted iff it lies in 1..12, and kept |
| VisualAidRoutes.Subject | routes/visual_aids.py:28-46 | accepted iff left out or at most 100 characters and not whitespace only; kept stripped and non-empty; an empty string means no subject; whitespace only fails with the validator's message |
| VisualAidRoutes.VisualAidFailures | routes/visual_aids.py:24-46 | a field is reported iff its own check failed |
| VisualAidRoutes.ValidateVisualAid | routes/visual_aids.py:24-46 | the request is accepted iff every field passes, and then holds the validated values; otherwise exactly the failing fields are reported |
| VisualAidRoutes.AcceptedVisualAidIsClean | routes/visual_aids.py:25-46 | an accepted request has a stripped, non-empty prompt of at most 500 characters, a known asset type and a stripped, non-empty subject when it has one |
| VisualAidRoutes.DataPoints | routes/visual_aids.py:51-68 | 1 to 20 items are required; the non-blank ones are kept stripped; when none is left the validator's message is the error |
| VisualAidRoutes.DataPointsKeepNonBlank | routes/visual_aids.py:60-68 | accepted iff there are 1 to 20 items and at least one is not blank; every non-blank item appears stripped in the result, which holds 1 to 20 items |
| VisualAidRoutes.StudentsSeeOnlyTheirOwn | routes/visual_aids.py:214-217 | a student (or a user without a role) may view a user's aids iff it is that user |
| VisualAidRoutes.HistoryBody | routes/visual_aids.py:214-226 | a forbidden view is a 403; an unknown asset filter is a 400; otherwise the service's answer |
| VisualAidRoutes.HistoryRejectionsAreServerErrorsAsWritten | routes/visual_aids.py:216-232 | as written, every HTTP rejection raised inside the try (the 403 and the 400) is turned into a 500 by the catch-all clause |
| VisualAidRoutes.HistoryRejectsForbiddenViews | routes/visual_aids.py:195-232 | corrected: a forbidden view answers 403 and an unknown asset filter 400; success implies the caller may view; every other outcome is the one the code as written gives |
| VisualAidRoutes.History | routes/visual_aids.py:195-232 | as intended: 403 to anyone who may not view; a success only for a permitted view, with the service's list |
| VisualAidRoutes.Bump | routes/visual_aids.py:399-403 | counting a key keeps the keys already there in order, and appends the key only when it was absent |
| VisualAidRoutes.BumpCounts | routes/visual_aids.py:399-403 | counting a key adds one to its count and leaves every other key's count alone |
| VisualAidRoutes.TalliedCounts | routes/visual_aids.py:397-403 | each key's count in the tally is the number of documents carrying it |
| VisualAidRoutes.TalliedKeysDistinct | routes/visual_aids.py:397-403 | the tally holds each key once |
| VisualAidRoutes.TotalAppend | routes/visual_aids.py:397-403 | the total of a tally with one more entry grows by that entry's count |
| VisualAidRoutes.BumpTotal | routes/visual_aids.py:399-403 | counting a key raises the total by one |
| VisualAidRoutes.TalliedTotal | routes/visual_aids.py:397-403 | the counts of a tally add up to the number of keys counted |
| VisualAidRoutes.FirstMax | routes/visual_aids.py:411 | the chosen entry has the largest count, and every entry before it a strictly smaller one (the first maximum, as max over a dict gives) |
| VisualAidRoutes.Subjects | routes/visual_aids.py:399-400 | one subject key per document, in order |
| VisualAidRoutes.GradeKeys | routes/visual_aids.py:401-403 | at most one grade key per document |
| VisualAidRoutes.GradeKey | routes/visual_aids.py:401-403 | a grade key exactly for a truthy grade_level, beginning with "Grade " |
| VisualAidRoutes.CountAsset | routes/visual_aids.py:390-392 | the number of aids of one asset type never exceeds the number of aids |
| VisualAidRoutes.FirstUnhashableSubject | routes/visual_aids.py:399-400 | none iff every subject can be a dict key; otherwise the first document whose subject cannot |
| VisualAidRoutes.ImagesAndVideosAtMostTotal | routes/visual_aids.py:390-392 | images and videos together number at most the aids |
| VisualAidRoutes.GradeKeysOfTruthyGrades | routes/visual_aids.py:401-403 | one grade key per document with a grade set |
| VisualAidRoutes.StatsAreConsistent | routes/visual_aids.py:386-414 | the total is the number of aids; images plus videos are at most the total; the subject counts add up to the total, count each subject's occurrences and hold each subject once; the grade counts add up to the aids with a grade; there is a most used subject iff there is an aid |
| VisualAidRoutes.MostUsedSubjectIsFirstMax | routes/visual_aids.py:411 | with at least one aid, the most used subject is a counted subject with the largest count and a strictly larger one than every subject listed before it |
| VisualAidRoutes.SubjectsPrefix | routes/visual_aids.py:397-400 | one more loop step counts exactly one more subject |
| VisualAidRoutes.GradesPrefix | routes/visual_aids.py:401-403 | one more loop step counts the document's grade when it has one and changes nothing otherwise |
| VisualAidRoutes.ComputeStats | routes/visual_aids.py:386-414 | the loop computes the statistics the specification function defines, including the failure on an unhashable subject |
| VisualAidRoutes.UnhashablePersists | routes/visual_aids.py:397-400 | once the loop meets an unhashable subject, that first failure decides the outcome for the whole list |
| VisualAidRoutes.StatsBody | routes/visual_aids.py:381-414 | a forbidden view is a 403; a failing service passes its error on; otherwise the statistics of the aids |
| VisualAidRoutes.ForbiddenStatsAreServerErrorAsWritten | routes/visual_aids.py:383-418 | as written, the 403 raised inside the try is turned into a 500 by the catch-all clause |
| VisualAidRoutes.StatsRejectsForbiddenViews | routes/visual_aids.py:369-418 | corrected: a forbidden view answers 403; success iff the caller may view and the statistics can be computed; otherwise the outcome is the one the code as written gives |
| VisualAidRoutes.Stats | routes/visual_aids.py:369-418 | as intended: 403 to anyone who may not view; a success only for a permitted view, with the statistics of the service's list |
| VoiceRoutes.GenerateResponse | app/routes/voice.py:199-240 | an audio input gets the audio reply and a file input the file reply, whatever the text; a reply that quotes the input quotes it unchanged |
| VoiceRoutes.FirstMatchingGroupWins | app/routes/voice.py:213-240 | for any other input type, a keyword group's reply is chosen iff that group matches the lowercased input and no earlier group does (learning, greeting, help, code, math, science); the default reply iff no group matches |
| VoiceRoutes.TooLongToContain | app/routes/voice.py:213-238 | a keyword longer than the input cannot occur in it |
| VoiceRoutes.ThisIsAGreeting | app/routes/voice.py:213-222 | "this" gets the greeting reply, because matching is by substring and it contains "hi" |
| VoiceRoutes.ChooseInput | app/routes/voice.py:33-71 | a 400 iff no input is given; otherwise a message wins over text, text over an audio file and an audio file over any other upload; exactly the two upload kinds count one file |
| VoiceRoutes.AssistantFollowsPriority | app/routes/voice.py:22-98 | the assistant answers 400 iff nothing is given (the re-raise keeps it a 400), and otherwise answers the input chosen by priority |
| VoiceRoutes.VoiceAssistant | app/routes/voice.py:22-98 | a success iff some input was given, answering the chosen input with its type and the generated reply |
| VoiceRoutes.ProcessTextBody | app/routes/voice.py:247-257 | the body succeeds iff the request's text is a non-empty string; missing or empty text raises a 400; the reply is the one for that text as plain text |
| VoiceRoutes.ProcessTextAsWritten | app/routes/voice.py:242-260 | as written: a success iff the text is a truthy string, with the generated reply |
| VoiceRoutes.MissingTextIsServerErrorAsWritten | app/routes/voice.py:249-260 | as written, a request without text answers 500 carrying the 400's printed form, because the catch-all clause wraps the HTTP error |
| VoiceRoutes.PrintedBadRequest | app/routes/voice.py:259-260 | the printed form of the 400 is "400: No text provided" |
| VoiceRoutes.FourHundred | app/routes/voice.py:259-260 | the status 400 prints as "400" |
| VoiceRoutes.ProcessTextRejectsMissingText | app/routes/voice.py:242-260 | corrected: missing or empty text answers 400; every other request answers as written; success iff the text is a non-empty string |
| VoiceRoutes.ProcessText | app/routes/voice.py:242-260 | as intended: a missing or falsy text is a 400; a success carries the generated reply |
| RouteErrors.Escaped | app/routes/voice.py:94-98 | an exception escaping a handler becomes an error response: an HTTP error keeps its status and detail, anything else is a 500 |
| RouteErrors.FirstMatch | routes/visual_aids.py:227-232 | the first except clause that catches the exception is chosen, and none is chosen iff no clause catches it |
| RouteErrors.Handled | routes/planning.py:369-374 | a caught exception always ends in an error response |
| RouteErrors.Route | routes/planning.py:366-374 | a handler succeeds iff its body does, with the body's value |
| RouteErrors.KeepingHttp | app/routes/voice.py:94-98 | adding the re-raise clause puts it in front of the existing clauses and keeps them in order |
| RouteErrors.KeepingHttpPassesHttpErrors | app/routes/voice.py:94-98 | with the re-raise clause in front, an HTTP error from the body comes back with its own status and detail, and every other outcome is unchanged |
| RouteErrors.CatchAllSwallowsHttpErrors | routes/visual_aids.py:416-418 | a bare catch-all clause turns any HTTP error raised inside the try into a 500 |
| Values.DateOfAsWritten | services/visual_aid_service.py:256 | as written: a missing or falsy timestamp gives no date; a string gives its part before the first "T"; any other value, a datetime included, raises because it has no split |
| Values.DateOf | services/planning_service.py:313 | corrected: a datetime gives the date part of its ISO form, exactly as that ISO string would; every other value is treated as written; a date is produced iff the stamp is falsy, a string or a datetime |
| Text.CleanJsonReply | services/voice_session_service.py:192-194 | a reply that does not open with a fence is only whitespace-stripped |
| Text.FencedReplyIsCleaned | services/assessment_service.py:57-59 | a reply fenced as a JSON block is cleaned down to its stripped body, when the body holds no "json" and ends without a backtick |
| Text.CleanFencedSteps | services/voice_session_service.py:193-194 | a reply that opens with a fence and ends with a backtick takes the fence branch, so the result is its backticks stripped and its "json" removed, then stripped |

## Left out

- Calls to the generative model, the agent engine, speech synthesis and transcription are not modelled. Each is an argument that either returns text (or a decoded value) or fails, because these are foreign network calls.
- `json.loads` is not modelled as a grammar. It is a decoder argument that yields a field map or fails.
- The document store is a `map` per collection. Query plans, indexes, server timestamps and network failures become arguments: a stored timestamp is a `DateTime` value, and a store call either succeeds or fails as its argument says.
- Collection set-up and status helpers are not modelled, because they only talk to the store: `collection_exists`, `create_collection_if_not_exists`, `check_assessments_collection`, `initialize_collections` and `get_all_collections_status` in `dao/assessment_dao.py`, and `ensure_collection_exists` in `utils/dao_error_handler.py`.
- DAO operations that only read, write or delete one document are not modelled. They carry no logic beyond the store call and its error handling, which `DaoErrorHandler` models once:
  - assessments: `get_assessment`, `get_user_assessments`, `save_user_performance` and `delete_assessment`;
  - planning: `get_lesson_plan`, `get_user_lesson_plans`, `update_lesson_plan`, `save_lesson_template`, `get_lesson_templates`, `save_curriculum_standard`, `get_curriculum_standards` and `delete_lesson_plan`;
  - content: `save_activity`, `save_visual_aid`, `get_user_activities`, `get_user_visual_aids`, `save_content_template`, `get_content_templates`, `delete_activity` and `delete_visual_aid`;
  - voice conversations: `get_conversation_history`, `update_conversation_feedback` and `delete_conversation`;
  - visual aids: `get_visual_aid_templates`.
- `get_assessment_history` in `services/assessment_service.py` is not modelled. It passes the DAO's answer through.
- `process_voice_with_session`, `process_session_text_command` and `_generate_contextual_audio` in `services/voice_session_service.py` are not modelled. They combine the session store with speech transcription and synthesis, and those are foreign calls. They also call a text command function that the voice assistant service does not define. The session store operations they use are modelled.
- `_generate_story_audio` in `services/activities_service.py` is not modelled. It is speech synthesis and file output.
- `_get_teacher_students` in `services/teacher_dashboard_service.py` is not modelled. It is a store query; the dashboard takes the teacher's students as an argument.
- `_convert_mermaid_to_png`, `_create_mermaid_file`, `_create_fallback_png` and `_create_simple_fallback_png` in `services/image_generator.py` are not modelled. They run a subprocess or draw and write files; `generate_image` takes whether they succeed as arguments.
- `safe_json_dumps` in `utils/firestore_serializer.py` is not modelled. It is text serialisation.
- `_analyze_content_context`, `_analyze_assessment_context`, `_analyze_visual_context` and the engine set-up, logging and handler entry points of the agents are not modelled. They build a context for the engine, call it and log the result.
- The orchestrator agent's `handle_orchestration_request`, `_execute_orchestration`, `_convert_to_pipeline_request` and `_enhance_with_adk` are not modelled. They forward a request to the pipeline and the engine. The pipeline itself is modelled.
- The pipeline's `_log_pipeline_execution` (a store write) and the wrappers `run_complete_pipeline`, `run_planning_only`, `run_content_only` and `run_pipeline` are not modelled. The wrappers only build a request and call `execute_pipeline`.
- Route handlers that only validate, call one service and wrap its answer are not modelled beyond their validators and error clauses:
  - education: `create_activity`, `create_visual_aid`, `create_lesson_plan`, `get_templates` and `health_check`;
  - planning: `create_lesson_plan`, `create_curriculum_plan`, `get_lesson_plan_details`, `delete_lesson_plan_endpoint`, `get_my_lesson_plans`, `get_available_subjects` and `get_plan_types`;
  - visual aids: `create_visual_aid`, `create_infographic`, `search_visual_aid_library`, `delete_visual_aid_endpoint`, `get_my_visual_aids` and `get_visual_aid_categories`.
- The voice routes' `save_uploaded_file`, `list_uploaded_files`, `chat_assistant` and `voice_health_check` are not modelled. They are file I/O or fixed replies around `generate_response`, which is modelled. An upload is represented by its presence and its file name.
- `generate_response` is modelled by the category of its reply and the input it quotes, not by the reply's full text.
- `round(x, 2)` is not modelled. Averages, rates and ratios are exact reals, and confidence scores are integer hundredths.
- Request fields sent as an explicit JSON `null` are treated like fields left out. The model does not separate the two.
- Async execution, logging and the process-wide singletons are not modelled. Every `await` here runs sequentially, and nothing else observes the logs.
- GenerateLessonPlan: the planning DAO has no `get_class_details`, `get_holidays`, `get_engagement_metrics` or `get_class_lesson_plans`, and its `save_lesson_plan` takes two arguments where `services/planning_service.py` passes one (lines 57-70 and 103). As written these calls raise before any plan is built. The model takes their answers as arguments, so it describes the service as if the DAO offered them.
- GenerateCurriculumPlan: the same holds for `get_class_details` and the one-argument `save_lesson_plan` (lines 161 and 237). The model takes their answers as arguments.
- GetClassLessonPlans: `get_class_lesson_plans` does not exist on the planning DAO (line 304). The model takes the fetched plans, or the failure to fetch them, as an argument.
- Text: `Lower`, `TitleFrom`, `Strip`, the word split and `SplitOn` fold case and recognise whitespace for ASCII characters only. Python's string methods do this for all of Unicode.
- DeleteVisualAid: the removal of the local image file under `temp_image` (`services/visual_aid_service.py:331-333`) is not modelled. It is file I/O, and its failure is ignored by the code.
- Counter: a stored counter that is a float or a bool is treated as unreadable, so the update fails. Python's `+ 1` would accept both.
- UserAnalytics: the error text is `SumError`, the fixed start of Python's `TypeError` message; the operand types that Python appends are left out.
- ClassAnalyticsWith: the error text of a failing score sum names the running total as an `int`, where Python names the type it has at that point.
- Values are compared structurally. In Python `1`, `1.0` and `True` are equal and hash alike as set members and dict keys; the model keeps them apart. This matters for the subject and grade tallies of the visual-aid statistics and for the subject and grade sets of the planning analytics.
- PlanningDao.AnalyticsReportStoredValues: the subject and grade sets are `set<Value>`, which keep `1`, `1.0` and `True` apart where the Python sets of `dao/planning_dao.py:274-288` merge them, so `unique_subjects`, `unique_grade_levels`, `subjects_taught` and `grade_levels_taught` can differ on such stored values.
- PlanningDao.GetPlanningAnalytics: returns that report, so the same gap applies to its subject and grade sets and counts.
- TeacherDashboardService.Moment: a truthy `created_at` that is neither a string nor a datetime (an int, a list, a dict or `True`) gives no date, where `services/teacher_dashboard_service.py:408-415` collects it and the later `max` then raises `TypeError`. No writer of the program stores such a value.
- VoiceSessionService.SessionStore.GetUserActiveSessions: the sessions are a `map`, so the order of the returned records is not modelled; `services/voice_session_service.py:350-354` returns them in the dictionary's insertion order.
- VisualAidStore.SearchVisualAids: the store's range query returns its matches ordered by topic; the model keeps them in saving order. Which aids match, and the limit, are modelled.
- RecentActivitiesAsWritten: the `TypeError` of a failed sort is one fixed message. Timestamps of one kind are assumed to compare without error (lists of comparable items included), and every stored `datetime` is taken as offset-aware.
- AssessmentAgent.GenerateRecommendations: an engine list holding a non-string item counts as no list. As written, that item would reach the response and fail its validation.
- ContentAgent.GenerateRecommendations: an engine list holding a non-string item counts as no list. As written, that item would reach the response and fail its validation.
- PlannerAgent.GenerateRecommendations: an engine list holding a non-string item counts as no list. As written, that item would reach the response and fail its validation.
- VisualAidAgent.GenerateRecommendations: an engine list holding a non-string item counts as no list. As written, that item would reach the response and fail its validation.

## Findings

| source | as written | input that shows it | evidently intended | confidence | as-written member | corrected member |
|---|---|---|---|---|---|---|
| orchestrator/lesson_pipeline.py:358-359 | `visual_aids` is set to the visual stage's `visual_content` dict, but the response types it as a list of dicts | a run with visual aids whose visual stage returns its `visual_content` dict | the visual content wrapped in a list, so the response validates | not executed | LessonPipeline.VisualStageEndsInErrorResponse | LessonPipeline.FixedPipelineSucceeds |
| agents/visual_aid_agent.py:225-229 | the section counts are written `3-5`, `2-3` and `4-6`, which Python evaluates as subtractions | the visual types "infographic", "chart" and "poster" | the range kept as text, such as "3-5", like the other entries' "variable" | not executed | VisualAidAgent.InfographicDesignAsksNegativeSections | VisualAidAgent.DesignSpecificationsFixed |
| services/activities_service.py:414 | the badge listing calls `split` on `assigned_at`, which the badge store writes as a `datetime` | any badge that `assign_badge` stored | the date part of the assignment time | not executed | ActivitiesService.StoredBadgesBreakListingAsWritten | ActivitiesService.BadgeBook.GetUserBadgesFixed |
| services/planning_service.py:313 | the class plan listing calls `split` on `created_at`, which the planning store writes as a server timestamp, read back as a `datetime` | a plan whose `created_at` is a datetime | the date part of the creation time | not executed | PlanningService.StampedPlansBreakListingAsWritten | PlanningService.GetClassLessonPlansFixed |
| services/visual_aid_service.py:256 | the aid listing calls `split` on `created_at`, which `save_visual_aid` stores as a `datetime` | any aid that `save_visual_aid` stored | the date part of the creation time | not executed | VisualAidService.GetUserVisualAids | VisualAidService.GetUserVisualAidsFixed |
| services/visual_aid_service.py:358-368 | the fallback calls a generator method that does not exist, so it always lands on the static placeholder | any failed generation | the fallback description the generator draws, at its own file path | not executed | VisualAidService.GenerateVisualAid | VisualAidService.GenerateVisualAidFixed |
| services/assessment_service.py:27-28 | quiz difficulty reads a "performance" entry that no writer of the performance document stores | a student whose first quiz scored 10 of 10 | the difficulty recommended from the stored statistics | not executed | AssessmentService.PerfectScoreStillEasyAsWritten | AssessmentService.GenerateQuizFixed |
| dao/visual_aid_dao.py:143-144 | the topic range query lower-cases the query but not the stored topic | the stored topic "Photosynthesis" and the query "Photosynthesis" | a case-insensitive prefix match | not executed | VisualAidDao.CapitalisedTopicMissedAsWritten | VisualAidDao.VisualAidStore.SearchVisualAidsFixed |
| services/teacher_dashboard_service.py:201-203 | the naive `utcnow()` is subtracted from an offset-aware last activity | a student whose activity dates come from server timestamps | days since the last activity, both times in UTC | not executed | TeacherDashboardService.AwareDatesBreakDashboardAsWritten | TeacherDashboardService.DashboardFixedFailsOnlyOnErrors |
| services/teacher_dashboard_service.py:400-417 | `max` compares offset-aware and naive datetimes, which raises | one activity date with an offset and one without | the latest of the dates, compared in UTC | not executed | TeacherDashboardService.LastActivityAsWritten | TeacherDashboardService.LastActivity |
| services/teacher_dashboard_service.py:273 | the sort key `x.get("timestamp") or datetime.min` puts the naive `datetime.min` beside offset-aware server timestamps, and comparing them raises | one stored assessment and one lesson plan without `created_at` | entries without a timestamp sorted last, the rest newest first | not executed | TeacherDashboardService.MissingTimestampBreaksRecentActivities | TeacherDashboardService.RecentActivitiesAreNewest |
| routes/planning.py:357-374 | the 400 for an empty update is raised inside the `try`, and the catch-all clause turns it into a 500 | an update with no field set | a 400 | not executed | PlanningRoutes.EmptyUpdateIsServerErrorAsWritten | PlanningRoutes.UpdateLessonPlanRejectsEmptyUpdate |
| routes/planning.py:324-336 | the 400 for an unknown plan type is raised inside the `try`, and the catch-all clause turns it into a 500 | the plan type "yearly" | a 400 | not executed | PlanningRoutes.UnknownPlanTypeIsServerErrorAsWritten | PlanningRoutes.ClassPlansRejectsUnknownPlanType |
| routes/visual_aids.py:216-232 | the 403 and the 400 are raised inside the `try`, and the catch-all clause turns them into a 500 | a student asking for another user's aids | a 403 | not executed | VisualAidRoutes.HistoryRejectionsAreServerErrorsAsWritten | VisualAidRoutes.HistoryRejectsForbiddenViews |
| routes/visual_aids.py:383-418 | the 403 is raised inside the `try`, and the catch-all clause turns it into a 500 | a student asking for another user's statistics | a 403 | not executed | VisualAidRoutes.ForbiddenStatsAreServerErrorAsWritten | VisualAidRoutes.StatsRejectsForbiddenViews |
| app/routes/voice.py:247-260 | the 400 for missing text is raised inside the `try`, and the catch-all clause turns it into a 500 | a request with no text | a 400 | not executed | VoiceRoutes.MissingTextIsServerErrorAsWritten | VoiceRoutes.ProcessTextRejectsMissingText |
