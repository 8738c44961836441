/**
 * The visual aid agent's deterministic policies: the design specification
 * tables (layout, colour palette, typography, imagery, accessibility), the
 * interactive elements, how ADK enhancement branches, recommendations,
 * confidence, next steps and the fallback visual. Visual content
 * generation and every reasoning-engine call are oracles.
 */
module VisualAidAgent {
  import opened Wrappers
  import opened Text
  import opened Values
  import opened AgentPolicy

  /** The fields of `VisualAidRequest` the policies read. */
  datatype VisualAidRequest = VisualAidRequest(
    topic: string,
    visualType: string,
    gradeLevel: string,
    style: string,
    colorScheme: string,
    dimensions: string,
    textAmount: string,
    accessibilityFeatures: bool)

  /** What the reasoning engine answers to each request; `Err` when the call raises. */
  datatype EngineReplies = EngineReplies(
    enhancement: Result<Value, string>,
    optimization: Result<Value, string>,
    recommendations: Result<Value, string>)

  // ---------------------------------------------------------------------
  // Layout
  // ---------------------------------------------------------------------

  /** The visual types the layout table knows. */
  predicate KnownLayout(visualType: string)
  {
    visualType in {"infographic", "diagram", "chart", "presentation", "poster", "mind_map"}
  }

  function Layout(structure: string, sections: Value): Record
  {
    map["structure" := Str(structure), "sections" := sections]
  }

  /**
   * `_get_layout_specs` as written: the section counts of infographics,
   * charts and posters are the Python expressions `3-5`, `2-3` and `4-6`,
   * which evaluate to the integers -2, -1 and -2.
   */
  function LayoutSpecsAsWritten(visualType: string): Record
  {
    if visualType == "infographic" then Layout("vertical_flow", Int(3 - 5))
    else if visualType == "diagram" then Layout("hierarchical", Str("variable"))
    else if visualType == "chart" then Layout("data_focused", Int(2 - 3))
    else if visualType == "presentation" then Layout("slide_based", Str("per_slide"))
    else if visualType == "poster" then Layout("poster_layout", Int(4 - 6))
    else if visualType == "mind_map" then Layout("radial", Str("branching"))
    else Layout("flexible", Int(3))
  }

  /** An infographic's layout, as written, asks for a negative number of sections. */
  lemma InfographicSectionsNegative()
    ensures LayoutSpecsAsWritten("infographic")["sections"] == Int(-2)
    ensures LayoutSpecsAsWritten("chart")["sections"] == Int(-1)
    ensures LayoutSpecsAsWritten("poster")["sections"] == Int(-2)
  {
  }

  /**
   * `_get_layout_specs` with the section ranges kept as the ranges they
   * denote ("3-5", "2-3", "4-6"), like the other non-numeric entries. Every
   * layout has a structure and a section count, an unknown type gets the
   * flexible three-section layout, and no layout asks for a non-positive
   * number of sections.
   */
  function LayoutSpecs(visualType: string): (r: Record)
    ensures r.Keys == {"structure", "sections"}
    ensures !KnownLayout(visualType) <==> r == Layout("flexible", Int(3))
    ensures r["sections"].Int? ==> r["sections"].i > 0
    ensures r["structure"] == LayoutSpecsAsWritten(visualType)["structure"]
  {
    if visualType == "infographic" then Layout("vertical_flow", Str("3-5"))
    else if visualType == "diagram" then Layout("hierarchical", Str("variable"))
    else if visualType == "chart" then Layout("data_focused", Str("2-3"))
    else if visualType == "presentation" then Layout("slide_based", Str("per_slide"))
    else if visualType == "poster" then Layout("poster_layout", Str("4-6"))
    else if visualType == "mind_map" then Layout("radial", Str("branching"))
    else Layout("flexible", Int(3))
  }

  // ---------------------------------------------------------------------
  // Colour palette
  // ---------------------------------------------------------------------

  function Palette(primary: string, secondary: string, accent: string): Record
  {
    map["primary" := Str(primary), "secondary" := Str(secondary), "accent" := Str(accent)]
  }

  /** The palette of a scheme; schemes other than pastel and monochrome get the vibrant one. */
  function BasePalette(colorScheme: string): Record
  {
    if colorScheme == "pastel" then Palette("#FFB6C1", "#98FB98", "#87CEEB")
    else if colorScheme == "monochrome" then Palette("#333333", "#666666", "#999999")
    else Palette("#FF6B6B", "#4ECDC4", "#45B7D1")
  }

  /**
   * `_get_color_palette`: the scheme's three colours (an unknown scheme,
   * `brand_colors` included, falls back to vibrant) plus a brightness that
   * is high for elementary and primary grades, moderate for high school and
   * university, and absent for any other grade.
   */
  function ColorPalette(colorScheme: string, gradeLevel: string): (r: Record)
    ensures r.Keys == {"primary", "secondary", "accent"} + (if "brightness" in r then {"brightness"} else {})
    ensures forall k :: k in BasePalette(colorScheme) ==> k in r && r[k] == BasePalette(colorScheme)[k]
    ensures "brightness" in r <==> gradeLevel in {"elementary", "primary", "high_school", "university"}
    ensures gradeLevel in {"elementary", "primary"} ==> r["brightness"] == Str("high")
    ensures gradeLevel in {"high_school", "university"} ==> r["brightness"] == Str("moderate")
  {
    var base := BasePalette(colorScheme);
    if gradeLevel in {"elementary", "primary"} then base["brightness" := Str("high")]
    else if gradeLevel in {"high_school", "university"} then base["brightness" := Str("moderate")]
    else base
  }

  /** Every scheme the table does not list gets exactly the vibrant palette. */
  lemma UnknownSchemeIsVibrant(colorScheme: string, gradeLevel: string)
    requires colorScheme !in {"vibrant", "pastel", "monochrome"}
    ensures ColorPalette(colorScheme, gradeLevel) == ColorPalette("vibrant", gradeLevel)
  {
  }

  // ---------------------------------------------------------------------
  // Typography, imagery, accessibility
  // ---------------------------------------------------------------------

  /** Heading, body and caption sizes. */
  datatype FontSizes = FontSizes(heading: nat, body: nat, caption: nat)

  const ElementarySizes := FontSizes(24, 16, 12)

  /** The size table, defaulting to the elementary sizes for unlisted grades. */
  function FontSizesFor(gradeLevel: string): (s: FontSizes)
    ensures s.heading > s.body > s.caption > 0
    ensures gradeLevel !in {"middle_school", "high_school"} ==> s == ElementarySizes
  {
    if gradeLevel == "middle_school" then FontSizes(22, 14, 11)
    else if gradeLevel == "high_school" then FontSizes(20, 13, 10)
    else ElementarySizes
  }

  /** The older the grade, the smaller every size. */
  lemma FontSizesShrinkWithGrade()
    ensures var e, m, h := FontSizesFor("elementary"), FontSizesFor("middle_school"), FontSizesFor("high_school");
      e.heading > m.heading > h.heading && e.body > m.body > h.body && e.caption > m.caption > h.caption
  {
  }

  function SizesValue(s: FontSizes): Value
  {
    Obj(map["heading" := Int(s.heading), "body" := Int(s.body), "caption" := Int(s.caption)])
  }

  /** `_get_typography_specs`: the grade's sizes, medium weight exactly for detailed text, fixed family and spacing. */
  function TypographySpecs(gradeLevel: string, textAmount: string): (r: Record)
    ensures r.Keys == {"font_family", "sizes", "weight", "line_spacing"}
    ensures r["sizes"] == SizesValue(FontSizesFor(gradeLevel))
    ensures r["weight"] == Str("medium") <==> textAmount == "detailed"
    ensures r["weight"] == Str("normal") <==> textAmount != "detailed"
  {
    map[
      "font_family" := Str("Sans-serif, Educational"),
      "sizes" := SizesValue(FontSizesFor(gradeLevel)),
      "weight" := Str(if textAmount == "detailed" then "medium" else "normal"),
      "line_spacing" := Real(1.4)]
  }

  /** `_get_imagery_specs`: vector illustrations exactly for the educational style, outline icons exactly for the minimal one. */
  function ImagerySpecs(style: string): (r: Record)
    ensures r.Keys == {"style", "illustration_type", "icon_style", "image_ratio", "topic_relevance"}
    ensures r["style"] == Str(style)
    ensures r["illustration_type"] == Str("vector") <==> style == "educational"
    ensures r["icon_style"] == Str("outline") <==> style == "minimal"
  {
    map[
      "style" := Str(style),
      "illustration_type" := Str(if style == "educational" then "vector" else "mixed"),
      "icon_style" := Str(if style == "minimal" then "outline" else "filled"),
      "image_ratio" := Str("16:9"),
      "topic_relevance" := Str("high")]
  }

  /** `_get_accessibility_specs`: disabled is `enabled` alone; enabled adds the five requirements. */
  function AccessibilitySpecs(enabled: bool): (r: Record)
    ensures "enabled" in r && r["enabled"] == Bool(enabled)
    ensures !enabled ==> r.Keys == {"enabled"}
    ensures enabled ==> r.Keys == {"enabled", "contrast_ratio", "alt_text", "color_blind_safe", "large_text_support", "screen_reader_compatible"}
    ensures enabled ==> "alt_text" in r && r["alt_text"] == Str("required")
  {
    if !enabled then map["enabled" := Bool(false)]
    else
      assert "alt_text"[0] != "enabled"[0];
      map[
      "enabled" := Bool(true),
      "contrast_ratio" := Str("4.5:1 minimum"),
      "alt_text" := Str("required"),
      "color_blind_safe" := Bool(true),
      "large_text_support" := Bool(true),
      "screen_reader_compatible" := Bool(true)]
  }

  /**
   * `_generate_design_specifications`: one entry per table, each chosen by
   * the request; the layout is the one `_get_layout_specs` gives as written.
   */
  function DesignSpecifications(req: VisualAidRequest): (r: Record)
    ensures r.Keys == {"layout", "color_palette", "typography", "imagery", "accessibility"}
    ensures r["layout"] == Obj(LayoutSpecsAsWritten(req.visualType))
    ensures r["typography"] == Obj(TypographySpecs(req.gradeLevel, req.textAmount))
  {
    map[
      "layout" := Obj(LayoutSpecsAsWritten(req.visualType)),
      "color_palette" := Obj(ColorPalette(req.colorScheme, req.gradeLevel)),
      "typography" := Obj(TypographySpecs(req.gradeLevel, req.textAmount)),
      "imagery" := Obj(ImagerySpecs(req.style)),
      "accessibility" := Obj(AccessibilitySpecs(req.accessibilityFeatures))]
  }

  /**
   * The design specification with the section ranges kept as ranges: it
   * differs from the one as written in the layout alone, and never asks for
   * a non-positive number of sections.
   */
  function DesignSpecificationsFixed(req: VisualAidRequest): (r: Record)
    ensures r.Keys == DesignSpecifications(req).Keys
    ensures forall k :: k in r && k != "layout" ==> r[k] == DesignSpecifications(req)[k]
    ensures r["layout"].Obj? && "sections" in r["layout"].fields
    ensures r["layout"].fields["sections"].Int? ==> r["layout"].fields["sections"].i > 0
  {
    DesignSpecifications(req)["layout" := Obj(LayoutSpecs(req.visualType))]
  }

  // ---------------------------------------------------------------------
  // Interactive elements and ADK enhancement
  // ---------------------------------------------------------------------

  function Element(kind: string, description: string): Value
  {
    Obj(map["type" := Str(kind), "description" := Str(description)])
  }

  /** The visual types that have interactive elements. */
  predicate HasInteractiveElements(visualType: string)
  {
    visualType in {"infographic", "presentation", "diagram"}
  }

  /** `_generate_interactive_elements`: two elements for infographics, presentations and diagrams, none otherwise. */
  function InteractiveElements(visualType: string): (r: seq<Value>)
    ensures |r| == 2 <==> HasInteractiveElements(visualType)
    ensures |r| == 0 <==> !HasInteractiveElements(visualType)
  {
    if visualType == "infographic" then
      [Element("hover_info", "Additional details on hover"), Element("clickable_sections", "Expandable content areas")]
    else if visualType == "presentation" then
      [Element("slide_transitions", "Smooth slide animations"), Element("embedded_quiz", "Interactive questions")]
    else if visualType == "diagram" then
      [Element("zoom_functionality", "Zoom into diagram sections"), Element("step_by_step", "Sequential revelation")]
    else []
  }

  /** The visual types `_enhance_with_adk` attaches interactive elements to; diagrams are not among them. */
  predicate GetsInteractiveElements(visualType: string)
  {
    visualType in {"presentation", "infographic"}
  }

  /** Whenever elements are attached, there are two of them: the attached list is never empty. */
  lemma AttachedElementsNonEmpty(visualType: string)
    ensures GetsInteractiveElements(visualType) ==> |InteractiveElements(visualType)| == 2
    ensures visualType == "diagram" ==> !GetsInteractiveElements(visualType) && |InteractiveElements(visualType)| == 2
  {
  }

  /**
   * `_enhance_with_adk`: without an engine the content is only marked
   * unavailable; when the enhancement call raises it is marked failed; when
   * it answers, the answer is recorded and presentations and infographics
   * get their interactive elements. No other field changes.
   */
  function EnhanceWithAdk(content: Record, req: VisualAidRequest, engineExists: bool, reply: Result<Value, string>): (r: Record)
    ensures r.Keys == content.Keys + {"adk_enhancement"} + (if "interactive_elements" in r then {"interactive_elements"} else {})
    ensures forall k :: k in content && k != "adk_enhancement" && k != "interactive_elements" ==> r[k] == content[k]
    ensures !engineExists ==> r["adk_enhancement"] == UnavailableMarker()
    ensures engineExists && reply.Err? ==> r["adk_enhancement"] == FailedMarker()
    ensures engineExists && reply.Ok? ==> r["adk_enhancement"] == reply.value
    ensures engineExists && reply.Ok? && GetsInteractiveElements(req.visualType) ==>
      "interactive_elements" in r && r["interactive_elements"] == List(InteractiveElements(req.visualType))
    ensures "interactive_elements" in content && !(engineExists && reply.Ok? && GetsInteractiveElements(req.visualType)) ==>
      r["interactive_elements"] == content["interactive_elements"]
  {
    if !engineExists then content["adk_enhancement" := UnavailableMarker()]
    else if reply.Err? then content["adk_enhancement" := FailedMarker()]
    else
      var enhanced := content["adk_enhancement" := reply.value];
      if GetsInteractiveElements(req.visualType) then
        enhanced["interactive_elements" := List(InteractiveElements(req.visualType))]
      else enhanced
  }

  // ---------------------------------------------------------------------
  // Recommendations, confidence, next steps
  // ---------------------------------------------------------------------

  const TestWithAudience := "Test visual with target audience for effectiveness"
  const EnsureLegible := "Ensure all text is legible at intended viewing size"
  const LogicalFlow := "Maintain logical flow from top to bottom"
  const DataLabels := "Include clear data labels and legends"
  const VerifyAccessibility := "Verify accessibility compliance with screen readers"

  /** The item the `elif` chain adds: infographics, then charts, then requests with accessibility features. */
  function TypeRecommendation(req: VisualAidRequest): (r: seq<string>)
    ensures |r| <= 1
  {
    if req.visualType == "infographic" then [LogicalFlow]
    else if req.visualType == "chart" then [DataLabels]
    else if req.accessibilityFeatures then [VerifyAccessibility]
    else []
  }

  /** Which item the `elif` chain picks: infographics and charts never get the accessibility item. */
  lemma TypeRecommendationCases(req: VisualAidRequest)
    ensures TypeRecommendation(req) == [LogicalFlow] <==> req.visualType == "infographic"
    ensures TypeRecommendation(req) == [DataLabels] <==> req.visualType == "chart"
    ensures TypeRecommendation(req) == [VerifyAccessibility] <==>
      req.visualType !in {"infographic", "chart"} && req.accessibilityFeatures
    ensures TypeRecommendation(req) == [] <==> req.visualType !in {"infographic", "chart"} && !req.accessibilityFeatures
  {
  }

  /**
   * `_generate_recommendations`: the two fixed items, at most one item of
   * the `elif` chain, then the engine's list when it returned one of
   * strings, cut to five.
   */
  function GenerateRecommendations(req: VisualAidRequest, engineUsable: bool, reply: Result<Value, string>): (r: seq<string>)
    ensures 2 + |TypeRecommendation(req)| <= |r| <= 5
    ensures r[..2 + |TypeRecommendation(req)|] == [TestWithAudience, EnsureLegible] + TypeRecommendation(req)
    ensures !engineUsable || reply.Err? ==> |r| == 2 + |TypeRecommendation(req)|
    ensures engineUsable && reply.Ok? && StringItems(reply.value).Some? ==>
      r[2 + |TypeRecommendation(req)|..] == Take(StringItems(reply.value).value, 3 - |TypeRecommendation(req)|)
  {
    var base := [TestWithAudience, EnsureLegible] + TypeRecommendation(req);
    TopFive(base, if engineUsable && reply.Ok? then StringItems(reply.value) else None)
  }

  /** The `key_concepts` value the confidence measures. */
  function KeyConcepts(content: Record): Value
  {
    Get(content, "key_concepts", Null)
  }

  /**
   * `_calculate_confidence`, in hundredths: 0.75, plus 0.15 with ADK, plus
   * 0.1 when the content lists key concepts; `None` where `len` of a
   * truthy `key_concepts` value raises.
   */
  function CalculateConfidence(adkEnabled: bool, content: Record): (c: Option<nat>)
    ensures c.None? <==> Truthy(KeyConcepts(content)) && Len(KeyConcepts(content)).None?
    ensures c.Some? ==> 75 <= c.value <= 100
    ensures c.Some? ==> (c.value == 100 <==> adkEnabled && Truthy(KeyConcepts(content)))
    ensures c.Some? ==> (c.value == 75 <==> !adkEnabled && !Truthy(KeyConcepts(content)))
  {
    var k := KeyConcepts(content);
    if !Truthy(k) then Some(CapAtOne(75 + if adkEnabled then 15 else 0))
    else match Len(k)
      case None => None
      case Some(n) => Some(CapAtOne(75 + (if adkEnabled then 15 else 0) + (if n > 0 then 10 else 0)))
  }

  const ExportFormats := "Export in multiple formats (PNG, PDF, SVG)"
  const AddAltText := "Add alt text and accessibility metadata"
  const ImplementInteractive := "Implement interactive features"
  const TestWithStudents := "Test visual aid with students for feedback"

  /**
   * `_generate_next_steps`: the final design and the export first, testing
   * with students last; an accessibility step for requests with
   * accessibility features and an implementation step when the content
   * has interactive elements.
   */
  function GenerateNextSteps(content: Record, req: VisualAidRequest): (steps: seq<string>)
    ensures 3 <= |steps| <= 5
    ensures steps[..2] == ["Create final design for " + req.visualType, ExportFormats]
    ensures steps[|steps| - 1] == TestWithStudents
  {
    ["Create final design for " + req.visualType, ExportFormats]
      + (if req.accessibilityFeatures then [AddAltText] else [])
      + (if Truthy(Get(content, "interactive_elements", Null)) then [ImplementInteractive] else [])
      + [TestWithStudents]
  }

  /** The accessibility step appears exactly with accessibility features, the interactive step exactly with interactive elements. */
  lemma NextStepsCases(content: Record, req: VisualAidRequest)
    ensures AddAltText in GenerateNextSteps(content, req) <==> req.accessibilityFeatures
    ensures ImplementInteractive in GenerateNextSteps(content, req) <==> Truthy(Get(content, "interactive_elements", Null))
  {
    var steps := GenerateNextSteps(content, req);
    assert steps[0][0] == 'C' && ExportFormats[0] == 'E' && TestWithStudents[0] == 'T';
    assert AddAltText[0] == 'A' && ImplementInteractive[0] == 'I';
  }

  // ---------------------------------------------------------------------
  // Responses
  // ---------------------------------------------------------------------

  /** The `VisualAidResponse` fields the policies decide; confidence in hundredths. */
  datatype VisualAidResponse = VisualAidResponse(
    visualContent: Record,
    designSpecifications: Record,
    fallbackError: Option<string>,
    recommendations: seq<string>,
    nextSteps: seq<string>,
    confidence: nat)

  /** The visual content of the fallback response. */
  function FallbackVisual(req: VisualAidRequest): Record
  {
    map[
      "title" := Str("Basic " + req.visualType + " for " + req.topic),
      "type" := Str(req.visualType),
      "content" := Str("Visual representation of " + req.topic),
      "elements" := StrList(["title", "main_content", "summary"]),
      "status" := Str("fallback_generated")]
  }

  /** The design specification of the fallback response. */
  function FallbackDesign(req: VisualAidRequest): Record
  {
    map[
      "layout" := Str("simple"),
      "colors" := StrList(["#333333", "#666666"]),
      "fonts" := StrList(["Arial", "sans-serif"]),
      "accessibility" := Bool(req.accessibilityFeatures)]
  }

  /** The fallback visual is marked as such and its design echoes the request's accessibility flag. */
  lemma FallbackShape(req: VisualAidRequest)
    ensures "status" in FallbackVisual(req) && FallbackVisual(req)["status"] == Str("fallback_generated")
    ensures "accessibility" in FallbackDesign(req) && FallbackDesign(req)["accessibility"] == Bool(req.accessibilityFeatures)
    ensures FallbackDesign(req)["layout"] == Str("simple")
  {
  }

  /**
   * `_generate_fallback_response`: a basic visual built from the request
   * alone, a simple design that echoes the accessibility flag, one
   * recommendation, two next steps and confidence 0.4.
   */
  function FallbackResponse(req: VisualAidRequest, error: string): (resp: VisualAidResponse)
    ensures resp.visualContent == FallbackVisual(req) && resp.designSpecifications == FallbackDesign(req)
    ensures resp.fallbackError == Some(error)
    ensures |resp.recommendations| == 1 && |resp.nextSteps| == 2
    ensures resp.confidence == 40
  {
    VisualAidResponse(
      FallbackVisual(req),
      FallbackDesign(req),
      Some(error),
      ["Review and enhance design manually"],
      ["Add visual elements", "Improve layout and design"],
      40)
  }

  /** The content after the optional ADK step: it keeps every field and its key concepts. */
  function EnhancedContent(content: Record, req: VisualAidRequest, adkEnabled: bool, engineExists: bool, reply: Result<Value, string>): (r: Record)
    ensures content.Keys <= r.Keys
    ensures KeyConcepts(r) == KeyConcepts(content)
    ensures adkEnabled ==> "adk_enhancement" in r
    ensures !adkEnabled ==> r == content
  {
    if adkEnabled then EnhanceWithAdk(content, req, engineExists, reply) else content
  }

  /**
   * The rest of `handle_visual_aid_request` once the content exists:
   * enhancement, design optimisation, recommendations, confidence and next
   * steps; `Err` where `len` of the key concepts raises.
   */
  function GeneratedResponse(req: VisualAidRequest, adkEnabled: bool, engineExists: bool, content: Record, replies: EngineReplies): (r: Result<VisualAidResponse, string>)
    ensures r.Err? <==> Truthy(KeyConcepts(content)) && Len(KeyConcepts(content)).None?
    ensures r.Ok? ==>
      && r.value.fallbackError.None?
      && 75 <= r.value.confidence <= 100
      && content.Keys <= r.value.visualContent.Keys
  {
    var enhanced := EnhancedContent(content, req, adkEnabled, engineExists, replies.enhancement);
    var specs := DesignSpecifications(req);
    var optimized := if adkEnabled then WithEngineAnswer(specs, "adk_optimization", engineExists, replies.optimization) else specs;
    match CalculateConfidence(adkEnabled, enhanced)
    case None => Err("object of type '" + TypeName(KeyConcepts(enhanced)) + "' has no len()")
    case Some(confidence) =>
      Ok(VisualAidResponse(
        enhanced,
        optimized,
        None,
        GenerateRecommendations(req, adkEnabled && engineExists, replies.recommendations),
        GenerateNextSteps(enhanced, req),
        confidence))
  }

  /**
   * `handle_visual_aid_request`: generate the content and the design
   * specification, enhance both when ADK is enabled, then attach
   * recommendations, confidence and next steps. Generation failures and a
   * key-concepts value without a length yield the fallback response.
   */
  function HandleVisualAidRequest(
    req: VisualAidRequest, adkEnabled: bool, engineExists: bool,
    generated: Result<Record, string>, replies: EngineReplies): (resp: VisualAidResponse)
    ensures resp.fallbackError.Some? <==>
      generated.Err? || (Truthy(KeyConcepts(generated.value)) && Len(KeyConcepts(generated.value)).None?)
    ensures resp.fallbackError.Some? <==> resp.confidence < 75
  {
    match generated
    case Err(e) => FallbackResponse(req, e)
    case Ok(content) =>
      match GeneratedResponse(req, adkEnabled, engineExists, content, replies)
      case Err(e) => FallbackResponse(req, e)
      case Ok(resp) => resp
  }

  /**
   * With ADK enabled and an engine that answers, a presentation or an
   * infographic always gets the step that implements its interactive
   * features.
   */
  lemma InteractiveStepForEnhancedVisuals(
    req: VisualAidRequest, content: Record, replies: EngineReplies)
    requires GetsInteractiveElements(req.visualType) && replies.enhancement.Ok?
    requires !Truthy(KeyConcepts(content)) || Len(KeyConcepts(content)).Some?
    ensures var r := GeneratedResponse(req, true, true, content, replies);
      r.Ok? && ImplementInteractive in r.value.nextSteps
  {
    var enhanced := EnhancedContent(content, req, true, true, replies.enhancement);
    AttachedElementsNonEmpty(req.visualType);
    assert Get(enhanced, "interactive_elements", Null) == List(InteractiveElements(req.visualType));
    NextStepsCases(enhanced, req);
  }

  /**
   * As written, an infographic whose content was generated is answered
   * with a design that asks for -2 sections.
   */
  lemma InfographicDesignAsksNegativeSections(
    req: VisualAidRequest, adkEnabled: bool, engineExists: bool, content: Record, replies: EngineReplies)
    requires req.visualType == "infographic"
    requires !Truthy(KeyConcepts(content)) || Len(KeyConcepts(content)).Some?
    ensures var resp := HandleVisualAidRequest(req, adkEnabled, engineExists, Ok(content), replies);
      resp.fallbackError.None? && "layout" in resp.designSpecifications
      && resp.designSpecifications["layout"].Obj?
      && resp.designSpecifications["layout"].fields["sections"] == Int(-2)
  {
    ResponseLayoutAsWritten(req, adkEnabled, engineExists, content, replies);
    InfographicSectionsNegative();
  }

  /** A generated response carries the layout `_get_layout_specs` gives as written, with or without the engine's optimisation. */
  lemma ResponseLayoutAsWritten(
    req: VisualAidRequest, adkEnabled: bool, engineExists: bool, content: Record, replies: EngineReplies)
    requires !Truthy(KeyConcepts(content)) || Len(KeyConcepts(content)).Some?
    ensures var r := GeneratedResponse(req, adkEnabled, engineExists, content, replies);
      r.Ok? && "layout" in r.value.designSpecifications
      && r.value.designSpecifications["layout"] == Obj(LayoutSpecsAsWritten(req.visualType))
  {
    var specs := DesignSpecifications(req);
    var optimized := if adkEnabled then WithEngineAnswer(specs, "adk_optimization", engineExists, replies.optimization) else specs;
    assert "layout" in optimized && optimized["layout"] == specs["layout"];
    assert GeneratedResponse(req, adkEnabled, engineExists, content, replies).value.designSpecifications == optimized;
  }
}
