/**
 * The deterministic parts of the image generator: cleaning the Mermaid code
 * the model returns, the Mermaid prompt, the sanitised PNG file name, the
 * fallback image's metadata, and which of the two `generate_image` returns.
 * The model call, the Mermaid-to-PNG conversion and every file write are
 * parameters.
 */
module ImageGenerator {
  import opened Wrappers
  import opened Text
  import opened Values

  // ---------------------------------------------------------------- cleaning Mermaid code

  /** The keywords a line of Mermaid code can open a diagram with. */
  const DiagramKeywords: seq<string> :=
    ["flowchart", "graph", "mindmap", "timeline", "sequenceDiagram", "classDiagram"]

  /** `s` starts with one of `keywords`. */
  predicate StartsWithAny(s: string, keywords: seq<string>)
  {
    keywords != [] && (StartsWith(s, keywords[0]) || StartsWithAny(s, keywords[1..]))
  }

  /** A line that, once stripped, starts with one of the diagram keywords. */
  predicate OpensDiagram(line: string)
  {
    StartsWithAny(Strip(line), DiagramKeywords)
  }

  /** The code with surrounding whitespace, a leading "```mermaid" or "```", and a trailing "```" removed, in that order. */
  function StripFences(raw: string): (code: string)
    ensures |code| <= |raw|
  {
    var trimmed := Strip(raw);
    var noTag := if StartsWith(trimmed, "```mermaid") then trimmed[10..] else trimmed;
    var noOpen := if StartsWith(noTag, "```") then noTag[3..] else noTag;
    if EndsWith(noOpen, "```") then noOpen[..|noOpen| - 3] else noOpen
  }

  /** The index of the first element satisfying `p`, if any. */
  function FirstIndex<T>(xs: seq<T>, p: T -> bool): (r: Option<nat>)
    ensures r.Some? ==> r.value < |xs| && p(xs[r.value])
    ensures r.Some? ==> forall j :: 0 <= j < r.value ==> !p(xs[j])
    ensures r.None? ==> forall j :: 0 <= j < |xs| ==> !p(xs[j])
  {
    if xs == [] then None
    else if p(xs[0]) then Some(0)
    else match FirstIndex(xs[1..], p)
      case None => None
      case Some(i) => Some(i + 1)
  }

  /** The index of the first line that opens a diagram. */
  function FirstDiagramLine(lines: seq<string>): Option<nat>
  {
    FirstIndex(lines, OpensDiagram)
  }

  /**
   * The cleaned Mermaid code: with the fences removed, the text from the
   * first line that opens a diagram on, or all of it when no line does,
   * stripped of surrounding whitespace.
   */
  function CleanMermaid(raw: string): (r: string)
    ensures r != [] ==> r[0] !in Whitespace && r[|r| - 1] !in Whitespace
    ensures FirstDiagramLine(SplitOn(StripFences(raw), '\n')).None? ==> r == Strip(StripFences(raw))
  {
    var code := StripFences(raw);
    var lines := SplitOn(code, '\n');
    match FirstDiagramLine(lines)
    case Some(i) => Strip(Join("\n", lines[i..]))
    case None =>
      JoinSplitOn(code, '\n');
      Strip(code)
  }

  /** The fence removal of `_clean_mermaid_code`, one reassignment at a time. */
  method RemoveFences(raw: string) returns (code: string)
    ensures code == StripFences(raw)
  {
    code := Strip(raw);
    if StartsWith(code, "```mermaid") {
      code := code[10..];
    }
    if StartsWith(code, "```") {
      code := code[3..];
    }
    if EndsWith(code, "```") {
      code := code[..|code| - 3];
    }
  }

  /** The search loop of `_clean_mermaid_code`: the index of the first line satisfying `opens`, or -1. */
  method FindDiagramStart(lines: seq<string>, opens: string -> bool) returns (start: int)
    ensures start >= 0 <==> FirstIndex(lines, opens).Some?
    ensures start >= 0 ==> FirstIndex(lines, opens) == Some(start)
  {
    start := -1;
    var i := 0;
    while i < |lines|
      invariant 0 <= i <= |lines|
      invariant forall j :: 0 <= j < i ==> !opens(lines[j])
    {
      if opens(lines[i]) {
        start := i;
        break;
      }
      i := i + 1;
    }
  }

  /** `_clean_mermaid_code`. */
  method CleanMermaidCode(raw: string) returns (code: string)
    ensures code == CleanMermaid(raw)
  {
    code := RemoveFences(raw);
    var lines := SplitOn(code, '\n');
    var start := FindDiagramStart(lines, OpensDiagram);
    if start >= 0 {
      code := Join("\n", lines[start..]);
    } else {
      JoinSplitOn(code, '\n');
    }
    code := Strip(code);
  }

  /** Dropping leading characters of `cs` from `a + b` stops inside `a` when `a` has a character outside `cs`. */
  lemma {:induction false} StripLeftAppend(a: string, b: string, cs: set<char>)
    requires StripLeft(a, cs) != []
    ensures StripLeft(a + b, cs) == StripLeft(a, cs) + b
    decreases |a|
  {
    assert (a + b)[0] == a[0];
    if a[0] in cs {
      assert (a + b)[1..] == a[1..] + b;
      StripLeftAppend(a[1..], b, cs);
    }
  }

  /** Dropping trailing whitespace keeps a prefix that ends in a non-whitespace character. */
  lemma StripRightKeepsPrefix(s: string, p: string)
    requires StartsWith(s, p) && p != [] && p[|p| - 1] !in Whitespace
    ensures StartsWith(StripRight(s, Whitespace), p)
  {
    StripRightDropsOnly(s, Whitespace);
    assert s[|p| - 1] == p[|p| - 1];
    var r := StripRight(s, Whitespace);
    assert r[..|p|] == s[..|p|];
  }

  /** Every keyword is non-empty and ends in a non-whitespace character. */
  predicate SolidKeywords(keywords: seq<string>)
  {
    forall k :: 0 <= k < |keywords| ==> keywords[k] != [] && keywords[k][|keywords[k]| - 1] !in Whitespace
  }

  lemma DiagramKeywordsAreSolid()
    ensures SolidKeywords(DiagramKeywords)
  {
    forall k | 0 <= k < |DiagramKeywords|
      ensures DiagramKeywords[k] != [] && DiagramKeywords[k][|DiagramKeywords[k]| - 1] !in Whitespace
    {
      var last := DiagramKeywords[k][|DiagramKeywords[k]| - 1];
      assert last in {'t', 'h', 'p', 'e', 'm'};
    }
  }

  /** A prefix of the stripped line is a prefix of the line with only its leading whitespace dropped. */
  lemma StrippedPrefix(line: string, kw: string)
    requires StartsWith(Strip(line), kw)
    ensures StartsWith(StripLeft(line, Whitespace), kw)
  {
    var left := StripLeft(line, Whitespace);
    assert Strip(line) == StripRight(left, Whitespace);
    assert left[..|kw|] == Strip(line)[..|kw|];
  }

  lemma StartsWithAppend(s: string, tail: string, p: string)
    requires StartsWith(s, p)
    ensures StartsWith(s + tail, p)
  {
    assert (s + tail)[..|p|] == s[..|p|];
  }

  lemma PrefixSurvivesTail(line: string, tail: string, kw: string)
    requires StartsWith(StripLeft(line, Whitespace), kw) && kw != []
    ensures StartsWith(StripLeft(line + tail, Whitespace), kw)
  {
    StripLeftAppend(line, tail, Whitespace);
    StartsWithAppend(StripLeft(line, Whitespace), tail, kw);
  }

  /** Text after a line does not change which keyword the stripped line starts with. */
  lemma KeywordSurvivesTail(line: string, tail: string, kw: string)
    requires StartsWith(Strip(line), kw) && kw != [] && kw[|kw| - 1] !in Whitespace
    ensures StartsWith(Strip(line + tail), kw)
  {
    StrippedPrefix(line, kw);
    PrefixSurvivesTail(line, tail, kw);
    StripRightKeepsPrefix(StripLeft(line + tail, Whitespace), kw);
  }

  lemma {:induction false} KeywordsSurviveTail(line: string, tail: string, keywords: seq<string>)
    requires StartsWithAny(Strip(line), keywords) && SolidKeywords(keywords)
    ensures StartsWithAny(Strip(line + tail), keywords)
  {
    var stripped := Strip(line);
    if StartsWith(stripped, keywords[0]) {
      assert keywords[0] != [] && keywords[0][|keywords[0]| - 1] !in Whitespace;
      KeywordSurvivesTail(line, tail, keywords[0]);
    } else {
      var rest := keywords[1..];
      assert StartsWithAny(stripped, rest);
      assert SolidKeywords(rest) by {
        forall k | 0 <= k < |rest|
          ensures rest[k] != [] && rest[k][|rest[k]| - 1] !in Whitespace
        {
          assert rest[k] == keywords[k + 1];
        }
      }
      KeywordsSurviveTail(line, tail, rest);
    }
  }

  /** Joined text begins with its first part. */
  lemma JoinFirst(sep: string, parts: seq<string>)
    requires parts != []
    ensures Join(sep, parts) == parts[0] + (if |parts| == 1 then "" else sep + Join(sep, parts[1..]))
  {
    if |parts| > 1 {
      JoinCons(sep, parts);
    }
  }

  /** Lines whose first line opens a diagram, joined and stripped, open the diagram. */
  lemma JoinedLinesOpenDiagram(rest: seq<string>)
    requires rest != [] && OpensDiagram(rest[0])
    ensures OpensDiagram(Strip(Join("\n", rest)))
  {
    JoinFirst("\n", rest);
    var tail := if |rest| == 1 then "" else "\n" + Join("\n", rest[1..]);
    DiagramKeywordsAreSolid();
    KeywordsSurviveTail(rest[0], tail, DiagramKeywords);
    StripCharsIdempotent(Join("\n", rest), Whitespace);
  }

  /** When some line opens a diagram, the cleaned code opens one too: it starts with that line's keyword. */
  lemma CleanedCodeOpensDiagram(raw: string)
    requires FirstDiagramLine(SplitOn(StripFences(raw), '\n')).Some?
    ensures OpensDiagram(CleanMermaid(raw))
  {
    var lines := SplitOn(StripFences(raw), '\n');
    var i := FirstDiagramLine(lines).value;
    JoinedLinesOpenDiagram(lines[i..]);
  }

  // ---------------------------------------------------------------- the Mermaid prompt

  /** The Mermaid diagram type asked for each visual type; "flowchart TD" for any other. */
  function MermaidType(visualType: string): (t: string)
    ensures visualType !in {"diagram", "infographic", "chart", "illustration", "mind_map", "timeline"} ==> t == "flowchart TD"
    ensures StartsWith(t, "flowchart") || StartsWith(t, "graph") || t == "mindmap" || t == "timeline"
  {
    if visualType == "diagram" then "flowchart TD"
    else if visualType == "infographic" then "flowchart LR"
    else if visualType == "chart" then "graph TD"
    else if visualType == "illustration" then "flowchart TB"
    else if visualType == "mind_map" then "mindmap"
    else if visualType == "timeline" then "timeline"
    else "flowchart TD"
  }

  const DiagramRequirements: seq<string> :=
    [ "Create a flowchart showing relationships and processes.",
      "Include labeled components with clear connections.",
      "Use boxes, diamonds, and arrows to show flow and relationships." ]
  const InfographicRequirements: seq<string> :=
    [ "Create a left-to-right flowchart with information sections.",
      "Include key statistics, facts, and data points.",
      "Use different node shapes for different types of information." ]
  const ChartRequirements: seq<string> :=
    [ "Create a graph showing data relationships or hierarchies.",
      "Include comparative elements and clear data visualization.",
      "Use appropriate node shapes and connections." ]
  const MindMapRequirements: seq<string> :=
    [ "Create a mindmap with the main topic at the center.",
      "Branch out to subtopics and details.",
      "Use the Mermaid mindmap syntax properly." ]
  const TimelineRequirements: seq<string> :=
    [ "Create a timeline showing chronological progression.",
      "Include dates, events, and sequential relationships.",
      "Use flowchart format to show time progression." ]
  const GeneralRequirements: seq<string> :=
    [ "Create an educational flowchart that illustrates the concept clearly.",
      "Include all important elements and their relationships." ]

  /** The requirements specific to each visual type: three for the five known types, two for any other. */
  function TypeRequirements(visualType: string): (parts: seq<string>)
    ensures 2 <= |parts| <= 3
  {
    if visualType == "diagram" then DiagramRequirements
    else if visualType == "infographic" then InfographicRequirements
    else if visualType == "chart" then ChartRequirements
    else if visualType == "mind_map" then MindMapRequirements
    else if visualType == "timeline" then TimelineRequirements
    else GeneralRequirements
  }

  /** The opening sentence of the prompt. */
  function PromptHead(visualType: string, topic: string, subject: string, grade: string): string
  {
    "Create a " + MermaidType(visualType) + " Mermaid diagram about '" + topic + "' for " + subject + " class, Grade " + grade + "."
  }

  /** The sentence that carries the content, of which at most the first 500 characters are used. */
  function ContentPart(content: string): (p: string)
    ensures |p| <= 34 + 500
  {
    "Educational content to visualize: " + Take(content, 500)
  }

  /** The parts of `_create_mermaid_prompt`, before they are joined with spaces. */
  function PromptParts(content: string, visualType: string, topic: string, subject: string, grade: string, style: string, colorScheme: string): (parts: seq<string>)
    ensures |parts| == 3 + |TypeRequirements(visualType)| + 5
    ensures parts[0] == PromptHead(visualType, topic, subject, grade) && parts[1] == ContentPart(content)
    ensures parts[3..3 + |TypeRequirements(visualType)|] == TypeRequirements(visualType)
  {
    [PromptHead(visualType, topic, subject, grade), ContentPart(content), "Style: " + style + ", Color scheme: " + colorScheme]
      + TypeRequirements(visualType) + ClosingRequirements(grade)
  }

  const QualityRequirements: seq<string> :=
    [ "Ensure educational value and visual clarity.",
      "Use proper Mermaid syntax with meaningful node IDs and labels.",
      "Include colors and styling where appropriate.",
      "Make sure the diagram will render correctly in Mermaid." ]

  /** The five requirements every prompt ends with. */
  function ClosingRequirements(grade: string): (parts: seq<string>)
    ensures |parts| == 5
  {
    ["Make it appropriate for Grade " + grade + " students."] + QualityRequirements
  }

  /**
   * `_create_mermaid_prompt`: the prompt opens by naming the diagram type,
   * topic, subject and grade, and carries at most the first 500 characters
   * of the content.
   */
  function MermaidPrompt(content: string, visualType: string, topic: string, subject: string, grade: string, style: string, colorScheme: string): (p: string)
    ensures StartsWith(p, PromptHead(visualType, topic, subject, grade))
    ensures Contains(p, ContentPart(content))
  {
    var parts := PromptParts(content, visualType, topic, subject, grade, style, colorScheme);
    JoinCons(" ", parts);
    JoinCons(" ", parts[1..]);
    var p := Join(" ", parts);
    assert p == parts[0] + " " + (parts[1] + (" " + Join(" ", parts[2..]))) by {
      assert parts[1..][1..] == parts[2..];
    }
    ContainsAt(parts[1] + (" " + Join(" ", parts[2..])), parts[1], 0);
    ContainsAppendLeft(parts[0] + " ", parts[1] + (" " + Join(" ", parts[2..])), parts[1]);
    assert p == (parts[0] + " ") + (parts[1] + (" " + Join(" ", parts[2..])));
    p
  }

  // ---------------------------------------------------------------- file names

  /** A topic or subject made safe for a file name: spaces and slashes become underscores, cut to `n` characters. */
  function SafeName(s: string, n: nat): (r: string)
    ensures |r| == if |s| <= n then |s| else n
    ensures ' ' !in r && '/' !in r
    ensures forall i :: 0 <= i < |r| && s[i] != ' ' && s[i] != '/' ==> r[i] == s[i]
  {
    Take(ReplaceChar(ReplaceChar(s, ' ', '_'), '/', '_'), n)
  }

  /**
   * The PNG file name `generate_image` writes: type, safe subject (at most
   * 15 characters), safe topic (at most 20) and the first eight characters
   * of a fresh id, joined by underscores.
   */
  function PngFilename(visualType: string, subject: string, topic: string, uuid: string): (f: string)
    ensures f == visualType + "_" + SafeName(subject, 15) + "_" + SafeName(topic, 20) + "_" + Take(uuid, 8) + ".png"
    ensures StartsWith(f, visualType + "_") && EndsWith(f, ".png")
  {
    var f := visualType + "_" + SafeName(subject, 15) + "_" + SafeName(topic, 20) + "_" + Take(uuid, 8) + ".png";
    assert f[..|visualType| + 1] == visualType + "_";
    f
  }

  // ---------------------------------------------------------------- generated and fallback images

  /** What `generate_image` returns: the path, the file name and the metadata. */
  datatype ImageFile = ImageFile(filePath: string, filename: string, metadata: Record)

  /** `os.path.join(directory, name)`. */
  function PathIn(directory: string, name: string): string
  {
    directory + "/" + name
  }

  /** The values `_create_fallback_image` takes from its surroundings: two fresh ids, the file size and the clock. */
  datatype FallbackEnv = FallbackEnv(outputDir: string, pngHex: string, textHex: string, size: nat, now: string)

  /**
   * `_create_fallback_image`: a PNG when drawing it succeeds, otherwise a
   * text file; the metadata says which, and always marks the image as a
   * fallback.
   */
  function FallbackImage(topic: string, subject: string, visualType: string, drawn: bool, env: FallbackEnv): (img: ImageFile)
    ensures img.filePath == PathIn(env.outputDir, img.filename)
    ensures StartsWith(img.filename, "fallback_" + visualType + "_")
    ensures EndsWith(img.filename, ".png") <==> drawn
    ensures "is_fallback" in img.metadata && img.metadata["is_fallback"] == Bool(true)
    ensures "format" in img.metadata && img.metadata["format"] == Str(if drawn then "PNG" else "Text")
    ensures "filename" in img.metadata && img.metadata["filename"] == Str(img.filename)
    ensures "topic" in img.metadata && img.metadata["topic"] == Str(topic)
    ensures "subject" in img.metadata && img.metadata["subject"] == Str(subject)
  {
    var stem := "fallback_" + visualType + "_";
    var filename := if drawn then stem + Take(env.pngHex, 8) + ".png" else stem + Take(env.textHex, 8) + ".txt";
    assert filename[..|stem|] == stem;
    assert EndsWith(filename, ".png") <==> drawn by {
      if !drawn { assert filename[|filename| - 4..] == ".txt"; }
    }
    var path := PathIn(env.outputDir, filename);
    assert EndsWith(path, ".png") <==> drawn by {
      assert path[|path| - 4..] == filename[|filename| - 4..];
    }
    ImageFile(path, filename, map[
      "file_path" := Str(path),
      "size" := Int(env.size),
      "visual_type" := Str(visualType),
      "created_at" := Str(env.now),
      "content_type" := Str(if EndsWith(path, ".png") then "image/png" else "text/plain"),
      "can_render" := Bool(true),
      "dimensions" := Str(if EndsWith(path, ".png") then "800x600" else "text")]
      + map[
      "topic" := Str(topic),
      "subject" := Str(subject),
      "filename" := Str(filename),
      "format" := Str(if EndsWith(path, ".png") then "PNG" else "Text"),
      "is_fallback" := Bool(true)])
  }

  /** The request `generate_image` receives. */
  datatype ImageRequest = ImageRequest(
    content: string, visualType: string, topic: string, subject: string,
    grade: string, style: string, colorScheme: string)

  /**
   * The outside world of one `generate_image` call: the model's reply
   * (`Err` when the call raises), whether the PNG conversion succeeded,
   * the fresh id of the PNG, its size and the clock, and the fallback's
   * environment.
   */
  datatype ImageEnv = ImageEnv(
    reply: Result<string, string>, converted: bool, uuid: string, size: nat, now: string,
    fallbackDrawn: bool, fallback: FallbackEnv)

  /**
   * `generate_image`: a failed model call or a failed conversion never
   * propagates but yields the fallback image; otherwise the PNG under its
   * sanitised name, with metadata recording the request.
   */
  function GenerateImage(req: ImageRequest, outputDir: string, env: ImageEnv): (img: ImageFile)
    ensures env.reply.Err? || !env.converted ==>
      img == FallbackImage(req.topic, req.subject, req.visualType, env.fallbackDrawn, env.fallback)
    ensures env.reply.Ok? && env.converted ==>
      && img.filename == PngFilename(req.visualType, req.subject, req.topic, env.uuid)
      && img.filePath == PathIn(outputDir, img.filename)
      && "format" in img.metadata && img.metadata["format"] == Str("PNG")
      && "grade" in img.metadata && img.metadata["grade"] == Str(req.grade)
  {
    if env.reply.Err? || !env.converted then
      FallbackImage(req.topic, req.subject, req.visualType, env.fallbackDrawn, env.fallback)
    else
      var filename := PngFilename(req.visualType, req.subject, req.topic, env.uuid);
      var path := PathIn(outputDir, filename);
      ImageFile(path, filename, map[
        "filename" := Str(filename),
        "file_path" := Str(path),
        "size" := Int(env.size),
        "visual_type" := Str(req.visualType),
        "topic" := Str(req.topic),
        "subject" := Str(req.subject),
        "created_at" := Str(env.now),
        "color_scheme" := Str(req.colorScheme),
        "style" := Str(req.style),
        "content_type" := Str("image/png"),
        "can_render" := Bool(true),
        "dimensions" := Str("800x600"),
        "source" := Str("mermaid_diagram")]
        + map["grade" := Str(req.grade), "format" := Str("PNG")])
  }

  /** Whatever happens, `generate_image` names a file and says whether it is a PNG. */
  lemma GenerateImageAlwaysNamesFile(req: ImageRequest, outputDir: string, env: ImageEnv)
    ensures var img := GenerateImage(req, outputDir, env);
      "format" in img.metadata && (img.metadata["format"] == Str("PNG") <==> EndsWith(img.filename, ".png"))
  {
  }
}
