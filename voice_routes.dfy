/**
 * The voice-assistant HTTP routes (app/routes/voice.py): which of the
 * submitted inputs the assistant answers, the canned reply it picks by
 * keyword, and the plain text-processing route. Saving an uploaded file is
 * I/O and is not modelled; an upload is its file name.
 */
module VoiceRoutes {
  import opened Wrappers
  import opened Text
  import opened Values
  import opened RouteErrors

  // ---------------------------------------------------------------- the canned reply

  /** Which canned reply the assistant gives. */
  datatype Topic = AudioReceived | FileReceived | Learning | Greeting | Help | Coding | Mathematics | Science | Conversation

  /** The reply: its topic, and the user's input when the reply quotes it. */
  datatype Reply = Reply(topic: Topic, quoted: Option<string>)

  /** `any(word in text for word in words)`: matching is by substring. */
  predicate MentionsAny(text: string, words: seq<string>)
  {
    exists i :: 0 <= i < |words| && Contains(text, words[i])
  }

  /** The keyword groups in the order the reply tries them. */
  const Groups: seq<(Topic, seq<string>)> := [
    (Learning, ["lesson", "teach", "learn", "study"]),
    (Greeting, ["hello", "hi", "hey", "greetings"]),
    (Help, ["help", "assist", "support"]),
    (Coding, ["code", "programming", "python", "javascript"]),
    (Mathematics, ["math", "mathematics", "calculate", "solve"]),
    (Science, ["science", "biology", "chemistry", "physics"])]

  /** Group `k` mentions one of its words in `text`. */
  predicate GroupMatches(text: string, k: nat)
    requires k < |Groups|
  {
    MentionsAny(text, Groups[k].1)
  }

  /**
   * `generate_response`: an audio or a file input gets its own reply
   * whatever its text says; otherwise the lowercased input is checked for
   * each keyword group in turn, and the conversational reply is the
   * fallback. The greeting and help replies do not quote the input.
   */
  function GenerateResponse(input: string, inputType: string): (r: Reply)
    ensures inputType == "audio" ==> r == Reply(AudioReceived, Some(input))
    ensures inputType == "file" ==> r == Reply(FileReceived, Some(input))
    ensures r.quoted.Some? ==> r.quoted.value == input
  {
    var lower := Lower(input);
    if inputType == "audio" then Reply(AudioReceived, Some(input))
    else if inputType == "file" then Reply(FileReceived, Some(input))
    else if GroupMatches(lower, 0) then Reply(Learning, Some(input))
    else if GroupMatches(lower, 1) then Reply(Greeting, None)
    else if GroupMatches(lower, 2) then Reply(Help, None)
    else if GroupMatches(lower, 3) then Reply(Coding, Some(input))
    else if GroupMatches(lower, 4) then Reply(Mathematics, Some(input))
    else if GroupMatches(lower, 5) then Reply(Science, Some(input))
    else Reply(Conversation, Some(input))
  }

  /**
   * For any other input type, the reply is the topic of the first keyword
   * group the lowercased input mentions, and the conversational one exactly
   * when it mentions none.
   */
  lemma FirstMatchingGroupWins(input: string, inputType: string)
    requires inputType != "audio" && inputType != "file"
    ensures forall k :: 0 <= k < |Groups| ==>
      (GenerateResponse(input, inputType).topic == Groups[k].0 <==>
        GroupMatches(Lower(input), k) && forall j :: 0 <= j < k ==> !GroupMatches(Lower(input), j))
    ensures GenerateResponse(input, inputType).topic == Conversation <==>
      forall k :: 0 <= k < |Groups| ==> !GroupMatches(Lower(input), k)
  {
    var lower := Lower(input);
    assert Groups[0].0 == Learning && Groups[1].0 == Greeting && Groups[2].0 == Help;
    assert Groups[3].0 == Coding && Groups[4].0 == Mathematics && Groups[5].0 == Science;
  }

  /** A word longer than the text is not in it. */
  lemma {:induction false} TooLongToContain(s: string, sub: string)
    requires |sub| > |s|
    ensures !Contains(s, sub)
    decreases |s|
  {
    if s != [] {
      TooLongToContain(s[1..], sub);
    }
  }

  /** "this" gets the greeting, because it contains "hi". */
  lemma ThisIsAGreeting()
    ensures GenerateResponse("this", "text") == Reply(Greeting, None)
  {
    var lower := Lower("this");
    assert lower == "this";
    var learning := Groups[0].1;
    forall i | 0 <= i < |learning|
      ensures !Contains(lower, learning[i])
    {
      TooLongToContain(lower, learning[i]);
    }
    assert !GroupMatches(lower, 0);
    assert lower[1..3] == "hi";
    ContainsAt(lower, "hi", 1);
    assert Groups[1].1[1] == "hi";
    assert GroupMatches(lower, 1);
  }

  // ---------------------------------------------------------------- the assistant route

  /** The form fields of `/assistant`; an upload is its file name. */
  datatype VoiceInputs = VoiceInputs(audioFile: Option<string>, message: Option<string>, fileUpload: Option<string>, text: Option<string>)

  /** A form string counts as given when it is present and non-empty. */
  predicate Given(s: Option<string>)
  {
    s.Some? && s.value != []
  }

  /** The input the assistant answers. */
  datatype Chosen = Chosen(content: string, inputType: string, files: nat)

  const NoInput := "Must provide at least one input: audio_file, message, or file_upload"

  /** The priority the route gives the inputs: a message, then text, then an audio file, then any other upload. */
  function ChooseInput(x: VoiceInputs): (r: Result<Chosen, Exc>)
    ensures r.Err? <==> !Given(x.message) && !Given(x.text) && x.audioFile.None? && x.fileUpload.None?
    ensures r.Err? ==> r.error == HttpExc(400, NoInput)
    ensures r.Ok? ==> (r.value.inputType == "text_message" <==> Given(x.message))
    ensures r.Ok? ==> (r.value.inputType == "text" <==> !Given(x.message) && Given(x.text))
    ensures r.Ok? ==> (r.value.inputType == "audio" <==> !Given(x.message) && !Given(x.text) && x.audioFile.Some?)
    ensures r.Ok? ==> (r.value.inputType == "file" <==>
      !Given(x.message) && !Given(x.text) && x.audioFile.None? && x.fileUpload.Some?)
    ensures r.Ok? ==> (r.value.files == 1 <==> r.value.inputType == "audio" || r.value.inputType == "file")
  {
    if Given(x.message) then Ok(Chosen(x.message.value, "text_message", 0))
    else if Given(x.text) then Ok(Chosen(x.text.value, "text", 0))
    else if x.audioFile.Some? then Ok(Chosen("Audio file processed: " + x.audioFile.value, "audio", 1))
    else if x.fileUpload.Some? then Ok(Chosen("File processed: " + x.fileUpload.value, "file", 1))
    else Err(HttpExc(400, NoInput))
  }

  /** What `/assistant` returns on success. */
  datatype Answer = Answer(inputType: string, files: nat, response: Reply)

  /** `except HTTPException: raise`, then `except Exception` as a 500 with `str(e)`. */
  const AssistantClauses := [Clause(HTTPException, Reraise), Clause(AnyException, Raise(500, None))]

  /** `/assistant`: the reply to the chosen input, or a 400 when nothing was submitted. */
  function VoiceAssistant(x: VoiceInputs): (r: Response<Answer>)
    ensures r.Success? <==> ChooseInput(x).Ok?
    ensures r.Success? ==>
      r.value.inputType == ChooseInput(x).value.inputType &&
      r.value.response == GenerateResponse(ChooseInput(x).value.content, ChooseInput(x).value.inputType)
  {
    var chosen := ChooseInput(x);
    Route(if chosen.Ok? then Ok(Answer(chosen.value.inputType, chosen.value.files,
                                       GenerateResponse(chosen.value.content, chosen.value.inputType)))
          else Err(chosen.error),
          AssistantClauses)
  }

  /**
   * The assistant answers a message before text, text before an audio
   * file and an audio file before any other upload, and answers 400 when
   * none is given.
   */
  lemma AssistantFollowsPriority(x: VoiceInputs)
    ensures var r := VoiceAssistant(x);
      && (r.HttpError? <==> !Given(x.message) && !Given(x.text) && x.audioFile.None? && x.fileUpload.None?)
      && (r.HttpError? ==> r == HttpError(400, NoInput))
      && (Given(x.message) ==> r.Success? && r.value.inputType == "text_message" && r.value.files == 0)
      && (!Given(x.message) && Given(x.text) ==> r.Success? && r.value.inputType == "text")
      && (!Given(x.message) && !Given(x.text) && x.audioFile.Some? ==>
            r.Success? && r.value.inputType == "audio" && r.value.response.topic == AudioReceived)
  {
    var chosen := ChooseInput(x);
    if chosen.Err? {
      KeepingHttpPassesHttpErrors<Answer>(Err(chosen.error), [Clause(AnyException, Raise(500, None))]);
      assert AssistantClauses == KeepingHttp([Clause(AnyException, Raise(500, None))]);
    }
  }

  // ---------------------------------------------------------------- the text route

  /** What `/process-text` returns on success. */
  datatype Processed = Processed(originalText: string, processedResponse: Reply)

  /**
   * The body of `process_text`: a missing or falsy "text" raises a 400, and
   * a value that is not a string has no `lower()`.
   */
  function ProcessTextBody(request: Record): (r: Result<Processed, Exc>)
    ensures r.Ok? <==> Truthy(Get(request, "text", Str(""))) && Get(request, "text", Str("")).Str?
    ensures !Truthy(Get(request, "text", Str(""))) ==> r == Err(HttpExc(400, "No text provided"))
    ensures r.Ok? ==> r.value.processedResponse == GenerateResponse(r.value.originalText, "text")
  {
    var text := Get(request, "text", Str(""));
    if !Truthy(text) then Err(HttpExc(400, "No text provided"))
    else if !text.Str? then Err(OtherExc("'" + TypeName(text) + "' object has no attribute 'lower'"))
    else Ok(Processed(text.s, GenerateResponse(text.s, "text")))
  }

  /** `except Exception` as a 500 with `str(e)`: the only clause `process_text` has. */
  const ProcessTextClauses := [Clause(AnyException, Raise(500, None))]

  /** `/process-text` as written: the 400 for missing text is caught by its own `except Exception`. */
  function ProcessTextAsWritten(request: Record): (r: Response<Processed>)
    ensures r.Success? <==> Truthy(Get(request, "text", Str(""))) && Get(request, "text", Str("")).Str?
    ensures r.Success? ==> r.value.processedResponse == GenerateResponse(r.value.originalText, "text")
  {
    Route(ProcessTextBody(request), ProcessTextClauses)
  }

  /** A request without text gets a 500 whose detail is the printed 400, not the 400 itself. */
  lemma MissingTextIsServerErrorAsWritten(request: Record)
    requires "text" !in request || !Truthy(request["text"])
    ensures ProcessTextAsWritten(request) == HttpError(500, "400: No text provided")
  {
    var e := HttpExc(400, "No text provided");
    assert ProcessTextBody(request) == Err(e);
    assert FirstMatch(ProcessTextClauses, e) == Some(0);
    assert ProcessTextAsWritten(request) == HttpError(500, Message(e));
    PrintedBadRequest();
  }

  /** `str(HTTPException(400, "No text provided"))`. */
  lemma PrintedBadRequest()
    ensures Message(HttpExc(400, "No text provided")) == "400: No text provided"
  {
    FourHundred();
    assert "400" + ": " + "No text provided" == "400: No text provided";
  }

  lemma FourHundred()
    ensures IntToString(400) == "400"
  {
    assert NatToString(4) == "4";
    assert NatToString(40) == "4" + [DigitChar(0)];
    assert NatToString(400) == "40" + [DigitChar(0)];
  }

  /** `/process-text` as evidently intended: the HTTP error passes through, as in `/assistant`. */
  function ProcessText(request: Record): (r: Response<Processed>)
    ensures !Truthy(Get(request, "text", Str(""))) ==> r == HttpError(400, "No text provided")
    ensures r.Success? ==> r.value.processedResponse == GenerateResponse(r.value.originalText, "text")
  {
    KeepingHttpPassesHttpErrors(ProcessTextBody(request), ProcessTextClauses);
    Route(ProcessTextBody(request), KeepingHttp(ProcessTextClauses))
  }

  /**
   * The corrected route answers 400 for a missing text, and answers every
   * other request exactly as the route as written does.
   */
  lemma ProcessTextRejectsMissingText(request: Record)
    ensures !Truthy(Get(request, "text", Str(""))) ==> ProcessText(request) == HttpError(400, "No text provided")
    ensures Truthy(Get(request, "text", Str(""))) ==> ProcessText(request) == ProcessTextAsWritten(request)
    ensures ProcessText(request).Success? <==> Get(request, "text", Str("")).Str? && Get(request, "text", Str("")).s != []
  {
    KeepingHttpPassesHttpErrors(ProcessTextBody(request), ProcessTextClauses);
  }
}
