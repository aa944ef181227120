/** The content-generator adapter (server/src/test-gateway/services/gemini-flash.service.ts):
    the prompts it sends and the clean-up of the text that comes back. The
    GenAI call and `JSON.parse` are foreign: the call's outcome is a
    parameter and the parser an arbitrary function that may fail. */
module GeminiFlash {
  import opened Common

  /** The arguments of `generateTest`, as the values the caller passed. */
  datatype TestRequest = TestRequest(
    subject: JsValue,
    topic: JsValue,
    difficultyLevel: JsValue,
    testFormat: JsValue,
    numberOfQuestions: JsValue,
    language: JsValue)

  /** `response.candidates[k].content.parts[j].text`. Each level may be
      absent in an answer (a blocked prompt has no candidates, a candidate
      cut short may have no content or no parts). */
  datatype Part = Part(text: Option<string>)
  datatype Content = Content(parts: Option<seq<Part>>)
  datatype Candidate = Candidate(content: Option<Content>)
  datatype Response = Response(candidates: Option<seq<Candidate>>)

  /** What `generateTest` resolves to: the raw text, or the parsed JSON. */
  datatype Generated = Raw(text: string) | Parsed(value: JsValue)

  /** A rejected promise, carrying the error's `message`. */
  datatype Outcome<T> = Resolved(value: T) | Rejected(message: string)

  const JsonFence: string := "```json"
  const Fence: string := "```"

  // The fixed text of the generation prompt, between the arguments.
  const PromptIntro: string := "You are an AI specialized in generating structured tests.\n         Generate a test in **"
  const SubjectLabel: string := "** with the following details:\n         \n         - **Subject**: "
  const TopicLabel: string := "\n         - **Topic**: "
  const DifficultyLabel: string := "\n         - **Difficulty Level**: "
  const FormatLabel: string := " (Easy, Medium, Hard)\n         - **Test Format**: "
  const CountLabel: string := " (Multiple Choice, True/False, Fill in the Blank, etc.)\n         - **Number of Questions**: "
  /** The demand for bare JSON and the structure the answer must follow. */
  const PromptSchema: string := Concat(SchemaLines)
  /** The same text line by line (each line keeps its line break). */
  const SchemaLines: seq<string> := [
    "\n",
    "\n",
    "         ***IMPORTANT:*** Return the response in **valid JSON format only** without markdown, explanations, or extra text.\n",
    "         The JSON must follow this structure:\n",
    "         {\n",
    "           \"test_id\": \"unique_test_id\",\n",
    "           \"generated_part\": 1,\n",
    "           \"total_parts\": 1,\n",
    "           \"questions\": [\n",
    "             {\n",
    "               \"question_id\": \"unique_question_id\",\n",
    "               \"question\": \"Example question?\",\n",
    "               \"options\": [\n",
    "                 { \"id\": \"a1\", \"text\": \"Option 1\" },\n",
    "                 { \"id\": \"b1\", \"text\": \"Option 2\" },\n",
    "                 { \"id\": \"c1\", \"text\": \"Option 3\" },\n",
    "                 { \"id\": \"d1\", \"text\": \"Option 4\" }\n",
    "               ],\n",
    "               \"correct_answer_id\": \"a1\",\n",
    "               \"options_order\": [\"b1\", \"a1\", \"d1\", \"c1\"]\n",
    "             }\n",
    "           ],\n",
    "           \"continue\": false\n",
    "         }"]

  /** The fixed text of the generation prompt, in order. */
  const PromptFixed: seq<string> :=
    [PromptIntro, SubjectLabel, TopicLabel, DifficultyLabel, FormatLabel, CountLabel, PromptSchema]

  /** The inserted values, in order: each argument's `String(...)`. */
  function PromptArgs(r: TestRequest): (args: seq<string>)
    ensures |args| == 6
    ensures args[0] == ToJsString(r.language) && args[1] == ToJsString(r.subject)
    ensures args[2] == ToJsString(r.topic) && args[3] == ToJsString(r.difficultyLevel)
    ensures args[4] == ToJsString(r.testFormat) && args[5] == ToJsString(r.numberOfQuestions)
  {
    [ToJsString(r.language), ToJsString(r.subject), ToJsString(r.topic),
     ToJsString(r.difficultyLevel), ToJsString(r.testFormat), ToJsString(r.numberOfQuestions)]
  }

  /** The generation prompt. */
  function GenerationPrompt(r: TestRequest): string {
    Concat(Interleave(PromptFixed, PromptArgs(r)))
  }

  const ContinueIntro: string := "Continue generating the test. Use the same format.\n         "

  /** The continuation prompt of `continueTest`. */
  function ContinuationPrompt(testId: string, generatedPart: int, totalParts: int): string {
    ContinueIntro + ("Test ID: " + testId + ", Part: " + IntToString(generatedPart) + "/" + IntToString(totalParts))
  }

  /** `continueTest(...)`: the text the generator answers to the continuation
      prompt. */
  function ContinueTest(testId: string, generatedPart: int, totalParts: int, ai: string -> Outcome<string>): Outcome<string> {
    ai(ContinuationPrompt(testId, generatedPart, totalParts))
  }

  /** The message of the TypeError JavaScript raises when a property is read
      from `undefined`. */
  function ReadingUndefined(property: string): string {
    "Cannot read properties of undefined (reading '" + property + "')"
  }

  /** `response.candidates[0].content.parts[0].text`, then `.includes` on it:
      the first missing level is a TypeError naming the property read from
      `undefined`, and its message is what the promise rejects with. */
  function FirstText(resp: Response): (r: Outcome<string>)
    ensures r.Resolved? <==>
      resp.candidates.Some? && |resp.candidates.value| > 0 &&
      resp.candidates.value[0].content.Some? &&
      resp.candidates.value[0].content.value.parts.Some? &&
      |resp.candidates.value[0].content.value.parts.value| > 0 &&
      resp.candidates.value[0].content.value.parts.value[0].text.Some?
    ensures r.Resolved? ==> Some(r.value) == resp.candidates.value[0].content.value.parts.value[0].text
    ensures resp.candidates.None? ==> r == Rejected(ReadingUndefined("0"))
    ensures resp.candidates == Some([]) ==> r == Rejected(ReadingUndefined("content"))
    ensures resp.candidates.Some? && |resp.candidates.value| > 0 && resp.candidates.value[0].content.None? ==>
      r == Rejected(ReadingUndefined("parts"))
    ensures resp.candidates.Some? && |resp.candidates.value| > 0 && resp.candidates.value[0].content.Some? ==>
      var content := resp.candidates.value[0].content.value;
      (content.parts.None? ==> r == Rejected(ReadingUndefined("0"))) &&
      (content.parts == Some([]) ==> r == Rejected(ReadingUndefined("text"))) &&
      (content.parts.Some? && |content.parts.value| > 0 && content.parts.value[0].text.None? ==>
        r == Rejected(ReadingUndefined("includes")))
  {
    match resp.candidates
    case None => Rejected(ReadingUndefined("0"))
    case Some(cs) =>
      if |cs| == 0 then Rejected(ReadingUndefined("content"))
      else match cs[0].content
        case None => Rejected(ReadingUndefined("parts"))
        case Some(content) =>
          match content.parts
          case None => Rejected(ReadingUndefined("0"))
          case Some(ps) =>
            if |ps| == 0 then Rejected(ReadingUndefined("text"))
            else match ps[0].text
              case None => Rejected(ReadingUndefined("includes"))
              case Some(text) => Resolved(text)
  }

  /** `result.replace('```json', '').replace('```', '')`. */
  function StripFence(text: string): string {
    ReplaceFirst(ReplaceFirst(text, JsonFence, ""), Fence, "")
  }

  /** What `generateTest` does with the extracted text. */
  function Interpret(text: string, parse: string -> Outcome<JsValue>): (r: Outcome<Generated>)
    ensures r.Rejected? ==> Includes(text, JsonFence) && parse(StripFence(text)).Rejected?
    ensures r.Resolved? && r.value.Parsed? ==> Includes(text, JsonFence)
  {
    if Includes(text, JsonFence) then
      match parse(StripFence(text))
      case Resolved(v) => Resolved(Parsed(v))
      case Rejected(m) => Rejected(m)
    else Resolved(Raw(text))
  }

  /** `generateTest(...)`, where `ai` answers a prompt and `parse` is `JSON.parse`. */
  function GenerateTest(r: TestRequest, ai: string -> Outcome<Response>, parse: string -> Outcome<JsValue>): (g: Outcome<Generated>)
    ensures g.Resolved? ==> ai(GenerationPrompt(r)).Resolved? && FirstText(ai(GenerationPrompt(r)).value).Resolved?
  {
    match ai(GenerationPrompt(r))
    case Rejected(m) => Rejected(m)
    case Resolved(resp) =>
      match FirstText(resp)
      case Rejected(m) => Rejected(m)
      case Resolved(text) => Interpret(text, parse)
  }

  /** Only the first part of the first candidate matters: later candidates
      and later parts never influence the result. */
  lemma OnlyFirstPartMatters(r: TestRequest, ai: string -> Outcome<Response>, parse: string -> Outcome<JsValue>,
                             p: Part, moreParts: seq<Part>, moreCandidates: seq<Candidate>)
    requires p.text.Some?
    requires ai(GenerationPrompt(r)) == Resolved(Response(Some([Candidate(Some(Content(Some([p] + moreParts))))] + moreCandidates)))
    ensures GenerateTest(r, ai, parse) == Interpret(p.text.value, parse)
  {
  }

  /** Text without a ```` ```json ```` marker comes back unchanged as a raw
      string; the parser is not consulted. */
  lemma UnfencedIsRaw(text: string, parse: string -> Outcome<JsValue>)
    requires !Includes(text, JsonFence)
    ensures Interpret(text, parse) == Resolved(Raw(text))
  {
  }

  /** A fenced answer `pre ```json body ``` post` is unwrapped to
      `pre body post` before parsing, when neither `pre` nor `body` contains
      a backtick: the first ```` ```json ```` goes, then the first remaining
      ```` ``` ````, and nothing else changes. */
  lemma FencedIsUnwrapped(pre: string, body: string, post: string)
    requires '`' !in pre && '`' !in body
    ensures Includes(pre + JsonFence + (body + Fence + post), JsonFence)
    ensures StripFence(pre + JsonFence + (body + Fence + post)) == pre + body + post
  {
    IncludesMiddle(pre, JsonFence, body + Fence + post);
    assert '`' !in pre + body;
    RemoveTwo(pre, body, post, JsonFence, Fence);
  }

  /** Only the first ```` ```json ```` marker is removed: in a text with two
      of them, the second survives into what is parsed. */
  lemma OnlyFirstMarkerRemoved(a: string, b: string)
    requires '`' !in a && '`' !in b
    ensures StripFence(a + JsonFence + (b + JsonFence)) == a + b + "json"
  {
    assert '`' !in a + b;
    RemoveTwo(a, b, "json", JsonFence, Fence);
    assert b + JsonFence == b + Fence + "json";
  }

  /** Each argument appears in the generation prompt verbatim, between its
      own label and the next one (the last, the number of questions, before
      the demand for bare JSON of the fixed structure). */
  lemma PromptNamesEveryField(r: TestRequest, k: nat)
    requires k < 6
    ensures Includes(GenerationPrompt(r), PromptFixed[k] + PromptArgs(r)[k] + PromptFixed[k + 1])
  {
    TemplateWindow(PromptFixed, PromptArgs(r), k);
  }

  /** For instance, the subject follows its label and precedes the topic's. */
  lemma PromptNamesSubject(r: TestRequest)
    ensures Includes(GenerationPrompt(r), SubjectLabel + ToJsString(r.subject) + TopicLabel)
  {
    PromptNamesEveryField(r, 1);
  }

  /** The continuation prompt carries `Test ID: <id>, Part: <part>/<total>`. */
  lemma ContinuationNamesPart(testId: string, generatedPart: int, totalParts: int)
    ensures Includes(ContinuationPrompt(testId, generatedPart, totalParts),
      "Test ID: " + testId + ", Part: " + IntToString(generatedPart) + "/" + IntToString(totalParts))
  {
    var x := "Test ID: " + testId + ", Part: " + IntToString(generatedPart) + "/" + IntToString(totalParts);
    assert ContinuationPrompt(testId, generatedPart, totalParts) == ContinueIntro + x + "";
    IncludesMiddle(ContinueIntro, x, "");
  }
}
