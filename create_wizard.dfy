/** The test-creation wizard (admin-platform/app/dashboard/create/page.tsx):
    the step machine, topic selection, the form's validation bounds, the
    requests it sends to the gateway and how it reacts to the gateway's
    events. Requests are appended to a log of sent events. */
module CreateWizard {
  import opened Common
  import Gateway

  // Event names shared with the server.
  const CreateTestByForm: string := "create:test:by:form"
  const CreateTestByBook: string := "create:test:by:book"

  /** The form's values. */
  datatype FormValues = FormValues(
    subject: string,
    topic: string,
    difficultyLevel: string,
    testFormat: string,
    language: string,
    numberOfQuestions: int,
    userPrompt: Option<string>)

  /** The request body sent to the gateway. */
  datatype Request = Request(
    subject: string,
    topic: string,
    difficultyLevel: string,
    testFormat: string,
    numberOfQuestions: int,
    userPrompt: string)

  datatype Sent = Sent(event: string, request: Request)

  /** The validation schema: the five strings non-empty and between 5 and 50
      questions; the prompt is optional. */
  predicate SchemaAccepts(v: FormValues) {
    |v.subject| >= 1 && |v.topic| >= 1 && |v.difficultyLevel| >= 1 && |v.testFormat| >= 1
    && |v.language| >= 1 && 5 <= v.numberOfQuestions <= 50
  }

  /** What the schema guarantees of every request the wizard sends: between
      5 and 50 questions, and a subject, difficulty and format. */
  predicate RequestInBounds(r: Request) {
    5 <= r.numberOfQuestions <= 50 && r.subject != "" && r.difficultyLevel != "" && r.testFormat != ""
  }

  /** `value || ""` for an optional string. */
  function OrEmpty(s: Option<string>): (r: string)
    ensures s.Some? ==> r == s.value
    ensures s.None? ==> r == ""
  {
    if s.Some? then s.value else ""
  }

  /** The request `handleGenerate` sends. */
  function FormRequest(v: FormValues): (r: Request)
    ensures r.subject == v.subject && r.topic == v.topic
    ensures r.difficultyLevel == v.difficultyLevel && r.testFormat == v.testFormat
    ensures r.numberOfQuestions == v.numberOfQuestions && r.userPrompt == OrEmpty(v.userPrompt)
  {
    Request(v.subject, v.topic, v.difficultyLevel, v.testFormat, v.numberOfQuestions, OrEmpty(v.userPrompt))
  }

  /** The request `handleGenerateFromBook` sends: the selected topics joined
      by `", "` and a prompt naming the book. */
  function BookRequest(v: FormValues, topics: seq<string>, fileName: string): (r: Request)
    ensures r.subject == v.subject && r.topic == Join(topics, ", ")
    ensures r.difficultyLevel == v.difficultyLevel && r.testFormat == v.testFormat
    ensures r.numberOfQuestions == v.numberOfQuestions
    ensures r.userPrompt == "Book: " + fileName + ". " + OrEmpty(v.userPrompt)
  {
    Request(v.subject, Join(topics, ", "), v.difficultyLevel, v.testFormat, v.numberOfQuestions,
      "Book: " + fileName + ". " + OrEmpty(v.userPrompt))
  }

  /** A form request built from accepted values stays within the schema's
      bounds and names its topic. */
  lemma FormRequestInBounds(v: FormValues)
    requires SchemaAccepts(v)
    ensures RequestInBounds(FormRequest(v)) && FormRequest(v).topic != ""
  {
  }

  /** A book request built from accepted values stays within the schema's
      bounds; its topic is the selected topics joined. */
  lemma BookRequestInBounds(v: FormValues, topics: seq<string>, fileName: string)
    requires SchemaAccepts(v)
    ensures RequestInBounds(BookRequest(v, topics, fileName))
  {
  }

  /** The chosen language never reaches the form request. */
  lemma FormRequestIgnoresLanguage(v: FormValues, language: string)
    ensures FormRequest(v.(language := language)) == FormRequest(v)
  {
  }

  /** A request as the JSON object the gateway receives. */
  function AsPayload(r: Request): (p: Gateway.Payload)
    ensures p.Keys == {"subject", "topic", "difficulty_level", "test_format", "number_of_questions", "user_prompt"}
  {
    map["subject" := JsStr(r.subject), "topic" := JsStr(r.topic),
        "difficulty_level" := JsStr(r.difficultyLevel), "test_format" := JsStr(r.testFormat),
        "number_of_questions" := JsNum(r.numberOfQuestions), "user_prompt" := JsStr(r.userPrompt)]
  }

  /** Every request the wizard builds passes the gateway's form check, and
      the gateway hands the wizard's free-text prompt, not the chosen
      language, to the generator's language slot. */
  lemma WizardRequestAccepted(r: Request)
    ensures Gateway.IsValidPayload(AsPayload(r), Gateway.FormFields)
    ensures Gateway.FormRequest(AsPayload(r)).language == JsStr(r.userPrompt)
    ensures Gateway.FormRequest(AsPayload(r)).subject == JsStr(r.subject)
  {
    var p := AsPayload(r);
    assert forall i :: 0 <= i < |Gateway.FormFields| ==> Gateway.FormFields[i] in p;
  }

  /** A book request carries no `testId`, so the gateway's book handler
      always answers it with `"testId is required"`. */
  lemma BookRequestLacksTestId(v: FormValues, topics: seq<string>, fileName: string)
    ensures !Truthy(Gateway.Get(AsPayload(BookRequest(v, topics, fileName)), "testId"))
  {
    assert "testId" !in AsPayload(BookRequest(v, topics, fileName));
  }

  /** Removes every copy of `t`. */
  function RemoveAll(ts: seq<string>, t: string): (r: seq<string>)
    ensures t !in r
    ensures forall x :: x != t ==> (x in r <==> x in ts)
    ensures t !in ts ==> r == ts
  {
    if ts == [] then []
    else if ts[0] == t then RemoveAll(ts[1..], t)
    else [ts[0]] + RemoveAll(ts[1..], t)
  }

  /** Removal keeps the other topics in order: it distributes over
      concatenation, and a single topic is kept exactly when it differs. */
  lemma {:induction false} RemoveAllAppend(a: seq<string>, b: seq<string>, t: string)
    ensures RemoveAll(a + b, t) == RemoveAll(a, t) + RemoveAll(b, t)
    ensures RemoveAll([t], t) == [] && forall x :: x != t ==> RemoveAll([x], t) == [x]
  {
    if a == [] {
      assert a + b == b;
    } else {
      assert (a + b)[0] == a[0];
      assert (a + b)[1..] == a[1..] + b;
      RemoveAllAppend(a[1..], b, t);
      if a[0] != t {
        assert [a[0]] + (RemoveAll(a[1..], t) + RemoveAll(b, t)) == [a[0]] + RemoveAll(a[1..], t) + RemoveAll(b, t);
      }
    }
    assert [t][1..] == [];
  }

  /** `toggleTopic`: a selected topic is deselected (all its copies go), an
      unselected one is appended. */
  function Toggle(ts: seq<string>, t: string): (r: seq<string>)
    ensures t in ts ==> t !in r && forall x :: x != t ==> (x in r <==> x in ts)
    ensures t in ts ==> r == RemoveAll(ts, t)
    ensures t !in ts ==> r == ts + [t]
  {
    if t in ts then RemoveAll(ts, t) else ts + [t]
  }

  /** Removing a topic that was appended to a list without it gives the list
      back. */
  lemma {:induction false} RemoveAppended(ts: seq<string>, t: string)
    requires t !in ts
    ensures RemoveAll(ts + [t], t) == ts
  {
    if ts == [] {
      assert [] + [t] == [t];
      assert [t][1..] == [];
    } else {
      assert (ts + [t])[0] == ts[0];
      assert (ts + [t])[1..] == ts[1..] + [t];
      RemoveAppended(ts[1..], t);
      assert [ts[0]] + ts[1..] == ts;
    }
  }

  /** Toggling an unselected topic twice restores the selection. */
  lemma ToggleTwiceRestores(ts: seq<string>, t: string)
    requires t !in ts
    ensures Toggle(Toggle(ts, t), t) == ts
  {
    RemoveAppended(ts, t);
  }

  /** The value a progress event moves the bar to: `Math.max(progress || 0, current)`. */
  function ProgressAfter(current: int, reported: Option<int>): (r: int)
    ensures r >= current
    ensures r >= (if reported.Some? then reported.value else 0)
    ensures r == current || r == (if reported.Some? then reported.value else 0)
  {
    var p := if reported.Some? then reported.value else 0;
    if p > current then p else current
  }

  /** The message shown for a server error: `err.message || "Server error"`. */
  function ErrorMessage(message: Option<string>): (m: string)
    ensures m != ""
    ensures message.Some? && message.value != "" ==> m == message.value
    ensures !(message.Some? && message.value != "") ==> m == "Server error"
  {
    if message.Some? && message.value != "" then message.value else "Server error"
  }

  class Wizard {
    var step: int
    var selectedTopics: seq<string>
    var file: Option<string>
    var isGenerating: bool
    var generatingProgress: int
    var error: Option<string>
    var testData: JsValue
    var sent: seq<Sent>

    /** The step is always one of the three wizard steps, and every request
        sent so far passed the form's schema. */
    predicate Valid()
      reads this
    {
      1 <= step <= 3 && forall i :: 0 <= i < |sent| ==> RequestInBounds(sent[i].request)
    }

    constructor ()
      ensures Valid() && step == 1 && selectedTopics == [] && file == None
      ensures !isGenerating && generatingProgress == 0 && error == None && testData == JsNull && sent == []
    {
      step := 1;
      selectedTopics := [];
      file := None;
      isGenerating := false;
      generatingProgress := 0;
      error := None;
      testData := JsNull;
      sent := [];
    }

    /** `nextStep`: advances unless on the last step. */
    method NextStep()
      requires Valid()
      modifies this
      ensures Valid() && step == if old(step) < 3 then old(step) + 1 else 3
      ensures selectedTopics == old(selectedTopics) && file == old(file) && isGenerating == old(isGenerating)
      ensures generatingProgress == old(generatingProgress) && error == old(error)
      ensures testData == old(testData) && sent == old(sent)
    {
      if step < 3 {
        step := step + 1;
      }
    }

    /** `prevStep`: goes back unless on the first step. */
    method PrevStep()
      requires Valid()
      modifies this
      ensures Valid() && step == if old(step) > 1 then old(step) - 1 else 1
      ensures selectedTopics == old(selectedTopics) && file == old(file) && isGenerating == old(isGenerating)
      ensures generatingProgress == old(generatingProgress) && error == old(error)
      ensures testData == old(testData) && sent == old(sent)
    {
      if step > 1 {
        step := step - 1;
      }
    }

    /** `forceNextStep`: jumps to the preview as if generation had finished. */
    method ForceNextStep()
      requires Valid()
      modifies this
      ensures Valid() && step == 3 && !isGenerating && generatingProgress == 100
      ensures selectedTopics == old(selectedTopics) && file == old(file) && error == old(error)
      ensures testData == old(testData) && sent == old(sent)
    {
      isGenerating := false;
      generatingProgress := 100;
      step := 3;
    }

    /** `toggleTopic`. */
    method ToggleTopic(topic: string)
      requires Valid()
      modifies this
      ensures selectedTopics == Toggle(old(selectedTopics), topic)
      ensures step == old(step) && file == old(file) && isGenerating == old(isGenerating)
      ensures generatingProgress == old(generatingProgress) && error == old(error)
      ensures testData == old(testData) && sent == old(sent)
      ensures Valid()
    {
      selectedTopics := Toggle(selectedTopics, topic);
    }

    /** Choosing a book file. */
    method ChooseFile(name: string)
      requires Valid()
      modifies this
      ensures file == Some(name)
      ensures step == old(step) && selectedTopics == old(selectedTopics) && isGenerating == old(isGenerating)
      ensures generatingProgress == old(generatingProgress) && error == old(error)
      ensures testData == old(testData) && sent == old(sent)
      ensures Valid()
    {
      file := Some(name);
    }

    /** `handleGenerate`: starts generating and sends the form request. */
    method Generate(values: FormValues)
      requires Valid()
      requires SchemaAccepts(values)
      modifies this
      ensures isGenerating && generatingProgress == 0
      ensures sent == old(sent) + [Sent(CreateTestByForm, FormRequest(values))]
      ensures step == old(step) && selectedTopics == old(selectedTopics) && file == old(file)
      ensures error == old(error) && testData == old(testData)
      ensures Valid()
    {
      isGenerating := true;
      generatingProgress := 0;
      FormRequestInBounds(values);
      sent := sent + [Sent(CreateTestByForm, FormRequest(values))];
    }

    /** `handleGenerateFromBook`: without a file or a selected topic nothing
        happens; otherwise it starts generating and sends the book request. */
    method GenerateFromBook(values: FormValues)
      requires Valid()
      requires SchemaAccepts(values)
      modifies this
      ensures old(file).None? || |old(selectedTopics)| == 0 ==>
        isGenerating == old(isGenerating) && generatingProgress == old(generatingProgress) && sent == old(sent)
      ensures old(file).Some? && |old(selectedTopics)| > 0 ==>
        isGenerating && generatingProgress == 0 &&
        sent == old(sent) + [Sent(CreateTestByBook, BookRequest(values, old(selectedTopics), old(file).value))]
      ensures step == old(step) && selectedTopics == old(selectedTopics) && file == old(file)
      ensures error == old(error) && testData == old(testData)
      ensures Valid()
    {
      if file.None? || |selectedTopics| == 0 {
        return;
      }
      isGenerating := true;
      generatingProgress := 0;
      BookRequestInBounds(values, selectedTopics, file.value);
      sent := sent + [Sent(CreateTestByBook, BookRequest(values, selectedTopics, file.value))];
    }

    /** A progress event: the bar never moves backwards. */
    method OnProgress(reported: Option<int>)
      requires Valid()
      modifies this
      ensures generatingProgress == ProgressAfter(old(generatingProgress), reported)
      ensures step == old(step) && selectedTopics == old(selectedTopics) && file == old(file)
      ensures isGenerating == old(isGenerating) && error == old(error)
      ensures testData == old(testData) && sent == old(sent)
      ensures Valid()
    {
      generatingProgress := ProgressAfter(generatingProgress, reported);
    }

    /** The created event: the test is kept and generation ends at 100. */
    method OnCreated(data: JsValue)
      requires Valid()
      modifies this
      ensures testData == data && !isGenerating && generatingProgress == 100
      ensures step == old(step) && selectedTopics == old(selectedTopics) && file == old(file)
      ensures error == old(error) && sent == old(sent)
      ensures Valid()
    {
      testData := data;
      isGenerating := false;
      generatingProgress := 100;
    }

    /** The created event's delayed move to the preview step. */
    method OnCreatedTimeout()
      requires Valid()
      modifies this
      ensures Valid() && step == 3
      ensures selectedTopics == old(selectedTopics) && file == old(file) && isGenerating == old(isGenerating)
      ensures generatingProgress == old(generatingProgress) && error == old(error)
      ensures testData == old(testData) && sent == old(sent)
    {
      step := 3;
    }

    /** The error event: the message is shown and generation stops. */
    method OnError(message: Option<string>)
      requires Valid()
      modifies this
      ensures error == Some(ErrorMessage(message)) && !isGenerating
      ensures step == old(step) && selectedTopics == old(selectedTopics) && file == old(file)
      ensures generatingProgress == old(generatingProgress) && testData == old(testData) && sent == old(sent)
      ensures Valid()
    {
      error := Some(ErrorMessage(message));
      isGenerating := false;
    }
  }
}
