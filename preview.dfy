/** The generated-test preview (admin-platform/components/test-preview.tsx):
    conversion of the server's test into the editor's form, and the editor's
    handlers for deleting, adding and editing questions and for saving the
    title and description. Question ids are JavaScript numbers produced by
    `parseInt`, so `NaN` is a possible id and is never strictly equal to
    anything. */
module Preview {
  import opened Common

  // ---------------------------------------------------------------------
  // Numbers as `parseInt` produces them

  /** An integer-valued JavaScript number, or `NaN`. */
  datatype Number = Num(n: int) | NaN

  /** `a === b` on numbers: `NaN` equals nothing, itself included. */
  predicate StrictEq(a: Number, b: Number) {
    a.Num? && b.Num? && a.n == b.n
  }

  /** A digit in base 10 or 16. */
  predicate IsRadixDigit(c: char, radix: nat) {
    if radix == 16 then IsDigit(c) || ('a' <= c <= 'f') || ('A' <= c <= 'F') else IsDigit(c)
  }

  function RadixDigitValue(c: char, radix: nat): (d: nat)
    requires IsRadixDigit(c, radix)
    ensures IsDigit(c) ==> d == DigitValue(c)
  {
    if IsDigit(c) then DigitValue(c)
    else if 'a' <= c <= 'f' then (c as int) - ('a' as int) + 10
    else (c as int) - ('A' as int) + 10
  }

  predicate AllRadixDigits(s: string, radix: nat) {
    forall i :: 0 <= i < |s| ==> IsRadixDigit(s[i], radix)
  }

  /** The value of a string of digits in the given base. */
  function RadixValue(s: string, radix: nat): nat
    requires AllRadixDigits(s, radix)
  {
    if s == [] then 0 else radix * RadixValue(s[..|s| - 1], radix) + RadixDigitValue(s[|s| - 1], radix)
  }

  /** The longest prefix of `s` made of digits of the base. */
  function LeadingDigits(s: string, radix: nat): (d: string)
    ensures d <= s && AllRadixDigits(d, radix)
    ensures |d| < |s| ==> !IsRadixDigit(s[|d|], radix)
  {
    if s == [] || !IsRadixDigit(s[0], radix) then [] else [s[0]] + LeadingDigits(s[1..], radix)
  }

  /** A string made only of white space. */
  predicate AllSpace(s: string) {
    forall j :: 0 <= j < |s| ==> IsJsSpace(s[j])
  }

  /** `s.trimStart()` as `parseInt` applies it. */
  function TrimStart(s: string): (r: string)
    ensures |r| <= |s|
    ensures |r| > 0 ==> !IsJsSpace(r[0])
  {
    if s != [] && IsJsSpace(s[0]) then TrimStart(s[1..]) else s
  }

  /** Trimming drops a prefix made only of white space and keeps the rest
      as it was. */
  lemma {:induction false} TrimStartDropsSpace(s: string)
    ensures TrimStart(s) == s[|s| - |TrimStart(s)|..]
    ensures AllSpace(s[..|s| - |TrimStart(s)|])
  {
    if s != [] && IsJsSpace(s[0]) {
      TrimStartDropsSpace(s[1..]);
      var r := TrimStart(s);
      assert s[..|s| - |r|] == [s[0]] + s[1..][..|s| - 1 - |r|];
      assert s[1..][|s| - 1 - |r|..] == s[|s| - |r|..];
    } else {
      assert s[..0] == [];
    }
  }

  /** A string that does not start with white space is kept whole. */
  lemma TrimStartKeeps(s: string)
    requires s == [] || !IsJsSpace(s[0])
    ensures TrimStart(s) == s
  {
  }

  /** `Number.parseInt(s)` without a radix: leading white space is skipped,
      one sign is read, a `0x`/`0X` prefix selects base 16, and the longest
      run of digits that follows is read; no digit at all gives `NaN`. */
  function ParseInt(s: string): Number {
    var t := TrimStart(s);
    if |t| > 0 && t[0] == '-' then Negate(ParseUnsigned(t[1..]))
    else if |t| > 0 && t[0] == '+' then ParseUnsigned(t[1..])
    else ParseUnsigned(t)
  }

  /** The sign applied to what follows it; `NaN` stays `NaN`. */
  function Negate(x: Number): Number {
    if x.NaN? then NaN else Num(0 - x.n)
  }

  /** What follows the sign: an optional `0x`/`0X` prefix, then the longest
      run of digits of the base. */
  function ParseUnsigned(u: string): Number {
    var hex := |u| >= 2 && u[0] == '0' && (u[1] == 'x' || u[1] == 'X');
    var radix := if hex then 16 else 10;
    var d := LeadingDigits(if hex then u[2..] else u, radix);
    if d == [] then NaN else Num(RadixValue(d, radix))
  }

  /** In base 10 the digit value agrees with the decimal one. */
  lemma {:induction false} DecimalValue(s: string)
    requires AllDigits(s)
    ensures AllRadixDigits(s, 10) && RadixValue(s, 10) == DigitsValue(s)
  {
    if s != [] {
      DecimalValue(s[..|s| - 1]);
    }
  }

  /** A string made only of digits is read whole. */
  lemma {:induction false} LeadingDigitsAll(s: string)
    requires AllDigits(s)
    ensures LeadingDigits(s, 10) == s
  {
    if s != [] {
      LeadingDigitsAll(s[1..]);
    }
  }

  /** `parseInt` reads back the decimal numeral of any integer. */
  lemma ParseIntRoundTrip(i: int)
    ensures ParseInt(IntToString(i)) == Num(i)
  {
    if i < 0 {
      NegativeRoundTrip(i);
    } else {
      NonNegativeRoundTrip(i);
    }
  }

  lemma NegativeRoundTrip(i: int)
    requires i < 0
    ensures ParseInt(IntToString(i)) == Num(i)
  {
    var digits := NatToString(-i);
    assert IntToString(i) == "-" + digits;
    NatToStringRoundTrip(-i);
    ParseNegative(digits);
  }

  lemma NonNegativeRoundTrip(i: int)
    requires i >= 0
    ensures ParseInt(IntToString(i)) == Num(i)
  {
    var digits := NatToString(i);
    assert IntToString(i) == digits;
    NatToStringRoundTrip(i);
    ParseNonNegative(digits);
  }

  /** A numeral without leading zeros is read as its value. */
  lemma ParseNonNegative(digits: string)
    requires |digits| >= 1 && AllDigits(digits) && (|digits| > 1 ==> digits[0] != '0')
    ensures ParseInt(digits) == Num(DigitsValue(digits))
  {
    TrimStartKeeps(digits);
    ParseUnsignedDigits(digits);
  }

  /** A minus sign before such a numeral negates its value. */
  lemma ParseNegative(digits: string)
    requires |digits| >= 1 && AllDigits(digits) && (|digits| > 1 ==> digits[0] != '0')
    ensures ParseInt("-" + digits) == Num(0 - DigitsValue(digits))
  {
    TrimStartKeeps("-" + digits);
    assert ("-" + digits)[1..] == digits;
    ParseUnsignedDigits(digits);
  }

  /** A numeral without leading zeros is read as its decimal value. */
  lemma ParseUnsignedDigits(digits: string)
    requires |digits| >= 1 && AllDigits(digits) && (|digits| > 1 ==> digits[0] != '0')
    ensures ParseUnsigned(digits) == Num(DigitsValue(digits))
  {
    LeadingDigitsAll(digits);
    DecimalValue(digits);
  }

  // ---------------------------------------------------------------------
  // The two shapes of a test

  /** An answer option; the server's and the editor's have the same shape. */
  datatype Choice = Choice(id: string, text: string)

  datatype ServerQuestion = ServerQuestion(
    questionId: string,
    question: string,
    options: seq<Choice>,
    correctAnswerId: string,
    optionsOrder: seq<string>,
    explanation: string)

  datatype ServerTestData = ServerTestData(
    testId: string,
    generatedPart: int,
    totalParts: int,
    questions: seq<ServerQuestion>,
    more: bool)

  datatype TestQuestion = TestQuestion(
    id: Number,
    text: string,
    kind: string,
    options: seq<Choice>,
    correctAnswer: string)

  datatype TestData = TestData(id: string, title: string, description: string, questions: seq<TestQuestion>)

  const MultipleChoice: string := "multiple-choice"
  const DefaultDescription: string := "A comprehensive test covering basic algebraic concepts and equations."

  /** `Number.parseInt(questionId.replace("q", ""))`. */
  function ConvertId(questionId: string): Number {
    ParseInt(ReplaceFirst(questionId, "q", ""))
  }

  /** The question ids the server generates, `"q"` and a numeral, become
      that number. */
  lemma ConvertIdOfNumberedId(n: nat)
    ensures ConvertId("q" + NatToString(n)) == Num(n)
  {
    RemoveLeadingQ(NatToString(n));
    ParseIntRoundTrip(n);
  }

  /** The `"q"` in front is the one `replace` removes. */
  lemma RemoveLeadingQ(s: string)
    ensures ReplaceFirst("q" + s, "q", "") == s
  {
    FirstOccurrence("", "q", s);
    assert "" + "q" + s == "q" + s;
    assert ("q" + s)[1..] == s;
  }

  function ConvertQuestion(q: ServerQuestion): TestQuestion {
    TestQuestion(ConvertId(q.questionId), q.question, MultipleChoice, q.options, q.correctAnswerId)
  }

  /** The conversion run when server data arrives. */
  function ConvertServerTest(d: ServerTestData): (t: TestData)
    ensures t.id == d.testId && t.title == d.testId && t.description == DefaultDescription
    ensures |t.questions| == |d.questions|
    ensures forall i :: 0 <= i < |d.questions| ==>
      t.questions[i].text == d.questions[i].question &&
      t.questions[i].kind == MultipleChoice &&
      t.questions[i].options == d.questions[i].options &&
      t.questions[i].correctAnswer == d.questions[i].correctAnswerId
  {
    TestData(d.testId, d.testId, DefaultDescription, seq(|d.questions|, i requires 0 <= i < |d.questions| => ConvertQuestion(d.questions[i])))
  }

  /** Converted questions whose server ids are `"q1"`, `"q2"`, ... carry the
      ids 1, 2, ... */
  lemma ConvertedIds(d: ServerTestData, i: nat, n: nat)
    requires i < |d.questions| && d.questions[i].questionId == "q" + NatToString(n)
    ensures ConvertServerTest(d).questions[i].id == Num(n)
  {
    ConvertIdOfNumberedId(n);
  }

  // ---------------------------------------------------------------------
  // List operations of the editor

  /** `questions.filter(q => q.id !== id)`. */
  function Delete(qs: seq<TestQuestion>, id: Number): (r: seq<TestQuestion>)
    ensures forall q :: q in r ==> q in qs && !StrictEq(q.id, id)
    ensures forall q :: q in qs && !StrictEq(q.id, id) ==> q in r
  {
    if qs == [] then []
    else if StrictEq(qs[0].id, id) then Delete(qs[1..], id)
    else [qs[0]] + Delete(qs[1..], id)
  }

  /** Filtering distributes over concatenation, so the kept questions stay
      in their original order. */
  lemma {:induction false} DeleteAppend(a: seq<TestQuestion>, b: seq<TestQuestion>, id: Number)
    ensures Delete(a + b, id) == Delete(a, id) + Delete(b, id)
  {
    if a == [] {
      assert a + b == b;
    } else {
      assert (a + b)[0] == a[0];
      assert (a + b)[1..] == a[1..] + b;
      DeleteAppend(a[1..], b, id);
      if !StrictEq(a[0].id, id) {
        assert [a[0]] + (Delete(a[1..], id) + Delete(b, id)) == [a[0]] + Delete(a[1..], id) + Delete(b, id);
      }
    }
  }

  /** Deleting an id no question has changes nothing; in particular deleting
      `NaN` never removes anything. */
  lemma {:induction false} DeleteAbsent(qs: seq<TestQuestion>, id: Number)
    requires forall q :: q in qs ==> !StrictEq(q.id, id)
    ensures Delete(qs, id) == qs
  {
    if qs != [] {
      assert !StrictEq(qs[0].id, id) by { assert qs[0] in qs; }
      assert forall q :: q in qs[1..] ==> !StrictEq(q.id, id) by {
        forall q | q in qs[1..] ensures !StrictEq(q.id, id) {
          assert q in qs;
        }
      }
      DeleteAbsent(qs[1..], id);
      assert Delete(qs, id) == [qs[0]] + qs[1..];
      assert [qs[0]] + qs[1..] == qs;
    }
  }

  /** `Math.max(0, ...ids) + 1`: `NaN` as soon as one id is `NaN`. */
  function NextId(qs: seq<TestQuestion>): (r: Number)
    ensures (exists q :: q in qs && q.id.NaN?) ==> r == NaN
    ensures (forall q :: q in qs ==> q.id.Num?) ==>
      r.Num? && r.n >= 1 && forall q :: q in qs ==> q.id.n < r.n
    ensures (forall q :: q in qs ==> q.id.Num?) ==>
      r.n == 1 || exists q :: q in qs && r.n == q.id.n + 1
  {
    if qs == [] then Num(1)
    else
      var rest := NextId(qs[1..]);
      assert forall q :: q in qs[1..] ==> q in qs;
      if qs[0].id.NaN? || rest.NaN? then NaN
      else if qs[0].id.n + 1 > rest.n then Num(qs[0].id.n + 1)
      else rest
  }

  /** The question `handleAddQuestion` appends. */
  function NewQuestion(qs: seq<TestQuestion>): TestQuestion {
    TestQuestion(NextId(qs), "New question", MultipleChoice,
      [Choice("a", "Option A"), Choice("b", "Option B"), Choice("c", "Option C"), Choice("d", "Option D")], "a")
  }

  /** The edited question replaces the text, options and correct answer of
      every question whose id is strictly equal to the one being edited. */
  function ApplyEdit(qs: seq<TestQuestion>, id: Number, text: string, options: seq<Choice>, correct: string): (r: seq<TestQuestion>)
    ensures |r| == |qs|
    ensures forall i :: 0 <= i < |qs| ==> r[i].id == qs[i].id && r[i].kind == qs[i].kind
    ensures forall i :: 0 <= i < |qs| && !StrictEq(qs[i].id, id) ==> r[i] == qs[i]
    ensures forall i :: 0 <= i < |qs| && StrictEq(qs[i].id, id) ==>
      r[i].text == text && r[i].options == options && r[i].correctAnswer == correct
  {
    seq(|qs|, i requires 0 <= i < |qs| =>
      if StrictEq(qs[i].id, id) then qs[i].(text := text, options := options, correctAnswer := correct) else qs[i])
  }

  /** Saving the same edit twice is the same as saving it once. */
  lemma ApplyEditIdempotent(qs: seq<TestQuestion>, id: Number, text: string, options: seq<Choice>, correct: string)
    ensures ApplyEdit(ApplyEdit(qs, id, text, options, correct), id, text, options, correct)
      == ApplyEdit(qs, id, text, options, correct)
  {
  }

  /** `handleOptionChange`: the option at `index` takes the new text. */
  function ChangeOption(options: seq<Choice>, index: nat, value: string): (r: seq<Choice>)
    requires index < |options|
    ensures |r| == |options|
    ensures forall i :: 0 <= i < |options| ==> r[i].id == options[i].id
    ensures r[index].text == value
    ensures forall i :: 0 <= i < |options| && i != index ==> r[i] == options[i]
  {
    options[index := options[index].(text := value)]
  }

  // ---------------------------------------------------------------------
  // The component's state

  class TestPreview {
    var test: TestData
    var title: string
    var description: string
    var editingTitle: bool
    var editingDescription: bool
    var editingQuestion: Option<Number>
    var editQuestionText: string
    var editQuestionOptions: seq<Choice>
    var editQuestionCorrectAnswer: string
    var isEditDialogOpen: bool

    /** The initial state: the sample test, whose id is the server's test id
        when it is non-empty and `"test-"` followed by a random suffix
        otherwise. */
    constructor (testData: Option<ServerTestData>, sample: TestData, randomSuffix: string)
      ensures test == sample.(id := if testData.Some? && testData.value.testId != "" then testData.value.testId else "test-" + randomSuffix)
      ensures title == if testData.Some? && testData.value.testId != "" then testData.value.testId else "Algebra Fundamentals"
      ensures description == DefaultDescription
      ensures !editingTitle && !editingDescription && editingQuestion == None && !isEditDialogOpen
      ensures editQuestionText == "" && editQuestionOptions == [] && editQuestionCorrectAnswer == ""
    {
      var named := testData.Some? && testData.value.testId != "";
      test := sample.(id := if named then testData.value.testId else "test-" + randomSuffix);
      title := if named then testData.value.testId else "Algebra Fundamentals";
      description := DefaultDescription;
      editingTitle, editingDescription := false, false;
      editingQuestion := None;
      editQuestionText, editQuestionOptions, editQuestionCorrectAnswer := "", [], "";
      isEditDialogOpen := false;
    }

    /** The effect run when server data arrives. */
    method Load(testData: Option<ServerTestData>)
      modifies this
      ensures testData.None? ==> test == old(test) && title == old(title)
      ensures testData.Some? ==> test == ConvertServerTest(testData.value) && title == testData.value.testId
      ensures description == old(description) && editingQuestion == old(editingQuestion)
      ensures editQuestionText == old(editQuestionText) && editQuestionOptions == old(editQuestionOptions)
      ensures editQuestionCorrectAnswer == old(editQuestionCorrectAnswer) && isEditDialogOpen == old(isEditDialogOpen)
      ensures editingTitle == old(editingTitle) && editingDescription == old(editingDescription)
    {
      if testData.Some? {
        test := ConvertServerTest(testData.value);
        title := testData.value.testId;
      }
    }

    /** `handleSaveTitle`: only the test's title changes. */
    method SaveTitle()
      modifies this
      ensures test == old(test).(title := old(title)) && !editingTitle
      ensures title == old(title) && description == old(description) && editingDescription == old(editingDescription)
      ensures editingQuestion == old(editingQuestion) && isEditDialogOpen == old(isEditDialogOpen)
      ensures editQuestionText == old(editQuestionText) && editQuestionOptions == old(editQuestionOptions)
      ensures editQuestionCorrectAnswer == old(editQuestionCorrectAnswer)
    {
      test := test.(title := title);
      editingTitle := false;
    }

    /** `handleSaveDescription`: only the test's description changes. */
    method SaveDescription()
      modifies this
      ensures test == old(test).(description := old(description)) && !editingDescription
      ensures title == old(title) && description == old(description) && editingTitle == old(editingTitle)
      ensures editingQuestion == old(editingQuestion) && isEditDialogOpen == old(isEditDialogOpen)
      ensures editQuestionText == old(editQuestionText) && editQuestionOptions == old(editQuestionOptions)
      ensures editQuestionCorrectAnswer == old(editQuestionCorrectAnswer)
    {
      test := test.(description := description);
      editingDescription := false;
    }

    /** `handleDeleteQuestion`. */
    method DeleteQuestion(id: Number)
      modifies this
      ensures test == old(test).(questions := Delete(old(test.questions), id))
      ensures title == old(title) && description == old(description)
      ensures editingQuestion == old(editingQuestion) && isEditDialogOpen == old(isEditDialogOpen)
      ensures editQuestionText == old(editQuestionText) && editQuestionOptions == old(editQuestionOptions)
      ensures editQuestionCorrectAnswer == old(editQuestionCorrectAnswer)
      ensures editingTitle == old(editingTitle) && editingDescription == old(editingDescription)
    {
      test := test.(questions := Delete(test.questions, id));
    }

    /** `openEditDialog`: the edit buffers take the question's contents. */
    method OpenEditDialog(q: TestQuestion)
      modifies this
      ensures editingQuestion == Some(q.id) && isEditDialogOpen
      ensures editQuestionText == q.text && editQuestionOptions == q.options && editQuestionCorrectAnswer == q.correctAnswer
      ensures test == old(test) && title == old(title) && description == old(description)
      ensures editingTitle == old(editingTitle) && editingDescription == old(editingDescription)
    {
      editingQuestion := Some(q.id);
      editQuestionText := q.text;
      editQuestionOptions := q.options;
      editQuestionCorrectAnswer := q.correctAnswer;
      isEditDialogOpen := true;
    }

    /** `handleAddQuestion`: appends a fresh question and opens it for
        editing. */
    method AddQuestion()
      modifies this
      ensures test == old(test).(questions := old(test.questions) + [NewQuestion(old(test.questions))])
      ensures editingQuestion == Some(NextId(old(test.questions))) && isEditDialogOpen
      ensures editQuestionText == "New question" && editQuestionCorrectAnswer == "a"
      ensures editQuestionOptions == NewQuestion(old(test.questions)).options
      ensures title == old(title) && description == old(description)
      ensures editingTitle == old(editingTitle) && editingDescription == old(editingDescription)
    {
      var q := NewQuestion(test.questions);
      test := test.(questions := test.questions + [q]);
      OpenEditDialog(q);
    }

    /** `handleSaveQuestion`: nothing happens when no question is being
        edited; otherwise the buffers are written into the matching
        questions and the dialog closes. */
    method SaveQuestion()
      modifies this
      ensures old(editingQuestion).None? ==>
        test == old(test) && isEditDialogOpen == old(isEditDialogOpen) && editingQuestion == None
      ensures old(editingQuestion).Some? ==>
        test == old(test).(questions := ApplyEdit(old(test.questions), old(editingQuestion).value,
          old(editQuestionText), old(editQuestionOptions), old(editQuestionCorrectAnswer))) &&
        !isEditDialogOpen && editingQuestion == None
      ensures title == old(title) && description == old(description)
      ensures editQuestionText == old(editQuestionText) && editQuestionOptions == old(editQuestionOptions)
      ensures editQuestionCorrectAnswer == old(editQuestionCorrectAnswer)
      ensures editingTitle == old(editingTitle) && editingDescription == old(editingDescription)
    {
      if editingQuestion.None? {
        return;
      }
      test := test.(questions := ApplyEdit(test.questions, editingQuestion.value,
        editQuestionText, editQuestionOptions, editQuestionCorrectAnswer));
      isEditDialogOpen := false;
      editingQuestion := None;
    }

    /** `handleOptionChange`, called for an option the dialog shows. */
    method OptionChange(index: nat, value: string)
      requires index < |editQuestionOptions|
      modifies this
      ensures editQuestionOptions == ChangeOption(old(editQuestionOptions), index, value)
      ensures test == old(test) && title == old(title) && description == old(description)
      ensures editingQuestion == old(editingQuestion) && isEditDialogOpen == old(isEditDialogOpen)
      ensures editQuestionText == old(editQuestionText) && editQuestionCorrectAnswer == old(editQuestionCorrectAnswer)
      ensures editingTitle == old(editingTitle) && editingDescription == old(editingDescription)
    {
      editQuestionOptions := ChangeOption(editQuestionOptions, index, value);
    }
  }
}
