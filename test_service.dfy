/** Finalisation of a generated test for live administration
    (server/src/platform-api/test/test.service.ts): every option receives a
    fresh id, the correct answer is re-pointed through the old-to-new id map,
    the test is stored under a random five-digit id and a random five-digit
    access code is stored for it. `uuidv4` is an injected supply of ids,
    `Math.random` an injected fraction in [0, 1), and the Prisma store a value. */
module TestService {
  import opened Common

  /** An option as the generator produced it. */
  datatype SourceOption = SourceOption(id: string, text: string)

  /** A question as the generator produced it; `correctAnswerId` is `None`
      when `correct_answer_id` is absent or null. */
  datatype SourceQuestion = SourceQuestion(
    question: string,
    options: seq<SourceOption>,
    correctAnswerId: Option<string>,
    explanation: string)

  datatype StoredOption = StoredOption(id: string, text: string)

  datatype StoredQuestion = StoredQuestion(
    question: string,
    correctAnswerId: Option<string>,
    explanation: string,
    options: seq<StoredOption>)

  datatype StoredTest = StoredTest(id: string, title: string, questions: seq<StoredQuestion>)

  datatype TempCode = TempCode(code: int, testId: string)

  /** What `createTest` resolves to when nothing fails: `{ test, tempCode }`. */
  datatype Created = Created(test: StoredTest, tempCode: TempCode)

  /** The persisted tables: tests by id, access codes (a unique column) to
      test ids, and whether the database accepts writes at all. */
  datatype Store = Store(tests: map<string, StoredTest>, codes: map<int, string>, online: bool)

  /** A value of `Math.random()`, the fraction `num / den` in [0, 1). */
  datatype Fraction = Fraction(num: nat, den: nat)

  predicate ValidFraction(f: Fraction) { f.num < f.den }

  const Title: string := "Test Genius Online Test"

  // ---------------------------------------------------------------------
  // The option id map built by the `reduce`

  /** The map the `reduce` builds when the i-th option receives `supply[i]`:
      left to right, a later option with the same old id overwrites the
      entry of an earlier one. */
  function OptionIdMap(opts: seq<SourceOption>, supply: seq<string>): (m: map<string, string>)
    requires |opts| <= |supply|
    ensures forall i :: 0 <= i < |opts| ==> opts[i].id in m
    ensures forall k :: k in m ==> exists i :: 0 <= i < |opts| && opts[i].id == k
    decreases |opts|
  {
    if opts == [] then map[]
    else OptionIdMap(opts[..|opts| - 1], supply)[opts[|opts| - 1].id := supply[|opts| - 1]]
  }

  /** Index of the last option carrying `id`, or -1 when none does. */
  function LastIndexOf(opts: seq<SourceOption>, id: string): (j: int)
    ensures -1 <= j < |opts|
    ensures j >= 0 ==> opts[j].id == id
    ensures forall k :: j < k < |opts| ==> opts[k].id != id
    decreases |opts|
  {
    if opts == [] then -1
    else if opts[|opts| - 1].id == id then |opts| - 1
    else LastIndexOf(opts[..|opts| - 1], id)
  }

  /** Each old id is mapped to the supply id handed out for its LAST
      occurrence: options sharing an old id all end up with that one id. */
  lemma {:induction false} OptionIdMapLastWins(opts: seq<SourceOption>, supply: seq<string>, id: string)
    requires |opts| <= |supply|
    ensures id in OptionIdMap(opts, supply) <==> LastIndexOf(opts, id) >= 0
    ensures id in OptionIdMap(opts, supply) ==> OptionIdMap(opts, supply)[id] == supply[LastIndexOf(opts, id)]
    decreases |opts|
  {
    if opts != [] {
      OptionIdMapLastWins(opts[..|opts| - 1], supply, id);
    }
  }

  predicate DistinctIds(opts: seq<SourceOption>) {
    forall i, j :: 0 <= i < j < |opts| ==> opts[i].id != opts[j].id
  }

  predicate DistinctStrings(xs: seq<string>) {
    forall i, j :: 0 <= i < j < |xs| ==> xs[i] != xs[j]
  }

  /** With pairwise distinct old ids, the i-th option gets the i-th supply id. */
  lemma OptionIdMapDistinct(opts: seq<SourceOption>, supply: seq<string>, i: nat)
    requires |opts| <= |supply| && DistinctIds(opts) && i < |opts|
    ensures OptionIdMap(opts, supply)[opts[i].id] == supply[i]
  {
    OptionIdMapLastWins(opts, supply, opts[i].id);
  }

  /** The `reduce` itself: the accumulator is updated option by option with
      the next id of the supply. */
  method BuildOptionIdMap(opts: seq<SourceOption>, supply: seq<string>) returns (acc: map<string, string>)
    requires |opts| <= |supply|
    ensures acc == OptionIdMap(opts, supply)
  {
    acc := map[];
    var i := 0;
    while i < |opts|
      invariant 0 <= i <= |opts|
      invariant acc == OptionIdMap(opts[..i], supply)
    {
      assert opts[..i + 1][..i] == opts[..i];
      acc := acc[opts[i].id := supply[i]];
      i := i + 1;
    }
    assert opts[..|opts|] == opts;
  }

  // ---------------------------------------------------------------------
  // The per-question transform

  /** `q.correct_answer_id ? optionIdMap[q.correct_answer_id] : null`,
      followed by `?? null` when stored: an empty or absent reference, or one
      that names no option, is stored as null. */
  function CorrectAnswer(c: Option<string>, m: map<string, string>): Option<string> {
    if c.Some? && c.value != "" && c.value in m then Some(m[c.value]) else None
  }

  function RemapOptions(opts: seq<SourceOption>, m: map<string, string>): (r: seq<StoredOption>)
    requires forall i :: 0 <= i < |opts| ==> opts[i].id in m
    ensures |r| == |opts|
    ensures forall i :: 0 <= i < |opts| ==> r[i] == StoredOption(m[opts[i].id], opts[i].text)
  {
    seq(|opts|, i requires 0 <= i < |opts| => StoredOption(m[opts[i].id], opts[i].text))
  }

  /** One question as handed to the store, its options numbered from
      `supply[0]` on. */
  function TransformQuestion(q: SourceQuestion, supply: seq<string>): StoredQuestion
    requires |q.options| <= |supply|
  {
    var m := OptionIdMap(q.options, supply);
    StoredQuestion(q.question, CorrectAnswer(q.correctAnswerId, m), q.explanation, RemapOptions(q.options, m))
  }

  /** Ids drawn from `uuidv4` while question i's callback runs: one per option. */
  predicate SupplyFits(qs: seq<SourceQuestion>, supply: seq<seq<string>>) {
    |supply| == |qs| && forall i :: 0 <= i < |qs| ==> |qs[i].options| <= |supply[i]|
  }

  /** All questions, question i numbered from `supply[i]`. */
  function TransformQuestions(qs: seq<SourceQuestion>, supply: seq<seq<string>>): (r: seq<StoredQuestion>)
    requires SupplyFits(qs, supply)
    ensures |r| == |qs|
    ensures forall i :: 0 <= i < |qs| ==> r[i] == TransformQuestion(qs[i], supply[i])
  {
    seq(|qs|, i requires 0 <= i < |qs| && SupplyFits(qs, supply) => TransformQuestion(qs[i], supply[i]))
  }

  // ---------------------------------------------------------------------
  // What the transform preserves

  /** Question text and explanation are copied; options keep count, order
      and text, and each receives the id the map assigned to its old id. */
  lemma TransformQuestionPreserves(q: SourceQuestion, supply: seq<string>)
    requires |q.options| <= |supply|
    ensures var r := TransformQuestion(q, supply);
      var m := OptionIdMap(q.options, supply);
      && r.question == q.question && r.explanation == q.explanation
      && |r.options| == |q.options|
      && (forall j :: 0 <= j < |q.options| ==>
            r.options[j].text == q.options[j].text && r.options[j].id == m[q.options[j].id])
  {
  }

  /** Question count and order are kept; text and explanation of every
      question are copied and every option keeps its text. */
  lemma TransformQuestionsPreserve(qs: seq<SourceQuestion>, supply: seq<seq<string>>)
    requires SupplyFits(qs, supply)
    ensures var r := TransformQuestions(qs, supply);
      && |r| == |qs|
      && (forall i :: 0 <= i < |qs| ==>
            && r[i].question == qs[i].question && r[i].explanation == qs[i].explanation
            && |r[i].options| == |qs[i].options|
            && forall j :: 0 <= j < |qs[i].options| ==> r[i].options[j].text == qs[i].options[j].text)
  {
  }

  /** The correct answer follows its option: when `correct_answer_id` is a
      non-empty id of option j, the stored reference is option j's new id;
      when it is absent, empty or names no option, null is stored. */
  lemma CorrectAnswerFollowsOption(q: SourceQuestion, supply: seq<string>, j: nat)
    requires |q.options| <= |supply| && j < |q.options|
    requires q.correctAnswerId == Some(q.options[j].id) && q.options[j].id != ""
    ensures TransformQuestion(q, supply).correctAnswerId == Some(TransformQuestion(q, supply).options[j].id)
  {
  }

  lemma CorrectAnswerNull(q: SourceQuestion, supply: seq<string>)
    requires |q.options| <= |supply|
    requires q.correctAnswerId.None? || q.correctAnswerId == Some("")
      || forall j :: 0 <= j < |q.options| ==> q.options[j].id != q.correctAnswerId.value
    ensures TransformQuestion(q, supply).correctAnswerId.None?
  {
  }

  /** With distinct old ids and distinct supplied ids, a question's new
      option ids are pairwise distinct, and option j receives `supply[j]`. */
  lemma {:induction false} NewOptionIdsDistinct(q: SourceQuestion, supply: seq<string>)
    requires |q.options| <= |supply|
    requires DistinctIds(q.options) && DistinctStrings(supply)
    ensures forall j :: 0 <= j < |q.options| ==> TransformQuestion(q, supply).options[j].id == supply[j]
    ensures forall j, k :: 0 <= j < k < |q.options| ==>
      TransformQuestion(q, supply).options[j].id != TransformQuestion(q, supply).options[k].id
  {
    var r := TransformQuestion(q, supply);
    forall j | 0 <= j < |q.options| ensures r.options[j].id == supply[j] {
      OptionIdMapDistinct(q.options, supply, j);
    }
  }

  /** Options that share an old id all receive the id handed out last for it. */
  lemma SharedOldIdSharesNewId(q: SourceQuestion, supply: seq<string>, j: nat, k: nat)
    requires |q.options| <= |supply| && j < |q.options| && k < |q.options|
    requires q.options[j].id == q.options[k].id
    ensures TransformQuestion(q, supply).options[j].id == TransformQuestion(q, supply).options[k].id
      == supply[LastIndexOf(q.options, q.options[j].id)]
  {
    OptionIdMapLastWins(q.options, supply, q.options[j].id);
  }

  // ---------------------------------------------------------------------
  // Random ids and the store

  /** `Math.floor(10000 + Math.random() * 90000)` for `Math.random() = f`. */
  function RandomFiveDigit(f: Fraction): (r: int)
    requires ValidFraction(f)
    ensures 10000 <= r <= 99999
  {
    FractionScaleBound(f.num, f.den, 90000);
    10000 + (90000 * f.num) / f.den
  }

  /** Scaling a fraction below one by `k` and flooring gives `0 .. k - 1`. */
  lemma FractionScaleBound(num: nat, den: nat, k: nat)
    requires num < den
    ensures 0 <= (k * num) / den
    ensures k > 0 ==> (k * num) / den < k
  {
    if k > 0 {
      Distribute(k, den, num);
      FloorBelow(k * num, den, k);
    }
  }

  lemma Distribute(a: int, b: int, c: int)
    ensures a * (b - c) == a * b - a * c
  {
  }

  /** A non-negative number below `k` multiples of `den` has a floor
      quotient below `k`. */
  lemma FloorBelow(p: int, den: int, k: int)
    requires den > 0 && 0 <= p < k * den
    ensures p / den < k
  {
    var q := p / den;
    assert den * q <= p;
    Distribute(den, k, q);
    PositiveFactor(den, k - q);
  }

  /** The test id is the five-character decimal numeral of a number in
      [10000, 99999]. */
  lemma TestIdIsFiveDigits(f: Fraction)
    requires ValidFraction(f)
    ensures |NatToString(RandomFiveDigit(f))| == 5 && AllDigits(NatToString(RandomFiveDigit(f)))
    ensures DigitsValue(NatToString(RandomFiveDigit(f))) == RandomFiveDigit(f)
  {
    NatToStringLength(RandomFiveDigit(f), 4);
    NatToStringRoundTrip(RandomFiveDigit(f));
  }

  /** `findTest(id)`. */
  function FindTest(store: Store, id: string): (r: Option<StoredTest>)
    ensures r.Some? <==> id in store.tests
    ensures r.Some? ==> r.value == store.tests[id]
  {
    if id in store.tests then Some(store.tests[id]) else None
  }

  /** `findByTempCode(code)`: the code row with its test. */
  function FindByTempCode(store: Store, code: int): (r: Option<StoredTest>)
    ensures r.Some? <==> code in store.codes && store.codes[code] in store.tests
    ensures r.Some? ==> r.value == store.tests[store.codes[code]]
  {
    if code in store.codes && store.codes[code] in store.tests then Some(store.tests[store.codes[code]]) else None
  }

  /** The `map` callback for one question. */
  method TransformOne(q: SourceQuestion, supply: seq<string>) returns (r: StoredQuestion)
    requires |q.options| <= |supply|
    ensures r == TransformQuestion(q, supply)
  {
    var optionIdMap := BuildOptionIdMap(q.options, supply);
    r := StoredQuestion(q.question, CorrectAnswer(q.correctAnswerId, optionIdMap), q.explanation,
                        RemapOptions(q.options, optionIdMap));
  }

  /** `body.questions.map(...)`: each question's callback runs the `reduce`
      over its own options. */
  method TransformAll(qs: seq<SourceQuestion>, supply: seq<seq<string>>) returns (questions: seq<StoredQuestion>)
    requires SupplyFits(qs, supply)
    ensures questions == TransformQuestions(qs, supply)
  {
    questions := [];
    var i := 0;
    while i < |qs|
      invariant 0 <= i <= |qs|
      invariant questions == TransformQuestions(qs, supply)[..i]
    {
      var transformed := TransformOne(qs[i], supply[i]);
      questions := questions + [transformed];
      i := i + 1;
    }
  }

  /** `createTest(body)`. Returns `None` where the source returns undefined
      after logging: the store refuses writes, or an id or code collides
      with one already stored. A code collision leaves the test row stored. */
  method CreateTest(qs: seq<SourceQuestion>, supply: seq<seq<string>>, idDraw: Fraction, codeDraw: Fraction, store: Store)
    returns (result: Option<Created>, store': Store)
    requires SupplyFits(qs, supply)
    requires ValidFraction(idDraw) && ValidFraction(codeDraw)
    ensures var id := NatToString(RandomFiveDigit(idDraw));
      var code := RandomFiveDigit(codeDraw);
      var test := StoredTest(id, Title, TransformQuestions(qs, supply));
      if !store.online || id in store.tests then
        result.None? && store' == store
      else if code in store.codes then
        result.None? && store' == store.(tests := store.tests[id := test])
      else
        result == Some(Created(test, TempCode(code, id)))
        && store' == store.(tests := store.tests[id := test], codes := store.codes[code := id])
  {
    var questions := TransformAll(qs, supply);
    var id := NatToString(RandomFiveDigit(idDraw));
    var test := StoredTest(id, Title, questions);
    if !store.online || id in store.tests {
      return None, store;
    }
    store' := store.(tests := store.tests[id := test]);
    var code := RandomFiveDigit(codeDraw);
    if code in store'.codes {
      return None, store';
    }
    store' := store'.(codes := store'.codes[code := id]);
    result := Some(Created(test, TempCode(code, id)));
  }

  /** After a successful `createTest`, the returned code finds the stored
      test, and the test is found under its id; its title is the constant. */
  lemma CreatedIsFindable(qs: seq<SourceQuestion>, supply: seq<seq<string>>, idDraw: Fraction, codeDraw: Fraction, store: Store)
    requires SupplyFits(qs, supply) && ValidFraction(idDraw) && ValidFraction(codeDraw)
    requires store.online
    requires NatToString(RandomFiveDigit(idDraw)) !in store.tests
    requires RandomFiveDigit(codeDraw) !in store.codes
    ensures var id := NatToString(RandomFiveDigit(idDraw));
      var s' := store.(tests := store.tests[id := StoredTest(id, Title, TransformQuestions(qs, supply))],
                       codes := store.codes[RandomFiveDigit(codeDraw) := id]);
      && FindByTempCode(s', RandomFiveDigit(codeDraw)) == FindTest(s', id)
      && FindTest(s', id).Some?
      && FindTest(s', id).value.title == Title
      && |FindTest(s', id).value.questions| == |qs|
  {
  }
}
