/** Shared vocabulary of the model: optional values, JavaScript values as they
    travel over the socket, and the handful of JavaScript string and number
    operations the application code relies on (`includes`, `replace` with a
    string pattern, `Array.prototype.join`, `Number#toString` on integers,
    `padStart`, `parseInt`). */
module Common {

  datatype Option<T> = None | Some(value: T)

  /** A JavaScript value as received in a socket payload or produced by
      `JSON.parse`. Numbers are restricted to integers. */
  datatype JsValue =
    | JsUndefined
    | JsNull
    | JsBool(b: bool)
    | JsNum(n: int)
    | JsStr(s: string)
    | JsArray(items: seq<JsValue>)
    | JsObject(fields: map<string, JsValue>)

  /** JavaScript truthiness: `undefined`, `null`, `false`, `0` and `""` are falsy. */
  predicate Truthy(v: JsValue) {
    match v
    case JsUndefined => false
    case JsNull => false
    case JsBool(b) => b
    case JsNum(n) => n != 0
    case JsStr(s) => s != ""
    case JsArray(_) => true
    case JsObject(_) => true
  }

  /** `String(v)`, which is what a template literal `${v}` inserts. */
  function ToJsString(v: JsValue): string {
    match v
    case JsUndefined => "undefined"
    case JsNull => "null"
    case JsBool(b) => if b then "true" else "false"
    case JsNum(n) => IntToString(n)
    case JsStr(s) => s
    case JsArray(items) => ArrayToJsString(items)
    case JsObject(_) => "[object Object]"
  }

  /** `Array.prototype.toString`: elements joined by commas, with `null` and
      `undefined` elements written as the empty string. */
  function ArrayToJsString(items: seq<JsValue>): string
    decreases items
  {
    if items == [] then ""
    else
      var head := if items[0].JsUndefined? || items[0].JsNull? then "" else ToJsString(items[0]);
      if |items| == 1 then head else head + "," + ArrayToJsString(items[1..])
  }

  // ---------------------------------------------------------------------
  // Characters and decimal numerals

  /** The characters JavaScript counts as white space: the regular-expression
      class `\s` and the characters `parseInt` skips (WhiteSpace and
      LineTerminator of ECMAScript). */
  predicate IsJsSpace(c: char) {
    c == ' ' || c == '\t' || c == '\n' || c == '\r' || c == '\U{B}' || c == '\U{C}'
    || c == '\U{A0}' || c == '\U{1680}' || ('\U{2000}' <= c <= '\U{200A}')
    || c == '\U{2028}' || c == '\U{2029}' || c == '\U{202F}' || c == '\U{205F}'
    || c == '\U{3000}' || c == '\U{FEFF}'
  }

  predicate IsDigit(c: char) { '0' <= c <= '9' }

  predicate AllDigits(s: string) { forall i :: 0 <= i < |s| ==> IsDigit(s[i]) }

  function DigitValue(c: char): (d: nat)
    requires IsDigit(c)
    ensures d < 10
  {
    (c as int) - ('0' as int)
  }

  function DigitChar(d: nat): (c: char)
    requires d < 10
    ensures IsDigit(c) && DigitValue(c) == d
  {
    ((('0' as int) + d) as char)
  }

  function Pow10(k: nat): (p: nat)
    ensures p >= 1
  {
    if k == 0 then 1 else 10 * Pow10(k - 1)
  }

  /** Decimal numeral of a natural number, most significant digit first,
      without leading zeros: `n.toString()` for a non-negative integer. */
  function NatToString(n: nat): (s: string)
    ensures |s| >= 1 && AllDigits(s)
    ensures |s| > 1 ==> s[0] != '0'
  {
    if n < 10 then [DigitChar(n)] else NatToString(n / 10) + [DigitChar(n % 10)]
  }

  /** `Number#toString` on an integer. */
  function IntToString(i: int): string {
    if i < 0 then "-" + NatToString(-i) else NatToString(i)
  }

  /** The value of a string of decimal digits. */
  function DigitsValue(s: string): nat
    requires AllDigits(s)
  {
    if s == [] then 0 else 10 * DigitsValue(s[..|s| - 1]) + DigitValue(s[|s| - 1])
  }

  /** Reading back the numeral recovers the number. */
  lemma {:induction false} NatToStringRoundTrip(n: nat)
    ensures DigitsValue(NatToString(n)) == n
  {
    var s := NatToString(n);
    if n >= 10 {
      NatToStringRoundTrip(n / 10);
      assert s[..|s| - 1] == NatToString(n / 10);
    }
  }

  /** A number in [10^k, 10^(k+1)) has exactly k+1 decimal digits. */
  lemma {:induction false} NatToStringLength(n: nat, k: nat)
    requires Pow10(k) <= n < Pow10(k + 1)
    ensures |NatToString(n)| == k + 1
  {
    if k > 0 {
      NatToStringLength(n / 10, k - 1);
    }
  }

  /** `s.padStart(2, "0")`. */
  function PadStart2(s: string): (r: string)
    ensures |r| == if |s| >= 2 then |s| else 2
    ensures r[|r| - |s|..] == s
    ensures forall i :: 0 <= i < |r| - |s| ==> r[i] == '0'
  {
    if |s| >= 2 then s else if |s| == 1 then "0" + s else "00"
  }

  /** A product with a positive factor is positive only if the other factor is. */
  lemma PositiveFactor(n: int, x: int)
    requires n > 0 && n * x > 0
    ensures x > 0
  {
  }

  // ---------------------------------------------------------------------
  // Once-a-second countdowns

  /** One tick of a countdown updater `prev => prev <= 1 ? 0 : prev - 1`:
      the value drops by one and stops at zero. */
  function CountdownStep(prev: int): (r: int)
    ensures r >= 0
    ensures prev > 1 ==> r == prev - 1
    ensures prev <= 1 ==> r == 0
  {
    if prev <= 1 then 0 else prev - 1
  }

  /** The value after `k` ticks. */
  function Countdown(t: int, k: nat): int {
    if k == 0 then t else CountdownStep(Countdown(t, k - 1))
  }

  /** From a positive start `t`, `k` ticks leave `t - k`, never less than
      zero: the countdown reaches zero after exactly `t` ticks and stays
      there. */
  lemma {:induction false} CountdownReachesZero(t: nat, k: nat)
    requires t > 0
    ensures Countdown(t, k) == if k < t then t - k else 0
  {
    if k > 0 {
      CountdownReachesZero(t, k - 1);
    }
  }

  // ---------------------------------------------------------------------
  // Searching and replacing

  /** `pat` occurs in `s` starting at index `i`. */
  predicate OccursAt(s: string, pat: string, i: nat) {
    i + |pat| <= |s| && s[i..i + |pat|] == pat
  }

  /** Index of the first occurrence of `pat` in `s` at or after `from`. */
  function IndexOfFrom(s: string, pat: string, from: nat): (r: Option<nat>)
    decreases |s| - from
    ensures r.Some? ==> from <= r.value && OccursAt(s, pat, r.value)
    ensures r.Some? ==> forall j :: from <= j < r.value ==> !OccursAt(s, pat, j)
    ensures r.None? ==> forall j :: from <= j ==> !OccursAt(s, pat, j)
  {
    if from + |pat| > |s| then None
    else if s[from..from + |pat|] == pat then Some(from)
    else IndexOfFrom(s, pat, from + 1)
  }

  /** `s.indexOf(pat)`, as an option. */
  function IndexOf(s: string, pat: string): (r: Option<nat>)
    ensures r.Some? ==> OccursAt(s, pat, r.value) && forall j :: 0 <= j < r.value ==> !OccursAt(s, pat, j)
    ensures r.None? <==> forall j :: 0 <= j ==> !OccursAt(s, pat, j)
  {
    IndexOfFrom(s, pat, 0)
  }

  /** `s.includes(pat)`. */
  predicate Includes(s: string, pat: string) {
    IndexOf(s, pat).Some?
  }

  /** `s.replace(pat, rep)` with a string pattern: only the first occurrence
      is replaced. */
  function ReplaceFirst(s: string, pat: string, rep: string): (r: string)
    ensures IndexOf(s, pat).None? ==> r == s
    ensures IndexOf(s, pat).Some? ==>
      var i := IndexOf(s, pat).value;
      r == s[..i] + rep + s[i + |pat|..]
  {
    match IndexOf(s, pat)
    case None => s
    case Some(i) => s[..i] + rep + s[i + |pat|..]
  }

  /** A string containing `t` as a slice includes it. */
  lemma IncludesWitness(s: string, t: string, i: nat)
    requires OccursAt(s, t, i)
    ensures Includes(s, t)
  {
  }

  /** `a + t + b` includes `t`. */
  lemma IncludesMiddle(a: string, t: string, b: string)
    ensures Includes(a + t + b, t)
  {
    var s := a + t + b;
    assert s[|a|..|a| + |t|] == t;
    IncludesWitness(s, t, |a|);
  }

  /** Appending text keeps every slice already present. */
  lemma IncludesExtend(x: string, t: string, y: string)
    requires Includes(x, t)
    ensures Includes(x + y, t)
  {
    var i := IndexOf(x, t).value;
    assert (x + y)[i..i + |t|] == x[i..i + |t|];
    IncludesWitness(x + y, t, i);
  }

  /** Concatenation of a sequence of pieces, as a template literal builds it. */
  function Concat(pieces: seq<string>): (r: string)
    ensures |pieces| == 0 ==> r == ""
  {
    if pieces == [] then "" else Concat(pieces[..|pieces| - 1]) + pieces[|pieces| - 1]
  }

  /** Any three consecutive pieces appear together in the concatenation. */
  lemma {:induction false} ConcatWindow(pieces: seq<string>, i: nat)
    requires i + 2 < |pieces|
    ensures Includes(Concat(pieces), pieces[i] + pieces[i + 1] + pieces[i + 2])
  {
    var n := |pieces|;
    var w := pieces[i] + pieces[i + 1] + pieces[i + 2];
    if i + 3 == n {
      var pre := Concat(pieces[..i]);
      assert pieces[..n - 1][..n - 2] == pieces[..n - 2];
      assert pieces[..n - 2][..n - 3] == pieces[..i];
      assert Concat(pieces[..n - 2]) == pre + pieces[i];
      assert Concat(pieces[..n - 1]) == pre + pieces[i] + pieces[i + 1];
      assert Concat(pieces) == pre + w + "";
      IncludesMiddle(pre, w, "");
    } else {
      ConcatWindow(pieces[..n - 1], i);
      IncludesExtend(Concat(pieces[..n - 1]), w, pieces[n - 1]);
    }
  }

  /** The fixed pieces of a template literal with the inserted values between
      them: `f0 a0 f1 a1 ... fn`. */
  function Interleave(fixed: seq<string>, args: seq<string>): (r: seq<string>)
    requires |fixed| == |args| + 1
    ensures |r| == 2 * |args| + 1
    ensures forall k :: 0 <= k < |args| ==> r[2 * k] == fixed[k] && r[2 * k + 1] == args[k]
    ensures r[2 * |args|] == fixed[|args|]
  {
    if args == [] then [fixed[0]]
    else [fixed[0], args[0]] + Interleave(fixed[1..], args[1..])
  }

  /** In a template literal, each inserted value appears verbatim between the
      fixed text before it and the fixed text after it. */
  lemma TemplateWindow(fixed: seq<string>, args: seq<string>, k: nat)
    requires |fixed| == |args| + 1 && k < |args|
    ensures Includes(Concat(Interleave(fixed, args)), fixed[k] + args[k] + fixed[k + 1])
  {
    var ps := Interleave(fixed, args);
    var i := 2 * k;
    assert ps[i] == fixed[k] && ps[i + 1] == args[k] && ps[i + 2] == fixed[k + 1] by {
      if k + 1 < |args| {
        assert ps[2 * (k + 1)] == fixed[k + 1];
      }
    }
    ConcatWindow(ps, i);
  }

  /** When the prefix `a` holds no copy of the first character of `pat`, the
      first occurrence of `pat` in `a + pat + b` is right after `a`. */
  lemma FirstOccurrence(a: string, pat: string, b: string)
    requires |pat| > 0 && pat[0] !in a
    ensures IndexOf(a + pat + b, pat) == Some(|a|)
  {
    var s := a + pat + b;
    assert OccursAt(s, pat, |a|) by {
      assert s[|a|..|a| + |pat|] == pat;
    }
    forall j | 0 <= j < |a| ensures !OccursAt(s, pat, j) {
      assert s[j] == a[j] && a[j] != pat[0];
      assert s[j..j + |pat|][0] == s[j];
    }
  }

  /** Replacing the first occurrence of a pattern whose first character
      does not occur before it. */
  lemma ReplaceAt(x: string, pat: string, y: string, rep: string)
    requires |pat| > 0 && pat[0] !in x
    ensures ReplaceFirst(x + pat + y, pat, rep) == x + rep + y
  {
    var s := x + pat + y;
    FirstOccurrence(x, pat, y);
    assert s[..|x|] == x;
    assert s[|x| + |pat|..] == y;
  }

  /** Removing a first pattern and then a second one, when neither first
      character occurs earlier, deletes exactly those two occurrences. */
  lemma RemoveTwo(pre: string, body: string, post: string, p1: string, p2: string)
    requires |p1| > 0 && |p2| > 0 && p1[0] !in pre && p2[0] !in pre + body
    ensures ReplaceFirst(ReplaceFirst(pre + p1 + (body + p2 + post), p1, ""), p2, "") == pre + body + post
  {
    var rest, mid := body + p2 + post, pre + body;
    assert pre + "" + rest == mid + p2 + post;
    assert mid + "" + post == pre + body + post;
    ReplaceAt(pre, p1, rest, "");
    ReplaceAt(mid, p2, post, "");
  }

  /** `xs.join(sep)`. */
  function Join(xs: seq<string>, sep: string): (r: string)
    ensures |xs| == 1 ==> r == xs[0]
  {
    if xs == [] then "" else if |xs| == 1 then xs[0] else xs[0] + sep + Join(xs[1..], sep)
  }

  /** Joining one more element puts the separator between the joined list
      and it, so the elements appear in order, one separator apart. */
  lemma {:induction false} JoinAppend(xs: seq<string>, x: string, sep: string)
    requires |xs| > 0
    ensures Join(xs + [x], sep) == Join(xs, sep) + sep + x
  {
    if |xs| > 1 {
      assert (xs + [x])[1..] == xs[1..] + [x];
      JoinAppend(xs[1..], x, sep);
    }
  }
}
