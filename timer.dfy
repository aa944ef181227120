/** The countdown display of a running test (admin-platform/components/test-timer.tsx):
    a number of seconds shown as `"[<h>h ]MMm SSs"`, drawn in the destructive
    colour when fewer than five minutes remain. */
module Timer {
  import opened Common

  /** JavaScript's `%` truncates toward zero; Dafny's is Euclidean. */
  function JsRem(a: int, b: int): (r: int)
    requires b > 0
    ensures a >= 0 ==> 0 <= r < b
  {
    if a >= 0 then a % b else -((-a) % b)
  }

  /** `Math.floor(seconds / 3600)`; for a positive divisor Dafny's `/` floors. */
  function Hours(seconds: int): (h: int)
    ensures seconds >= 0 ==> 0 <= h && h * 3600 <= seconds < h * 3600 + 3600
  {
    seconds / 3600
  }

  /** `Math.floor((seconds % 3600) / 60)`. */
  function Minutes(seconds: int): (m: int)
    ensures seconds >= 0 ==> 0 <= m < 60
  {
    JsRem(seconds, 3600) / 60
  }

  /** `seconds % 60`. */
  function Secs(seconds: int): (sec: int)
    ensures seconds >= 0 ==> 0 <= sec < 60
  {
    JsRem(seconds, 60)
  }

  /** A minute or second field: `n.toString().padStart(2, "0")`. */
  function Field(n: int): string { PadStart2(IntToString(n)) }

  /** The `"<h>h "` prefix, shown only when at least one hour remains. */
  function HoursPrefix(hours: int): string {
    if hours > 0 then IntToString(hours) + "h " else ""
  }

  /** The text built from hours, minutes and seconds. */
  function Assemble(hours: int, m: int, sec: int): string {
    HoursPrefix(hours) + (Field(m) + "m " + Field(sec) + "s")
  }

  /** The text the timer shows for `seconds`. */
  function Format(seconds: int): string {
    Assemble(Hours(seconds), Minutes(seconds), Secs(seconds))
  }

  /** The destructive style is applied below five minutes. */
  predicate Urgent(seconds: int) { seconds < 300 }

  /** The three displayed quantities decompose a non-negative duration
      exactly, and minutes and seconds stay below sixty. */
  lemma Decomposition(seconds: nat)
    ensures Hours(seconds) >= 0
    ensures 0 <= Minutes(seconds) < 60 && 0 <= Secs(seconds) < 60
    ensures Hours(seconds) * 3600 + Minutes(seconds) * 60 + Secs(seconds) == seconds
  {
    var h, r := seconds / 3600, seconds % 3600;
    var m, sec := r / 60, r % 60;
    assert Minutes(seconds) == m;
    assert seconds == 60 * (60 * h + m) + sec;
    SixtyRemainder(60 * h + m, sec);
  }

  /** The remainder modulo sixty of `60 k + s`, for `0 <= s < 60`. */
  lemma SixtyRemainder(k: int, sec: int)
    requires 0 <= sec < 60
    ensures (60 * k + sec) % 60 == sec
  {
  }

  /** A field below sixty is exactly two decimal digits spelling its value. */
  lemma {:induction false} FieldDigits(n: nat)
    requires n < 60
    ensures |Field(n)| == 2 && AllDigits(Field(n)) && DigitsValue(Field(n)) == n
  {
    NatToStringRoundTrip(n);
    var s := NatToString(n);
    if n < 10 {
      assert Field(n) == "0" + s;
      assert Field(n)[..1] == "0";
    } else {
      NatToStringLength(n, 1);
    }
  }

  /** The fixed-width tail `"MMm SSs"` built from two two-digit fields. */
  lemma {:induction false} TailShape(a: string, b: string)
    requires |a| == 2 && |b| == 2 && AllDigits(a) && AllDigits(b)
    ensures var f := a + "m " + b + "s";
      |f| == 7 && f[0..2] == a && f[4..6] == b &&
      IsDigit(f[0]) && IsDigit(f[1]) && f[2] == 'm' && f[3] == ' ' && IsDigit(f[4]) && IsDigit(f[5]) && f[6] == 's' &&
      'h' !in f
  {
    var f := a + "m " + b + "s";
    assert f == [a[0], a[1], 'm', ' ', b[0], b[1], 's'];
  }

  /** Shape of the text for a non-negative duration: an optional hours
      prefix, then two minute digits, `"m "`, two second digits and `"s"`. */
  lemma Shape(seconds: nat)
    ensures var t := Format(seconds);
      |t| >= 7 &&
      t[..|t| - 7] == (if Hours(seconds) > 0 then NatToString(Hours(seconds)) + "h " else "") &&
      t[|t| - 7..] == Field(Minutes(seconds)) + "m " + Field(Secs(seconds)) + "s"
  {
    Decomposition(seconds);
    var m, sec := Minutes(seconds), Secs(seconds);
    FieldDigits(m);
    FieldDigits(sec);
    TailShape(Field(m), Field(sec));
    var p := HoursPrefix(Hours(seconds));
    var f := Field(m) + "m " + Field(sec) + "s";
    assert Format(seconds) == p + f;
  }

  /** Reads the hours prefix back: empty means zero hours. */
  function ParseHours(p: string): Option<nat> {
    if p == [] then Some(0)
    else if |p| >= 3 && p[|p| - 2..] == "h " && AllDigits(p[..|p| - 2]) then Some(DigitsValue(p[..|p| - 2]))
    else None
  }

  /** Reads a timer text back into seconds; `None` when it is not of the form
      the timer produces. */
  function ParseTime(t: string): Option<int> {
    if |t| < 7 then None
    else
      var p, f := t[..|t| - 7], t[|t| - 7..];
      if !(IsDigit(f[0]) && IsDigit(f[1]) && f[2] == 'm' && f[3] == ' ' && IsDigit(f[4]) && IsDigit(f[5]) && f[6] == 's')
      then None
      else
        match ParseHours(p)
        case None => None
        case Some(h) =>
          assert AllDigits(f[0..2]) && AllDigits(f[4..6]);
          Some(h * 3600 + DigitsValue(f[0..2]) * 60 + DigitsValue(f[4..6]))
  }

  /** Parsing a prefix followed by two two-digit fields reads the prefix and
      the two fields back. */
  lemma ParseAssembled(p: string, a: string, b: string)
    requires |a| == 2 && |b| == 2 && AllDigits(a) && AllDigits(b)
    ensures ParseTime(p + (a + "m " + b + "s")) ==
      match ParseHours(p)
      case None => None
      case Some(h) => Some(h * 3600 + DigitsValue(a) * 60 + DigitsValue(b))
  {
    TailShape(a, b);
    var f := a + "m " + b + "s";
    var t := p + f;
    assert t[..|t| - 7] == p;
    assert t[|t| - 7..] == f;
  }

  /** The hours prefix reads back as the number of hours. */
  lemma HoursPrefixReads(hours: nat)
    ensures ParseHours(HoursPrefix(hours)) == Some(hours)
  {
    if hours > 0 {
      var h := NatToString(hours);
      var p := h + "h ";
      assert HoursPrefix(hours) == p;
      NatToStringRoundTrip(hours);
      assert p[..|p| - 2] == h;
      assert p[|p| - 2..] == "h ";
    }
  }

  /** Text assembled from hours and two in-range fields reads back as the
      total number of seconds they denote. */
  lemma {:induction false} ParseAssemble(hours: nat, m: nat, sec: nat, total: int)
    requires m < 60 && sec < 60 && total == hours * 3600 + m * 60 + sec
    ensures ParseTime(Assemble(hours, m, sec)) == Some(total)
  {
    FieldDigits(m);
    FieldDigits(sec);
    ParseAssembled(HoursPrefix(hours), Field(m), Field(sec));
    HoursPrefixReads(hours);
  }

  /** Round trip: the displayed text determines the number of seconds. */
  lemma RoundTrip(seconds: nat)
    ensures ParseTime(Format(seconds)) == Some(seconds)
  {
    Decomposition(seconds);
    ParseAssemble(Hours(seconds), Minutes(seconds), Secs(seconds), seconds);
  }

  /** The hours prefix holds an `h` exactly when it is shown. */
  lemma PrefixHasH(hours: int)
    ensures 'h' in HoursPrefix(hours) <==> hours > 0
  {
    if hours > 0 {
      var p := IntToString(hours) + "h ";
      assert p[|p| - 2] == 'h';
    }
  }

  /** The `"<h>h "` prefix (the only place an `h` can appear) is shown exactly
      when at least one full hour remains. */
  lemma HoursPrefixIffHour(seconds: nat)
    ensures 'h' in Format(seconds) <==> Hours(seconds) > 0
  {
    Decomposition(seconds);
    var m, sec := Minutes(seconds), Secs(seconds);
    FieldDigits(m);
    FieldDigits(sec);
    TailShape(Field(m), Field(sec));
    PrefixHasH(Hours(seconds));
    var p, f := HoursPrefix(Hours(seconds)), Field(m) + "m " + Field(sec) + "s";
    assert Format(seconds) == p + f;
    assert 'h' in p + f <==> 'h' in p || 'h' in f;
  }

  /** For a non-negative duration, the destructive style is on exactly when
      no hour is shown and the minute field reads below 05. */
  lemma UrgentIffUnderFiveMinutes(seconds: nat)
    ensures Urgent(seconds) <==> Hours(seconds) == 0 && Minutes(seconds) < 5
  {
    Decomposition(seconds);
  }
}
