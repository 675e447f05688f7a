/** The date validator `fechaISO8601Schema`: a string refined by the regular
    expression ^\d{4}-\d{2}-\d{2}T\d{2}:\d{2}:\d{2}(?:\.\d{1,3})?Z$ .
    The regular expression has no alternation except the optional fraction,
    so it is written out as four fixed patterns, one per fraction length. */
module DateSchema {
  import opened Values

  /** One position of a fixed pattern: `\d` or a literal character. */
  datatype Tok = Digit | Lit(c: char)

  function Digits(n: nat): (p: seq<Tok>)
    ensures |p| == n && forall i :: 0 <= i < n ==> p[i] == Digit
  {
    if n == 0 then [] else [Digit] + Digits(n - 1)
  }

  /** \d{4}-\d{2}-\d{2}T\d{2}:\d{2}:\d{2} */
  function Base(): seq<Tok>
  {
    Digits(4) + [Lit('-')] + Digits(2) + [Lit('-')] + Digits(2) + [Lit('T')]
    + Digits(2) + [Lit(':')] + Digits(2) + [Lit(':')] + Digits(2)
  }

  /** (?:\.\d{k})? with k digits, 0 meaning the group is absent. */
  function Fraction(k: nat): seq<Tok>
  {
    if k == 0 then [] else [Lit('.')] + Digits(k)
  }

  function Pattern(k: nat): seq<Tok>
  {
    Base() + Fraction(k) + [Lit('Z')]
  }

  predicate MatchesTok(t: Tok, c: char)
  {
    match t
    case Digit => IsDigit(c)
    case Lit(l) => c == l
  }

  /** An anchored match of a fixed pattern against the whole string. */
  predicate Matches(p: seq<Tok>, s: string)
  {
    |p| == |s| && forall i :: 0 <= i < |s| ==> MatchesTok(p[i], s[i])
  }

  /** `isoRegex.test(value)`. */
  predicate IsIso8601(s: string)
  {
    Matches(Pattern(0), s) || Matches(Pattern(1), s) || Matches(Pattern(2), s) || Matches(Pattern(3), s)
  }

  /** `fechaISO8601Schema.safeParse(v)`: a string that passes the refinement is
      returned as the parsed data; anything else is a validation error. */
  function SafeParse(v: Value): (r: Option<string>)
    ensures r.Some? <==> v.Str? && IsIso8601(v.s)
    ensures r.Some? ==> v == Str(r.value)
  {
    if v.Str? && IsIso8601(v.s) then Some(v.s) else None
  }

  /** The lengths the four patterns have. */
  predicate ValidLength(n: nat)
  {
    n == 20 || 22 <= n <= 24
  }

  /** The token every pattern of total length n has at position i. */
  function ClassAt(n: nat, i: nat): Tok
  {
    if i == 4 || i == 7 then Lit('-')
    else if i == 10 then Lit('T')
    else if i == 13 || i == 16 then Lit(':')
    else if i == n - 1 then Lit('Z')
    else if i == 19 then Lit('.')
    else Digit
  }

  lemma PatternAt(k: nat, i: nat)
    requires k <= 3 && i < |Pattern(k)|
    ensures |Pattern(k)| == if k == 0 then 20 else 21 + k
    ensures Pattern(k)[i] == ClassAt(|Pattern(k)|, i)
  {
    var b := Base();
    assert |b| == 19;
    assert b[4] == Lit('-') && b[7] == Lit('-') && b[10] == Lit('T') && b[13] == Lit(':') && b[16] == Lit(':');
    assert forall j :: 0 <= j < 19 && j !in {4, 7, 10, 13, 16} ==> b[j] == Digit;
  }

  /** The regular expression, read position by position. */
  lemma AcceptedPositions(s: string)
    requires IsIso8601(s)
    ensures ValidLength(|s|)
    ensures forall i :: 0 <= i < |s| ==> MatchesTok(ClassAt(|s|, i), s[i])
  {
    if Matches(Pattern(0), s) {
      PatternPositions(0, s);
    } else if Matches(Pattern(1), s) {
      PatternPositions(1, s);
    } else if Matches(Pattern(2), s) {
      PatternPositions(2, s);
    } else {
      PatternPositions(3, s);
    }
  }

  /** A match of one fixed pattern, read position by position. */
  lemma PatternPositions(k: nat, s: string)
    requires k <= 3 && Matches(Pattern(k), s)
    ensures ValidLength(|s|)
    ensures forall i :: 0 <= i < |s| ==> MatchesTok(ClassAt(|s|, i), s[i])
  {
    PatternAt(k, 0);
    forall i | 0 <= i < |s| ensures MatchesTok(ClassAt(|s|, i), s[i]) {
      PatternAt(k, i);
    }
  }

  lemma PositionsAccepted(s: string)
    requires ValidLength(|s|)
    requires forall i :: 0 <= i < |s| ==> MatchesTok(ClassAt(|s|, i), s[i])
    ensures IsIso8601(s)
  {
    var k: nat := if |s| == 20 then 0 else |s| - 21;
    PatternAt(k, 0);
    forall i | 0 <= i < |s| ensures MatchesTok(Pattern(k)[i], s[i]) {
      PatternAt(k, i);
    }
    assert Matches(Pattern(k), s);
  }

  /** Accepted strings have 20 characters, or 22 to 24 with a fraction. */
  lemma AcceptedLength(s: string)
    requires IsIso8601(s)
    ensures |s| == 20 || 22 <= |s| <= 24
  {
    AcceptedPositions(s);
  }

  /** The designator is a mandatory upper-case 'Z' at the end, and the date
      and time separators are the literal characters '-', 'T' and ':'. */
  lemma AcceptedSeparators(s: string)
    requires IsIso8601(s)
    ensures s[|s| - 1] == 'Z'
    ensures s[4] == '-' && s[7] == '-' && s[10] == 'T' && s[13] == ':' && s[16] == ':'
    ensures |s| > 20 ==> s[19] == '.'
  {
    AcceptedPositions(s);
    assert MatchesTok(ClassAt(|s|, |s| - 1), s[|s| - 1]);
    assert MatchesTok(ClassAt(|s|, 4), s[4]);
    assert MatchesTok(ClassAt(|s|, 7), s[7]);
    assert MatchesTok(ClassAt(|s|, 10), s[10]);
    assert MatchesTok(ClassAt(|s|, 13), s[13]);
    assert MatchesTok(ClassAt(|s|, 16), s[16]);
    assert MatchesTok(ClassAt(|s|, 19), s[19]);
  }

  // ----- Round trip with a renderer of the same profile -----

  /** The fields of an accepted string, as digit strings. */
  datatype Stamp = Stamp(year: string, month: string, day: string,
                         hour: string, minute: string, second: string, fraction: string)

  predicate WellFormed(t: Stamp)
  {
    && |t.year| == 4 && |t.month| == 2 && |t.day| == 2
    && |t.hour| == 2 && |t.minute| == 2 && |t.second| == 2 && |t.fraction| <= 3
    && AllDigits(t.year) && AllDigits(t.month) && AllDigits(t.day)
    && AllDigits(t.hour) && AllDigits(t.minute) && AllDigits(t.second) && AllDigits(t.fraction)
  }

  /** YYYY-MM-DDTHH:mm:ss[.fff]Z */
  function Render(t: Stamp): string
  {
    t.year + "-" + t.month + "-" + t.day + "T" + t.hour + ":" + t.minute + ":" + t.second
    + (if t.fraction == "" then "" else "." + t.fraction) + "Z"
  }

  function Fields(s: string): Stamp
    requires |s| >= 20
  {
    Stamp(s[0..4], s[5..7], s[8..10], s[11..13], s[14..16], s[17..19],
          if |s| > 20 then s[20..|s| - 1] else "")
  }

  /** Every well-formed stamp renders to an accepted string and is read back
      unchanged. */
  lemma RenderAccepted(t: Stamp)
    requires WellFormed(t)
    ensures IsIso8601(Render(t))
    ensures |Render(t)| >= 20 && Fields(Render(t)) == t
  {
    RenderPositions(t);
    PositionsAccepted(Render(t));
    RenderFields(t);
  }

  /** A rendering of a well-formed stamp, read position by position. */
  lemma RenderPositions(t: Stamp)
    requires WellFormed(t)
    ensures ValidLength(|Render(t)|)
    ensures forall i :: 0 <= i < |Render(t)| ==> MatchesTok(ClassAt(|Render(t)|, i), Render(t)[i])
  {
    var s := Render(t);
    var n := |s|;
    forall i | 0 <= i < n ensures MatchesTok(ClassAt(n, i), s[i]) {
      if i < 4 { assert s[i] == t.year[i]; }
      else if 4 < i < 7 { assert s[i] == t.month[i - 5]; }
      else if 7 < i < 10 { assert s[i] == t.day[i - 8]; }
      else if 10 < i < 13 { assert s[i] == t.hour[i - 11]; }
      else if 13 < i < 16 { assert s[i] == t.minute[i - 14]; }
      else if 16 < i < 19 { assert s[i] == t.second[i - 17]; }
      else if 19 < i < n - 1 { assert s[i] == t.fraction[i - 20]; }
    }
  }

  /** The fields of a rendering are the stamp's own. */
  lemma RenderFields(t: Stamp)
    requires WellFormed(t)
    ensures |Render(t)| >= 20 && Fields(Render(t)) == t
  {
    var s := Render(t);
    var n := |s|;
    assert s[0..4] == t.year by { forall j | 0 <= j < 4 ensures s[j] == t.year[j] { } }
    assert s[5..7] == t.month by { forall j | 0 <= j < 2 ensures s[5 + j] == t.month[j] { } }
    assert s[8..10] == t.day by { forall j | 0 <= j < 2 ensures s[8 + j] == t.day[j] { } }
    assert s[11..13] == t.hour by { forall j | 0 <= j < 2 ensures s[11 + j] == t.hour[j] { } }
    assert s[14..16] == t.minute by { forall j | 0 <= j < 2 ensures s[14 + j] == t.minute[j] { } }
    assert s[17..19] == t.second by { forall j | 0 <= j < 2 ensures s[17 + j] == t.second[j] { } }
    if t.fraction != "" {
      assert s[20..n - 1] == t.fraction by {
        forall j | 0 <= j < |t.fraction| ensures s[20 + j] == t.fraction[j] { }
      }
    }
  }

  /** The fields of an accepted string are digit strings of the profile's
      widths. */
  lemma AcceptedFieldsWellFormed(s: string)
    requires IsIso8601(s)
    ensures |s| >= 20 && WellFormed(Fields(s))
  {
    AcceptedPositions(s);
    var n := |s|;
    var t := Fields(s);
    assert AllDigits(t.year) by {
      forall i | 0 <= i < 4 ensures IsDigit(t.year[i]) { assert MatchesTok(ClassAt(n, i), s[i]); }
    }
    assert AllDigits(t.month) by {
      forall i | 0 <= i < 2 ensures IsDigit(t.month[i]) { assert MatchesTok(ClassAt(n, i + 5), s[i + 5]); }
    }
    assert AllDigits(t.day) by {
      forall i | 0 <= i < 2 ensures IsDigit(t.day[i]) { assert MatchesTok(ClassAt(n, i + 8), s[i + 8]); }
    }
    assert AllDigits(t.hour) by {
      forall i | 0 <= i < 2 ensures IsDigit(t.hour[i]) { assert MatchesTok(ClassAt(n, i + 11), s[i + 11]); }
    }
    assert AllDigits(t.minute) by {
      forall i | 0 <= i < 2 ensures IsDigit(t.minute[i]) { assert MatchesTok(ClassAt(n, i + 14), s[i + 14]); }
    }
    assert AllDigits(t.second) by {
      forall i | 0 <= i < 2 ensures IsDigit(t.second[i]) { assert MatchesTok(ClassAt(n, i + 17), s[i + 17]); }
    }
    assert AllDigits(t.fraction) by {
      forall i | 0 <= i < |t.fraction| ensures IsDigit(t.fraction[i]) { assert MatchesTok(ClassAt(n, i + 20), s[i + 20]); }
    }
  }

  /** Every accepted string is the rendering of its own fields. */
  lemma AcceptedIsRendered(s: string)
    requires IsIso8601(s)
    ensures |s| >= 20 && WellFormed(Fields(s)) && Render(Fields(s)) == s
  {
    AcceptedFieldsWellFormed(s);
    RenderedDateTime(s);
    RenderedFractionZone(s);
  }

  /** The date and time of day of an accepted string render back to the same
      characters. */
  lemma RenderedDateTime(s: string)
    requires IsIso8601(s)
    ensures |s| >= 20 && |Render(Fields(s))| == |s|
    ensures forall i :: 0 <= i < 19 ==> Render(Fields(s))[i] == s[i]
  {
    AcceptedFieldsWellFormed(s);
    AcceptedSeparators(s);
    var t := Fields(s);
    var r := Render(t);
    forall i | 0 <= i < 19 ensures r[i] == s[i] {
      if i < 4 { assert r[i] == t.year[i]; }
      else if 4 < i < 7 { assert r[i] == t.month[i - 5]; }
      else if 7 < i < 10 { assert r[i] == t.day[i - 8]; }
      else if 10 < i < 13 { assert r[i] == t.hour[i - 11]; }
      else if 13 < i < 16 { assert r[i] == t.minute[i - 14]; }
      else if 16 < i < 19 { assert r[i] == t.second[i - 17]; }
    }
  }

  /** The fraction and zone of an accepted string render back to the same
      characters. */
  lemma RenderedFractionZone(s: string)
    requires IsIso8601(s)
    ensures |s| >= 20 && |Render(Fields(s))| == |s|
    ensures forall i :: 19 <= i < |s| ==> Render(Fields(s))[i] == s[i]
  {
    AcceptedFieldsWellFormed(s);
    AcceptedSeparators(s);
    var n := |s|;
    var t := Fields(s);
    var r := Render(t);
    forall i | 19 <= i < n ensures r[i] == s[i] {
      if 19 < i < n - 1 { assert r[i] == t.fraction[i - 20]; }
    }
  }

  /** The accepted strings are exactly the renderings of well-formed stamps. */
  lemma AcceptedIffRendered(s: string)
    ensures IsIso8601(s) <==> exists t :: WellFormed(t) && Render(t) == s
  {
    if IsIso8601(s) {
      AcceptedIsRendered(s);
    }
    if exists t :: WellFormed(t) && Render(t) == s {
      var t :| WellFormed(t) && Render(t) == s;
      RenderAccepted(t);
    }
  }

  /** The example the schema's own error message gives is accepted. */
  lemma ExampleAccepted()
    ensures IsIso8601("2025-11-13T00:00:00Z")
  {
    var s := "2025-11-13T00:00:00Z";
    forall i | 0 <= i < |s| ensures MatchesTok(ClassAt(|s|, i), s[i]) { }
    PositionsAccepted(s);
  }

  /** No calendar or clock range is checked: month 13, day 45 and 99:99:99 pass. */
  lemma NoRangeCheck()
    ensures IsIso8601("2025-13-45T99:99:99Z")
  {
    var s := "2025-13-45T99:99:99Z";
    forall i | 0 <= i < |s| ensures MatchesTok(ClassAt(|s|, i), s[i]) { }
    PositionsAccepted(s);
  }

  /** A fraction of three digits is allowed. */
  lemma FractionDigits()
    ensures IsIso8601("2025-11-13T00:00:00.123Z")
  {
    var s := "2025-11-13T00:00:00.123Z";
    forall i | 0 <= i < |s| ensures MatchesTok(ClassAt(|s|, i), s[i]) { }
    PositionsAccepted(s);
  }

  /** A fraction of four digits, or a dot with no digits after it, is not. */
  lemma FractionLimits()
    ensures !IsIso8601("2025-11-13T00:00:00.1234Z") && !IsIso8601("2025-11-13T00:00:00.Z")
  {
    if IsIso8601("2025-11-13T00:00:00.1234Z") { AcceptedLength("2025-11-13T00:00:00.1234Z"); }
    if IsIso8601("2025-11-13T00:00:00.Z") { AcceptedLength("2025-11-13T00:00:00.Z"); }
  }

  /** A lower-case 'z', a numeric offset and a missing zone are all rejected. */
  lemma ZoneMustBeZ()
    ensures !IsIso8601("2025-11-13T00:00:00z")
    ensures !IsIso8601("2025-11-13T00:00:00+02:00")
    ensures !IsIso8601("2025-11-13T00:00:00")
  {
    if IsIso8601("2025-11-13T00:00:00z") { AcceptedSeparators("2025-11-13T00:00:00z"); }
    if IsIso8601("2025-11-13T00:00:00+02:00") { AcceptedSeparators("2025-11-13T00:00:00+02:00"); }
    if IsIso8601("2025-11-13T00:00:00") { AcceptedLength("2025-11-13T00:00:00"); }
  }
}
