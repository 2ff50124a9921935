/**
 * A defect of get_seconds' loop and its correction. A whitespace character
 * sets space_mode even when no number is pending (at the start, after a colon,
 * after a unit followed by two spaces). The next number's first digit is then
 * taken for a finished quantity: " 12" is read as 1 + 2 seconds.
 */
module TimeFindings {
  import opened Results
  import opened Text
  import opened ParseTime

  /** The loop as written reads " 12" as 3 seconds, whatever the unit table. */
  lemma {:induction false} LeadingSpaceSplitsNumber(units: map<string, real>)
    ensures Seconds(units, " 12") == Ok(3.0)
  {
    var s := " 12";
    assert Count(s, ':') == 0;
    assert Lower(s) == s;
    var s0 := Initial(0);
    var s1 := s0.(spaceMode := true);
    var s2 := s1.(acc := "1");
    var s3 := s2.(total := 1.0, acc := "2", spaceMode := false);
    assert NumeralValue("1") == 1.0 && NumeralValue("2") == 2.0;
    assert IsDigit("1"[0]) && IsDigit("2"[0]);
    assert Step(units, s0, ' ') == Ok(s1);
    assert s1.acc + ['1'] == "1";
    assert Step(units, s1, '1') == Ok(s2);
    assert Step(units, s2, '2') == Ok(s3);
    assert s[1..][1..][1..] == [];
    assert Steps(units, s2, s[1..][1..]) == Ok(s3);
    assert Steps(units, s1, s[1..]) == Ok(s3);
    assert Steps(units, s0, s) == Ok(s3);
  }

  /** One iteration with the correction: whitespace marks a pending number only when there is one. */
  function CorrectedStep(units: map<string, real>, st: Scanner, c: char): Result<Scanner, TimeError>
  {
    if !st.unitMode && !NumeralChar(c) && c != ':' && IsSpace(c) && st.acc == "" then
      Ok(st.(spaceMode := false))
    else
      Step(units, st, c)
  }

  function CorrectedSteps(units: map<string, real>, st: Scanner, s: string): Result<Scanner, TimeError>
    decreases |s|, 1
  {
    if s == [] then Ok(st) else CorrectedThen(units, CorrectedStep(units, st, s[0]), s[1..])
  }

  function CorrectedThen(units: map<string, real>, r: Result<Scanner, TimeError>, rest: string): Result<Scanner, TimeError>
    decreases |rest| + 1, 0
  {
    match r
    case Err(e) => Err(e)
    case Ok(next) => CorrectedSteps(units, next, rest)
  }

  function CorrectedRun(units: map<string, real>, st: Scanner, s: string): Result<real, TimeError>
  {
    match CorrectedSteps(units, st, s)
    case Err(e) => Err(e)
    case Ok(last) => Finish(units, last)
  }

  /** get_seconds with the corrected loop. */
  function CorrectedSeconds(units: map<string, real>, timestr: string): Result<real, TimeError>
  {
    var k := Count(timestr, ':');
    if k > |COLONS| then Err(TooManyColons(|COLONS|))
    else CorrectedRun(units, Initial(k), Lower(timestr))
  }

  /** space_mode is only ever set while a number is pending, and never in unit mode. */
  predicate SpaceInvariant(st: Scanner)
  {
    && (st.spaceMode ==> |st.acc| > 0)
    && (st.unitMode ==> !st.spaceMode)
  }

  /**
   * The corrected iteration keeps the invariant, and it differs from the
   * original only on whitespace read while nothing is pending.
   */
  lemma {:induction false} CorrectedStepInvariant(units: map<string, real>, st: Scanner, c: char)
    requires SpaceInvariant(st)
    ensures CorrectedStep(units, st, c).Ok? ==> SpaceInvariant(CorrectedStep(units, st, c).value)
    ensures !(IsSpace(c) && st.acc == "" && !st.unitMode) ==> CorrectedStep(units, st, c) == Step(units, st, c)
  {
  }

  lemma {:induction false} CorrectedStepsInvariant(units: map<string, real>, st: Scanner, s: string)
    requires SpaceInvariant(st)
    ensures CorrectedSteps(units, st, s).Ok? ==> SpaceInvariant(CorrectedSteps(units, st, s).value)
    decreases |s|
  {
    if s != [] {
      CorrectedStepInvariant(units, st, s[0]);
      var r := CorrectedStep(units, st, s[0]);
      if r.Ok? {
        CorrectedStepsInvariant(units, r.value, s[1..]);
      }
    }
  }

  /** With the correction, leading whitespace is ignored. */
  lemma {:induction false} CorrectedLeadingSpace(units: map<string, real>, s: string)
    ensures CorrectedSeconds(units, " " + s) == CorrectedSeconds(units, s)
  {
    var t := " " + s;
    assert t[0] == ' ' && t[1..] == s;
    assert Count(t, ':') == Count(s, ':');
    LowerAppend(" ", s);
    assert Lower(" ") == " ";
    var k := Count(s, ':');
    if k <= |COLONS| {
      var lt := Lower(t);
      assert lt[0] == ' ' && lt[1..] == Lower(s);
      assert CorrectedStep(units, Initial(k), ' ') == Ok(Initial(k));
      assert lt != [];
      assert CorrectedSteps(units, Initial(k), lt) == CorrectedSteps(units, Initial(k), Lower(s));
    }
  }

  /** With the correction, " 12" is 12 seconds. */
  lemma {:induction false} CorrectedTwelve(units: map<string, real>)
    ensures CorrectedSeconds(units, " 12") == Ok(12.0)
  {
    CorrectedLeadingSpace(units, "12");
    assert " " + "12" == " 12";
    var s0 := Initial(0);
    assert Count("12", ':') == 0;
    assert Lower("12") == "12";
    assert IsDigit("12"[0]) && DigitsValue("12") == 12;
    IntegerNumeral("12");
    var s1 := s0.(acc := "1");
    var s2 := s0.(acc := "12");
    assert s0.acc + ['1'] == "1" && s1.acc + ['2'] == "12";
    assert CorrectedStep(units, s0, '1') == Ok(s1);
    assert CorrectedStep(units, s1, '2') == Ok(s2);
    assert "12"[1..][1..] == [];
    assert CorrectedSteps(units, s1, "12"[1..]) == Ok(s2);
    assert CorrectedSteps(units, s0, "12") == Ok(s2);
  }
}
