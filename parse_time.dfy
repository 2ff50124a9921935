/**
 * libteal/parse_time.py: a human time-string parser. A string such as
 * "1h 30m", "4 4" or "5:12:05:02 1d" is scanned once, character by character,
 * by a small state machine, and the number of seconds it denotes is returned.
 * Python floats are replaced by exact reals.
 */
module ParseTime {
  import opened Results
  import opened Text

  const LEAPYEAR: nat := 31622400
  const YEAR: nat := 31536000
  const MONTH: nat := 2592000
  const FORTNIGHT: nat := 1209600
  const WEEK: nat := 604800
  const WORKWEEK: nat := 432000
  const DAY: nat := 86400
  const HOUR: nat := 3600
  const MINUTE: nat := 60
  const SECOND: nat := 1

  /** The unit table in the docstring: each constant is the stated number of days, hours or minutes. */
  lemma UnitConstants()
    ensures LEAPYEAR == 366 * DAY && YEAR == 365 * DAY && MONTH == 30 * DAY
    ensures FORTNIGHT == 14 * DAY && WEEK == 7 * DAY && WORKWEEK == 5 * DAY
    ensures DAY == 24 * HOUR && HOUR == 60 * MINUTE && MINUTE == 60 * SECOND && SECOND == 1
  {
  }

  const DEFAULT_UNIT_MAP: map<string, real> := map[
    "leapyear" := LEAPYEAR as real, "leapyears" := LEAPYEAR as real, "l" := LEAPYEAR as real,
    "year" := YEAR as real, "years" := YEAR as real, "y" := YEAR as real,
    "month" := MONTH as real, "months" := MONTH as real, "b" := MONTH as real,
    "fortnight" := FORTNIGHT as real, "fortnights" := FORTNIGHT as real, "f" := FORTNIGHT as real,
    "week" := WEEK as real, "weeks" := WEEK as real, "w" := WEEK as real,
    "workweek" := WORKWEEK as real, "workweeks" := WORKWEEK as real, "o" := WORKWEEK as real,
    "day" := DAY as real, "days" := DAY as real, "d" := DAY as real,
    "hour" := HOUR as real, "hours" := HOUR as real, "h" := HOUR as real,
    "minute" := MINUTE as real, "minutes" := MINUTE as real, "m" := MINUTE as real,
    "second" := SECOND as real, "seconds" := SECOND as real, "s" := SECOND as real
  ]

  /** Weights of the fields of the days:hours:minutes:seconds form. */
  const COLONS: seq<real> := [DAY as real, HOUR as real, MINUTE as real, SECOND as real]

  /** value units of weight seconds each. */
  function Scale(value: real, weight: real): real
  {
    value * weight
  }

  /** The ValueError, KeyError and IndexError cases of the parser. */
  datatype TimeError =
    | TooManyColons(limit: nat)
    | UnknownUnit(unit: string)
    | BadNumber(text: string)
    | ColonIndex(index: int)
    | KeyError(key: string)

  /** resolve_unit: the seconds of a known unit, ValueError for any other. */
  function Resolve(units: map<string, real>, unit: string): (r: Result<real, TimeError>)
    ensures r.Ok? <==> unit in units
    ensures r.Ok? ==> r.value == units[unit]
    ensures r.Err? ==> r.error == UnknownUnit(unit)
  {
    if unit in units then Ok(units[unit]) else Err(UnknownUnit(unit))
  }

  /** colons[i] with Python's negative indexing; None where Python raises IndexError. */
  function ColonWeight(i: int): (r: Option<real>)
    ensures r.Some? <==> -|COLONS| <= i < |COLONS|
    ensures 0 <= i < |COLONS| ==> r == Some(COLONS[i])
    ensures i == -1 ==> r == Some(SECOND as real)
  {
    if 0 <= i < |COLONS| then Some(COLONS[i])
    else if -|COLONS| <= i < 0 then Some(COLONS[|COLONS| + i])
    else None
  }

  /** float(accumulator) */
  function Number(acc: string): (r: Result<real, TimeError>)
    ensures r.Ok? <==> WellFormedNumeral(acc)
    ensures r.Ok? ==> r.value == NumeralValue(acc)
  {
    match ParseNumeral(acc)
    case None => Err(BadNumber(acc))
    case Some(v) => Ok(v)
  }

  /** The local variables of get_seconds' loop. */
  datatype Scanner = Scanner(total: real, acc: string, value: real, unitMode: bool, spaceMode: bool, colon: int)

  /** One iteration of get_seconds' loop on character c. */
  function Step(units: map<string, real>, st: Scanner, c: char): Result<Scanner, TimeError>
  {
    if !st.unitMode then
      if IsDigit(c) || c == '.' then
        if st.spaceMode && |st.acc| > 0 then
          match Number(st.acc)
          case Err(e) => Err(e)
          case Ok(v) => Ok(st.(total := st.total + v, value := 0.0, acc := [c], spaceMode := false))
        else
          Ok(st.(acc := st.acc + [c]))
      else
        match (if |st.acc| > 0 then Number(st.acc) else Ok(st.value))
        case Err(e) => Err(e)
        case Ok(value) =>
          if c == ':' then
            match ColonWeight(st.colon)
            case None => Err(ColonIndex(st.colon))
            case Some(w) =>
              Ok(st.(total := st.total + Scale(value, w), colon := st.colon + 1, value := 0.0, acc := "", spaceMode := false))
          else if IsSpace(c) then
            Ok(st.(value := value, spaceMode := true))
          else
            Ok(st.(value := value, acc := [c], spaceMode := false, unitMode := true))
    else if IsAlpha(c) then
      Ok(st.(acc := st.acc + [c]))
    else
      match Resolve(units, st.acc)
      case Err(e) => Err(e)
      case Ok(u) =>
        Ok(st.(total := st.total + Scale(st.value, u), value := 0.0, unitMode := false, acc := if IsDigit(c) then [c] else ""))
  }

  /** The loop over all characters of s, stopping at the first error. */
  function Steps(units: map<string, real>, st: Scanner, s: string): Result<Scanner, TimeError>
    decreases |s|, 1
  {
    if s == [] then Ok(st) else Then(units, Step(units, st, s[0]), s[1..])
  }

  /** The rest of the loop after one iteration's outcome r. */
  function Then(units: map<string, real>, r: Result<Scanner, TimeError>, rest: string): Result<Scanner, TimeError>
    decreases |rest| + 1, 0
  {
    match r
    case Err(e) => Err(e)
    case Ok(next) => Steps(units, next, rest)
  }

  /** What follows the loop: a pending unit is resolved, a pending number counts as seconds. */
  function Finish(units: map<string, real>, st: Scanner): Result<real, TimeError>
  {
    if st.unitMode then
      match Resolve(units, st.acc)
      case Err(e) => Err(e)
      case Ok(u) => Ok(st.total + Scale(st.value, u))
    else if |st.acc| > 0 then
      match Number(st.acc)
      case Err(e) => Err(e)
      case Ok(v) => Ok(st.total + v)
    else
      Ok(st.total)
  }

  function Run(units: map<string, real>, st: Scanner, s: string): Result<real, TimeError>
  {
    match Steps(units, st, s)
    case Err(e) => Err(e)
    case Ok(last) => Finish(units, last)
  }

  /** The state before the loop when the string holds k colons. */
  function Initial(k: nat): Scanner
  {
    Scanner(0.0, "", 0.0, false, false, |COLONS| - k - 1)
  }

  /** get_seconds(timestr) against the unit table `units`. */
  function Seconds(units: map<string, real>, timestr: string): (r: Result<real, TimeError>)
    ensures Count(timestr, ':') > |COLONS| ==> r == Err(TooManyColons(|COLONS|))
  {
    var k := Count(timestr, ':');
    if k > |COLONS| then Err(TooManyColons(|COLONS|))
    else Run(units, Initial(k), Lower(timestr))
  }

  class TimeParser {
    var unitMap: map<string, real>

    /** A parser starts with the default unit table. */
    constructor ()
      ensures unitMap == DEFAULT_UNIT_MAP
    {
      unitMap := DEFAULT_UNIT_MAP;
    }

    /** One pass of get_seconds' loop body over the character c. */
    method ScanChar(st: Scanner, c: char) returns (r: Result<Scanner, TimeError>)
      ensures r == Step(unitMap, st, c)
    {
      var total, accumulator, value := st.total, st.acc, st.value;
      var unitMode, spaceMode, colon := st.unitMode, st.spaceMode, st.colon;
      if !unitMode {
        if IsDigit(c) || c == '.' {
          if spaceMode && |accumulator| > 0 {
            var n := ParseNumeral(accumulator);
            if n.None? {
              return Err(BadNumber(accumulator));
            }
            total := total + n.value;
            value := 0.0;
            accumulator := [c];
            spaceMode := false;
          } else {
            accumulator := accumulator + [c];
          }
        } else {
          if |accumulator| > 0 {
            var n := ParseNumeral(accumulator);
            if n.None? {
              return Err(BadNumber(accumulator));
            }
            value := n.value;
          }
          if c == ':' {
            var w := ColonWeight(colon);
            if w.None? {
              return Err(ColonIndex(colon));
            }
            total := total + Scale(value, w.value);
            colon := colon + 1;
            value := 0.0;
            accumulator := "";
            spaceMode := false;
          } else if IsSpace(c) {
            spaceMode := true;
          } else {
            accumulator := [c];
            spaceMode := false;
            unitMode := true;
          }
        }
      } else {
        if IsAlpha(c) {
          accumulator := accumulator + [c];
        } else {
          var unit := Resolve(unitMap, accumulator);
          if unit.Err? {
            return Err(unit.error);
          }
          total := total + Scale(value, unit.value);
          value := 0.0;
          unitMode := false;
          accumulator := if IsDigit(c) then [c] else "";
          assert Step(unitMap, st, c).value.total == total;
        }
      }
      r := Ok(Scanner(total, accumulator, value, unitMode, spaceMode, colon));
    }

    /** get_seconds: checks the colon count, then scans the lower-cased string once. */
    method GetSeconds(timestr: string) returns (r: Result<real, TimeError>)
      ensures r == Seconds(unitMap, timestr)
    {
      var totalColons := Count(timestr, ':');
      if totalColons > |COLONS| {
        return Err(TooManyColons(|COLONS|));
      }
      var scanner := Initial(totalColons);
      var text := Lower(timestr);
      var i := 0;
      while i < |text|
        invariant 0 <= i <= |text|
        invariant Steps(unitMap, Initial(totalColons), text) == Steps(unitMap, scanner, text[i..])
      {
        assert text[i..][0] == text[i] && text[i..][1..] == text[i + 1..];
        var next := ScanChar(scanner, text[i]);
        if next.Err? {
          assert Steps(unitMap, scanner, text[i..]) == Err(next.error);
          return Err(next.error);
        }
        scanner := next.value;
        i := i + 1;
      }
      assert Steps(unitMap, Initial(totalColons), text) == Ok(scanner);

      var total := scanner.total;
      if scanner.unitMode {
        var unit := Resolve(unitMap, scanner.acc);
        if unit.Err? {
          return Err(unit.error);
        }
        total := total + Scale(scanner.value, unit.value);
        assert Finish(unitMap, scanner).Ok? && Finish(unitMap, scanner).value == total;
      } else if |scanner.acc| > 0 {
        var n := ParseNumeral(scanner.acc);
        if n.None? {
          return Err(BadNumber(scanner.acc));
        }
        total := total + n.value;
      }
      r := Ok(total);
    }

    /** add_unit: the new unit is worth get_seconds(spec); an invalid spec leaves the table unchanged. */
    method AddUnit(name: string, spec: string) returns (r: Result<(), TimeError>)
      modifies this
      ensures var s := Seconds(old(unitMap), spec);
        && (r.Ok? <==> s.Ok?)
        && (r.Err? ==> r.error == s.error)
        && unitMap == if s.Ok? then old(unitMap)[name := s.value] else old(unitMap)
    {
      var seconds := GetSeconds(spec);
      if seconds.Err? {
        return Err(seconds.error);
      }
      unitMap := unitMap[name := seconds.value];
      r := Ok(());
    }

    /** del_unit: removes exactly that key; KeyError when it is absent. */
    method DelUnit(name: string) returns (r: Result<(), TimeError>)
      modifies this
      ensures r.Ok? <==> name in old(unitMap)
      ensures r.Err? ==> r.error == KeyError(name)
      ensures unitMap == old(unitMap) - {name}
    {
      if name !in unitMap {
        return Err(KeyError(name));
      }
      unitMap := unitMap - {name};
      r := Ok(());
    }
  }
}
