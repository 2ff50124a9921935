/**
 * What get_seconds computes, stated independently of its state machine: a
 * string made of quantities such as "90", "1h", "2 weeks", "1:30" or
 * "5:12:05:02", separated by single spaces or, after a unit, by nothing at all
 * ("1h30m"), denotes the sum of its quantities. Each field before a colon is
 * weighted by the next entry of COLONS, starting at COLONS[4 - k - 1] for a
 * string with k colons; the last field of a quantity is scaled by its unit,
 * or counts as seconds when there is none.
 */
module TimeMeaning {
  import opened Results
  import opened Text
  import opened ParseTime

  /**
   * Colon-separated numerals, then an optional unit word. spacedUnit puts one
   * space between the last field and the unit ("2 weeks"); glued writes the
   * quantity straight after the previous quantity's unit ("1h30m"), and is
   * ignored on the first quantity of a string.
   */
  datatype Quantity = Quantity(fields: seq<string>, spacedUnit: bool, unit: string, glued: bool)

  predicate LowerWord(u: string) { forall i :: 0 <= i < |u| ==> IsLower(u[i]) }

  predicate WellFormedQuantity(q: Quantity)
  {
    && |q.fields| > 0
    && (forall j :: 0 <= j < |q.fields| ==> WellFormedNumeral(q.fields[j]))
    && LowerWord(q.unit)
    && (q.spacedUnit ==> q.unit != "")
  }

  predicate StartsWithDigit(q: Quantity)
  {
    |q.fields| > 0 && |q.fields[0]| > 0 && IsDigit(q.fields[0][0])
  }

  /**
   * A glued quantity follows a unit and starts with a digit (after a unit, a
   * '.' would be dropped and a letter would extend the unit).
   */
  predicate Joins(prev: Quantity, next: Quantity)
  {
    next.glued ==> prev.unit != "" && StartsWithDigit(next)
  }

  predicate JoinsAll(qs: seq<Quantity>)
  {
    |qs| <= 1 || (Joins(qs[0], qs[1]) && JoinsAll(qs[1..]))
  }

  predicate WellFormed(qs: seq<Quantity>)
  {
    (forall j :: 0 <= j < |qs| ==> WellFormedQuantity(qs[j])) && JoinsAll(qs)
  }

  function JoinColons(fields: seq<string>): string
  {
    if fields == [] then ""
    else if |fields| == 1 then fields[0]
    else fields[0] + ":" + JoinColons(fields[1..])
  }

  function Gap(q: Quantity): string
  {
    if q.spacedUnit then " " else ""
  }

  function RenderQuantity(q: Quantity): string
  {
    JoinColons(q.fields) + Gap(q) + q.unit
  }

  /** What goes before a quantity that is not the first: nothing when it is glued, else one space. */
  function Separator(q: Quantity): string
  {
    if q.glued then "" else " "
  }

  /** The quantities written out, each after its separator. */
  function Render(qs: seq<Quantity>): string
  {
    if qs == [] then ""
    else if |qs| == 1 then RenderQuantity(qs[0])
    else RenderQuantity(qs[0]) + Separator(qs[1]) + Render(qs[1..])
  }

  function ColonCount(q: Quantity): nat
  {
    if q.fields == [] then 0 else |q.fields| - 1
  }

  function TotalColons(qs: seq<Quantity>): nat
  {
    if qs == [] then 0 else ColonCount(qs[0]) + TotalColons(qs[1..])
  }

  function Weight(i: int): real
  {
    match ColonWeight(i)
    case None => 0.0
    case Some(w) => w
  }

  /** The fields before the last one, weighted by consecutive colon weights from index col. */
  function ColonSum(fields: seq<string>, col: int): real
  {
    if |fields| <= 1 then 0.0
    else Scale(NumeralValue(fields[0]), Weight(col)) + ColonSum(fields[1..], col + 1)
  }

  function LastValue(fields: seq<string>): real
  {
    if fields == [] then 0.0 else NumeralValue(fields[|fields| - 1])
  }

  function QuantityValue(units: map<string, real>, q: Quantity, col: int): Result<real, TimeError>
  {
    if q.unit == "" then Ok(ColonSum(q.fields, col) + LastValue(q.fields))
    else if q.unit in units then Ok(ColonSum(q.fields, col) + Scale(LastValue(q.fields), units[q.unit]))
    else Err(UnknownUnit(q.unit))
  }

  /** The sum of the quantities, or the first unknown unit. */
  function Denote(units: map<string, real>, qs: seq<Quantity>, col: int): Result<real, TimeError>
  {
    if qs == [] then Ok(0.0)
    else
      match QuantityValue(units, qs[0], col)
      case Err(e) => Err(e)
      case Ok(v) =>
        match Denote(units, qs[1..], col + ColonCount(qs[0]))
        case Err(e) => Err(e)
        case Ok(w) => Ok(v + w)
  }

  function Shift(t: real, r: Result<real, TimeError>): Result<real, TimeError>
  {
    match r
    case Err(e) => Err(e)
    case Ok(v) => Ok(t + v)
  }

  // Scanner states between the pieces of a rendered string.

  function Accumulating(t: real, col: int, a: string): Scanner
  {
    Scanner(t, a, 0.0, false, false, col)
  }

  /** Ready to read a quantity, with effective total t; a bare number may still be pending. */
  function Ready(t: real, col: int, pending: Option<string>): Scanner
  {
    match pending
    case None => Accumulating(t, col, "")
    case Some(p) => Scanner(t - NumeralValue(p), p, NumeralValue(p), false, true, col)
  }

  predicate PendingOk(pending: Option<string>)
  {
    pending.Some? ==> WellFormedNumeral(pending.value)
  }

  lemma {:induction false} StepsAppend(units: map<string, real>, st: Scanner, a: string, b: string)
    ensures Steps(units, st, a + b)
         == match Steps(units, st, a) case Err(e) => Err(e) case Ok(m) => Steps(units, m, b)
    decreases |a|
  {
    if a == [] {
      assert a + b == b;
    } else {
      assert (a + b)[0] == a[0] && (a + b)[1..] == a[1..] + b;
      match Step(units, st, a[0]) {
        case Err(e) =>
        case Ok(n) => StepsAppend(units, n, a[1..], b);
      }
    }
  }

  lemma {:induction false} StepsThen(units: map<string, real>, st: Scanner, a: string, mid: Scanner, b: string, r: Result<Scanner, TimeError>)
    requires Steps(units, st, a) == Ok(mid) && Steps(units, mid, b) == r
    ensures Steps(units, st, a + b) == r
  {
    StepsAppend(units, st, a, b);
  }

  lemma {:induction false} RunAppend(units: map<string, real>, st: Scanner, a: string, b: string)
    ensures Run(units, st, a + b)
         == match Steps(units, st, a) case Err(e) => Err(e) case Ok(m) => Run(units, m, b)
  {
    StepsAppend(units, st, a, b);
  }

  /** Digits and dots are appended to the accumulator. */
  lemma {:induction false} NumeralSteps(units: map<string, real>, t: real, col: int, a: string, n: string)
    requires NumeralChars(n)
    ensures Steps(units, Accumulating(t, col, a), n) == Ok(Accumulating(t, col, a + n))
    decreases |n|
  {
    if n == [] {
      assert a + n == a;
    } else {
      assert Step(units, Accumulating(t, col, a), n[0]) == Ok(Accumulating(t, col, a + [n[0]]));
      NumeralSteps(units, t, col, a + [n[0]], n[1..]);
      assert a + [n[0]] + n[1..] == a + n;
    }
  }

  /** A numeral read from a ready state; a pending number is added to the total first. */
  lemma {:induction false} EnterNumeral(units: map<string, real>, t: real, col: int, pending: Option<string>, f: string)
    requires WellFormedNumeral(f) && PendingOk(pending)
    ensures Steps(units, Ready(t, col, pending), f) == Ok(Accumulating(t, col, f))
  {
    var k :| 0 <= k < |f| && IsDigit(f[k]);
    match pending {
      case None =>
        NumeralSteps(units, t, col, "", f);
        assert "" + f == f;
      case Some(p) =>
        var v := NumeralValue(p);
        var k' :| 0 <= k' < |p| && IsDigit(p[k']);
        assert NumeralChar(f[0]);
        assert Step(units, Ready(t, col, pending), f[0]) == Ok(Accumulating(t - v + v, col, [f[0]]));
        NumeralSteps(units, t, col, [f[0]], f[1..]);
        assert [f[0]] + f[1..] == f;
    }
  }

  lemma {:induction false} StepsSingle(units: map<string, real>, st: Scanner, c: char)
    ensures Steps(units, st, [c]) == Step(units, st, c)
  {
    assert [c][1..] == [];
    match Step(units, st, c) {
      case Err(e) =>
      case Ok(n) => assert Steps(units, n, []) == Ok(n);
    }
  }

  lemma {:induction false} NumberValue(f: string)
    requires WellFormedNumeral(f)
    ensures Number(f).Ok? && Number(f).value == NumeralValue(f) && |f| > 0
  {
    var k :| 0 <= k < |f| && IsDigit(f[k]);
  }

  /** A colon after a numeral adds the numeral times the current colon weight. */
  lemma {:induction false} ColonStep(units: map<string, real>, t: real, col: int, f: string)
    requires WellFormedNumeral(f) && -|COLONS| <= col < |COLONS|
    ensures Steps(units, Accumulating(t, col, f), ":") == Ok(Ready(t + Scale(NumeralValue(f), Weight(col)), col + 1, None))
  {
    NumberValue(f);
    StepsSingle(units, Accumulating(t, col, f), ':');
  }

  /** A space after a numeral leaves it pending. */
  lemma {:induction false} SpaceAfterNumeral(units: map<string, real>, t: real, col: int, f: string)
    requires WellFormedNumeral(f)
    ensures Steps(units, Accumulating(t, col, f), " ") == Ok(Ready(t + NumeralValue(f), col, Some(f)))
  {
    NumberValue(f);
    StepsSingle(units, Accumulating(t, col, f), ' ');
  }

  /** A space after a unit word resolves it. */
  lemma {:induction false} SpaceAfterUnit(units: map<string, real>, t: real, col: int, v: real, u: string)
    ensures var st := Scanner(t, u, v, true, false, col);
      Steps(units, st, " ") == if u in units then Ok(Ready(t + Scale(v, units[u]), col, None)) else Err(UnknownUnit(u))
  {
    var st := Scanner(t, u, v, true, false, col);
    StepsSingle(units, st, ' ');
    if u in units {
      assert Step(units, st, ' ').Ok? && Step(units, st, ' ').value == Ready(t + Scale(v, units[u]), col, None);
    }
  }

  lemma {:induction false} FinishNumeral(units: map<string, real>, t: real, col: int, f: string)
    requires WellFormedNumeral(f)
    ensures Finish(units, Accumulating(t, col, f)) == Ok(t + NumeralValue(f))
  {
    NumberValue(f);
  }

  lemma {:induction false} FinishUnit(units: map<string, real>, t: real, col: int, v: real, u: string)
    ensures var r := Finish(units, Scanner(t, u, v, true, false, col));
      && (r.Ok? <==> u in units)
      && (r.Ok? ==> r.value == t + Scale(v, units[u]))
      && (r.Err? ==> r.error == UnknownUnit(u))
  {
  }

  lemma {:induction false} FinishReady(units: map<string, real>, t: real, col: int, pending: Option<string>)
    requires PendingOk(pending)
    ensures Finish(units, Ready(t, col, pending)) == Ok(t)
  {
    if pending.Some? {
      NumberValue(pending.value);
    }
  }

  /** One field and its colon: the field is weighted by COLONS at the current index. */
  lemma {:induction false} FieldColonSteps(units: map<string, real>, f: string, t: real, col: int, pending: Option<string>)
    requires WellFormedNumeral(f) && PendingOk(pending)
    requires -|COLONS| <= col && col + 1 <= |COLONS|
    ensures Steps(units, Ready(t, col, pending), f + ":") == Ok(Ready(t + Scale(NumeralValue(f), Weight(col)), col + 1, None))
  {
    StepsAppend(units, Ready(t, col, pending), f, ":");
    EnterNumeral(units, t, col, pending, f);
    ColonStep(units, t, col, f);
  }

  /** The fields of a colon group, read up to (not including) the last one's end. */
  lemma {:induction false} FieldsSteps(units: map<string, real>, fields: seq<string>, t: real, col: int, pending: Option<string>)
    requires |fields| > 0 && forall j :: 0 <= j < |fields| ==> WellFormedNumeral(fields[j])
    requires PendingOk(pending)
    requires -|COLONS| <= col && col + |fields| - 1 <= |COLONS|
    ensures Steps(units, Ready(t, col, pending), JoinColons(fields))
         == Ok(Accumulating(t + ColonSum(fields, col), col + |fields| - 1, fields[|fields| - 1]))
    decreases |fields|
  {
    var start := Ready(t, col, pending);
    if |fields| == 1 {
      EnterNumeral(units, t, col, pending, fields[0]);
    } else {
      var rest := fields[1..];
      var head := fields[0] + ":";
      var t' := t + Scale(NumeralValue(fields[0]), Weight(col));
      FieldColonSteps(units, fields[0], t, col, pending);
      assert JoinColons(fields) == head + JoinColons(rest);
      StepsAppend(units, start, head, JoinColons(rest));
      FieldsSteps(units, rest, t', col + 1, None);
      assert rest[|rest| - 1] == fields[|fields| - 1];
      assert t' + ColonSum(rest, col + 1) == t + ColonSum(fields, col);
    }
  }

  /** Letters continue a unit word. */
  lemma {:induction false} LetterSteps(units: map<string, real>, st: Scanner, w: string)
    requires st.unitMode && forall i :: 0 <= i < |w| ==> IsAlpha(w[i])
    ensures Steps(units, st, w) == Ok(st.(acc := st.acc + w))
    decreases |w|
  {
    if w == [] {
      assert st.acc + w == st.acc;
    } else {
      LetterSteps(units, st.(acc := st.acc + [w[0]]), w[1..]);
      assert st.acc + [w[0]] + w[1..] == st.acc + w;
    }
  }

  /** A unit word after a numeral: the numeral becomes the value and the word the pending unit. */
  lemma {:induction false} UnitSteps(units: map<string, real>, t: real, col: int, f: string, u: string)
    requires WellFormedNumeral(f) && |u| > 0 && LowerWord(u)
    ensures Steps(units, Accumulating(t, col, f), u) == Ok(Scanner(t, u, NumeralValue(f), true, false, col))
  {
    NumberValue(f);
    var st := Scanner(t, [u[0]], NumeralValue(f), true, false, col);
    assert Step(units, Accumulating(t, col, f), u[0]) == Ok(st);
    LetterSteps(units, st, u[1..]);
    assert [u[0]] + u[1..] == u;
  }

  /** A unit word after a numeral and a space: the space left the numeral pending, the word takes it as its value. */
  lemma {:induction false} GapUnitSteps(units: map<string, real>, t: real, col: int, f: string, u: string)
    requires WellFormedNumeral(f) && |u| > 0 && LowerWord(u)
    ensures Steps(units, Ready(t + NumeralValue(f), col, Some(f)), u) == Ok(Scanner(t, u, NumeralValue(f), true, false, col))
  {
    NumberValue(f);
    var v := NumeralValue(f);
    assert Ready(t + v, col, Some(f)) == Scanner(t, f, v, false, true, col);
    var st := Scanner(t, [u[0]], v, true, false, col);
    assert Step(units, Ready(t + v, col, Some(f)), u[0]) == Ok(st);
    LetterSteps(units, st, u[1..]);
    assert [u[0]] + u[1..] == u;
  }

  /** Where reading one quantity leaves the scanner. */
  function AfterQuantity(q: Quantity, t: real, col: int): Scanner
    requires |q.fields| > 0
  {
    var last := q.fields[|q.fields| - 1];
    var t1 := t + ColonSum(q.fields, col);
    var col1 := col + |q.fields| - 1;
    if q.unit == "" then Accumulating(t1, col1, last) else Scanner(t1, q.unit, LastValue(q.fields), true, false, col1)
  }

  lemma {:induction false} QuantitySteps(units: map<string, real>, q: Quantity, t: real, col: int, pending: Option<string>)
    requires WellFormedQuantity(q) && PendingOk(pending)
    requires -|COLONS| <= col && col + ColonCount(q) <= |COLONS|
    ensures Steps(units, Ready(t, col, pending), RenderQuantity(q)) == Ok(AfterQuantity(q, t, col))
  {
    var fields := q.fields;
    var start := Ready(t, col, pending);
    var t1, col1, last := t + ColonSum(fields, col), col + |fields| - 1, fields[|fields| - 1];
    FieldsSteps(units, fields, t, col, pending);
    assert LastValue(fields) == NumeralValue(last);
    if q.unit == "" {
      assert RenderQuantity(q) == JoinColons(fields);
    } else {
      assert RenderQuantity(q) == JoinColons(fields) + (Gap(q) + q.unit);
      var word := Scanner(t1, q.unit, NumeralValue(last), true, false, col1);
      WordSteps(units, t1, col1, last, q.spacedUnit, q.unit);
      StepsThen(units, start, JoinColons(fields), Accumulating(t1, col1, last), Gap(q) + q.unit, Ok(word));
      assert AfterQuantity(q, t, col) == word;
    }
  }

  /** A unit word, with or without a space before it, after the last field of a quantity. */
  lemma {:induction false} WordSteps(units: map<string, real>, t: real, col: int, f: string, spaced: bool, u: string)
    requires WellFormedNumeral(f) && |u| > 0 && LowerWord(u)
    ensures Steps(units, Accumulating(t, col, f), (if spaced then " " else "") + u)
         == Ok(Scanner(t, u, NumeralValue(f), true, false, col))
  {
    if spaced {
      StepsAppend(units, Accumulating(t, col, f), " ", u);
      SpaceAfterNumeral(units, t, col, f);
      GapUnitSteps(units, t, col, f, u);
    } else {
      assert "" + u == u;
      UnitSteps(units, t, col, f, u);
    }
  }

  lemma {:induction false} SameResult(a: Result<real, TimeError>, b: Result<real, TimeError>)
    requires a.Ok? <==> b.Ok?
    requires a.Ok? ==> a.value == b.value
    requires a.Err? ==> a.error == b.error
    ensures a == b
  {
  }

  /** Pending number left behind by a quantity followed by a space. */
  function PendingAfter(q: Quantity): Option<string>
    requires |q.fields| > 0
  {
    if q.unit == "" then Some(q.fields[|q.fields| - 1]) else None
  }

  function LastField(q: Quantity): string
    requires |q.fields| > 0
  {
    q.fields[|q.fields| - 1]
  }

  lemma {:induction false} ValueBare(units: map<string, real>, q: Quantity, col: int)
    requires |q.fields| > 0 && q.unit == ""
    ensures QuantityValue(units, q, col) == Ok(ColonSum(q.fields, col) + LastValue(q.fields))
  {
  }

  lemma {:induction false} ValueUnit(units: map<string, real>, q: Quantity, col: int)
    requires |q.fields| > 0 && q.unit != "" && q.unit in units
    ensures QuantityValue(units, q, col) == Ok(ColonSum(q.fields, col) + Scale(LastValue(q.fields), units[q.unit]))
  {
  }

  /** Finish after the last quantity adds its value. */
  lemma {:induction false} FinalValue(units: map<string, real>, q: Quantity, t: real, col: int)
    requires WellFormedQuantity(q)
    ensures Finish(units, AfterQuantity(q, t, col)) == Shift(t, QuantityValue(units, q, col))
  {
    var last := LastField(q);
    var t1 := t + ColonSum(q.fields, col);
    var col1 := col + |q.fields| - 1;
    if q.unit == "" {
      ValueBare(units, q, col);
      FinishNumeral(units, t1, col1, last);
      SameResult(Finish(units, AfterQuantity(q, t, col)), Shift(t, QuantityValue(units, q, col)));
    } else {
      var lv, u := LastValue(q.fields), q.unit;
      assert AfterQuantity(q, t, col) == Scanner(t1, u, lv, true, false, col1);
      FinishUnit(units, t1, col1, lv, u);
      if u in units {
        ValueUnit(units, q, col);
        SameResult(Finish(units, AfterQuantity(q, t, col)), Shift(t, QuantityValue(units, q, col)));
      }
    }
  }

  /** The last quantity of a string. */
  lemma {:induction false} LastQuantity(units: map<string, real>, q: Quantity, t: real, col: int, pending: Option<string>)
    requires WellFormedQuantity(q) && PendingOk(pending)
    requires -|COLONS| <= col && col + ColonCount(q) <= |COLONS|
    ensures Run(units, Ready(t, col, pending), RenderQuantity(q)) == Shift(t, QuantityValue(units, q, col))
  {
    QuantitySteps(units, q, t, col, pending);
    FinalValue(units, q, t, col);
  }

  /** The space after a quantity. */
  lemma {:induction false} SpaceValue(units: map<string, real>, q: Quantity, t: real, col: int)
    requires WellFormedQuantity(q)
    ensures Steps(units, AfterQuantity(q, t, col), " ")
         == match QuantityValue(units, q, col)
            case Err(e) => Err(e)
            case Ok(v) => Ok(Ready(t + v, col + ColonCount(q), PendingAfter(q)))
  {
    var last := LastField(q);
    var t1 := t + ColonSum(q.fields, col);
    var col1 := col + |q.fields| - 1;
    if q.unit == "" {
      ValueBare(units, q, col);
      SpaceAfterNumeral(units, t1, col1, last);
      var m := LastValue(q.fields);
      assert m == NumeralValue(last);
      assert Ready(t + (ColonSum(q.fields, col) + m), col + ColonCount(q), PendingAfter(q)) == Ready(t1 + m, col1, Some(last));
    } else {
      var lv, u := LastValue(q.fields), q.unit;
      assert AfterQuantity(q, t, col) == Scanner(t1, u, lv, true, false, col1);
      SpaceAfterUnit(units, t1, col1, lv, u);
      if u in units {
        ValueUnit(units, q, col);
        var m := Scale(lv, units[u]);
        assert Ready(t + (ColonSum(q.fields, col) + m), col + ColonCount(q), PendingAfter(q)) == Ready(t1 + m, col1, None);
      }
    }
  }

  /**
   * A digit straight after a unit word resolves the unit and starts the next
   * number, just as a space and then the digit would.
   */
  lemma {:induction false} GlueValue(units: map<string, real>, q: Quantity, t: real, col: int, more: string)
    requires WellFormedQuantity(q) && q.unit != "" && |more| > 0 && IsDigit(more[0])
    ensures QuantityValue(units, q, col).Err? ==>
      Run(units, AfterQuantity(q, t, col), more) == Err(QuantityValue(units, q, col).error)
    ensures QuantityValue(units, q, col).Ok? ==>
      Run(units, AfterQuantity(q, t, col), more)
      == Run(units, Ready(t + QuantityValue(units, q, col).value, col + ColonCount(q), None), more)
  {
    var c := more[0];
    var t1, col1 := t + ColonSum(q.fields, col), col + |q.fields| - 1;
    var lv, u := LastValue(q.fields), q.unit;
    var after := AfterQuantity(q, t, col);
    assert after == Scanner(t1, u, lv, true, false, col1);
    assert more == [c] + more[1..];
    RunAppend(units, after, [c], more[1..]);
    StepsSingle(units, after, c);
    if u in units {
      ValueUnit(units, q, col);
      var v := ColonSum(q.fields, col) + Scale(lv, units[u]);
      var ready := Ready(t + v, col + ColonCount(q), None);
      RunAppend(units, ready, [c], more[1..]);
      StepsSingle(units, ready, c);
      assert ready == Accumulating(t + v, col1, "");
      assert "" + [c] == [c];
      assert Step(units, after, c) == Ok(Accumulating(t + v, col1, [c]));
      assert Step(units, ready, c) == Ok(Accumulating(t + v, col1, [c]));
    }
  }

  /** A quantity, its separator from the next one (a space, or nothing after a unit when a digit follows) and more text. */
  lemma {:induction false} InnerQuantity(units: map<string, real>, q: Quantity, sep: string, more: string, text: string, t: real, col: int, pending: Option<string>)
    requires WellFormedQuantity(q) && PendingOk(pending)
    requires -|COLONS| <= col && col + ColonCount(q) <= |COLONS|
    requires sep == " " || (sep == "" && q.unit != "" && |more| > 0 && IsDigit(more[0]))
    requires text == RenderQuantity(q) + sep + more
    ensures QuantityValue(units, q, col).Err? ==>
      Run(units, Ready(t, col, pending), text) == Err(QuantityValue(units, q, col).error)
    ensures QuantityValue(units, q, col).Ok? ==>
      Run(units, Ready(t, col, pending), text)
      == Run(units, Ready(t + QuantityValue(units, q, col).value, col + ColonCount(q), PendingAfter(q)), more)
  {
    var start := Ready(t, col, pending);
    QuantitySteps(units, q, t, col, pending);
    if sep == " " {
      StepsAppend(units, start, RenderQuantity(q), " ");
      RunAppend(units, start, RenderQuantity(q) + " ", more);
      SpaceValue(units, q, t, col);
    } else {
      assert text == RenderQuantity(q) + more;
      RunAppend(units, start, RenderQuantity(q), more);
      GlueValue(units, q, t, col, more);
    }
  }

  lemma {:induction false} WellFormedTail(qs: seq<Quantity>)
    requires |qs| > 0 && WellFormed(qs)
    ensures WellFormedQuantity(qs[0]) && WellFormed(qs[1..])
    ensures TotalColons(qs) == ColonCount(qs[0]) + TotalColons(qs[1..])
    ensures PendingOk(PendingAfter(qs[0]))
    ensures |qs| > 1 ==> Joins(qs[0], qs[1])
  {
    assert WellFormedQuantity(qs[0]);
    var tail := qs[1..];
    forall j | 0 <= j < |tail| ensures WellFormedQuantity(tail[j]) {
      assert tail[j] == qs[j + 1];
    }
  }

  /** A rendered string starts with the first character of its first field. */
  lemma {:induction false} RenderStarts(qs: seq<Quantity>)
    requires |qs| > 0 && StartsWithDigit(qs[0])
    ensures |Render(qs)| > 0 && IsDigit(Render(qs)[0])
  {
    var q := qs[0];
    var f := q.fields;
    assert JoinColons(f) == f[0] || JoinColons(f) == f[0] + ":" + JoinColons(f[1..]);
    assert JoinColons(f)[0] == f[0][0];
    assert RenderQuantity(q) == JoinColons(f) + (Gap(q) + q.unit);
    assert RenderQuantity(q)[0] == f[0][0];
    if |qs| > 1 {
      assert Render(qs) == RenderQuantity(q) + (Separator(qs[1]) + Render(qs[1..]));
    }
  }

  /** A string of one quantity. */
  lemma {:induction false} RenderOne(units: map<string, real>, qs: seq<Quantity>, t: real, col: int, pending: Option<string>)
    requires |qs| == 1 && WellFormed(qs) && PendingOk(pending)
    requires -|COLONS| <= col && col + TotalColons(qs) <= |COLONS|
    ensures Run(units, Ready(t, col, pending), Render(qs)) == Shift(t, Denote(units, qs, col))
  {
    var q := qs[0];
    WellFormedTail(qs);
    assert Render(qs) == RenderQuantity(q);
    LastQuantity(units, q, t, col, pending);
    DenoteOne(units, qs, t, col);
  }

  /** A single quantity denotes its own value. */
  lemma {:induction false} DenoteOne(units: map<string, real>, qs: seq<Quantity>, t: real, col: int)
    requires |qs| == 1
    ensures Shift(t, Denote(units, qs, col)) == Shift(t, QuantityValue(units, qs[0], col))
  {
    assert Denote(units, qs[1..], col + ColonCount(qs[0])) == Ok(0.0);
    SameResult(Shift(t, Denote(units, qs, col)), Shift(t, QuantityValue(units, qs[0], col)));
  }

  /** Denote unfolded by one quantity worth v, with the running total t carried along. */
  lemma {:induction false} DenoteOk(units: map<string, real>, qs: seq<Quantity>, t: real, col: int, v: real)
    requires |qs| > 0 && QuantityValue(units, qs[0], col) == Ok(v)
    ensures Shift(t, Denote(units, qs, col)) == Shift(t + v, Denote(units, qs[1..], col + ColonCount(qs[0])))
  {
    var d := Denote(units, qs[1..], col + ColonCount(qs[0]));
    if d.Ok? {
      assert t + (v + d.value) == t + v + d.value;
      SameResult(Shift(t, Denote(units, qs, col)), Shift(t + v, d));
    }
  }

  /** The first quantity's error is the string's error. */
  lemma {:induction false} DenoteErr(units: map<string, real>, qs: seq<Quantity>, t: real, col: int, e: TimeError)
    requires |qs| > 0 && QuantityValue(units, qs[0], col) == Err(e)
    ensures Shift(t, Denote(units, qs, col)) == Err(e)
  {
  }

  lemma {:induction false} RenderCons(qs: seq<Quantity>)
    requires |qs| > 1
    ensures Render(qs) == RenderQuantity(qs[0]) + Separator(qs[1]) + Render(qs[1..])
  {
  }

  /** A quantity is glued only to a unit, and only when the text after it starts with a digit. */
  lemma {:induction false} SeparatorFits(qs: seq<Quantity>)
    requires |qs| > 1 && WellFormed(qs)
    ensures Separator(qs[1]) == " "
         || (Separator(qs[1]) == "" && qs[0].unit != "" && |Render(qs[1..])| > 0 && IsDigit(Render(qs[1..])[0]))
  {
    if qs[1].glued {
      WellFormedTail(qs);
      RenderStarts(qs[1..]);
    }
  }

  /** A string of several quantities: the first one, its separator, then the rest by induction. */
  lemma {:induction false} RenderMore(units: map<string, real>, qs: seq<Quantity>, text: string, t: real, col: int, pending: Option<string>)
    requires |qs| > 1 && WellFormed(qs) && PendingOk(pending) && text == Render(qs)
    requires -|COLONS| <= col && col + TotalColons(qs) <= |COLONS|
    ensures Run(units, Ready(t, col, pending), text) == Shift(t, Denote(units, qs, col))
    decreases |qs|, 1
  {
    WellFormedTail(qs);
    RenderCons(qs);
    SeparatorFits(qs);
    var q, more := qs[0], Render(qs[1..]);
    match QuantityValue(units, q, col) {
      case Err(e) =>
        InnerQuantity(units, q, Separator(qs[1]), more, text, t, col, pending);
        DenoteErr(units, qs, t, col, e);
      case Ok(v) =>
        TailRun(units, qs, t, col, v);
        ConsRun(units, q, Separator(qs[1]), more, text, t, col, pending, v, Denote(units, qs[1..], col + ColonCount(q)));
        DenoteOk(units, qs, t, col, v);
    }
  }

  /** The rest of the string, read after a first quantity worth v, by induction. */
  lemma {:induction false} TailRun(units: map<string, real>, qs: seq<Quantity>, t: real, col: int, v: real)
    requires |qs| > 1 && WellFormed(qs)
    requires -|COLONS| <= col && col + TotalColons(qs) <= |COLONS|
    ensures Run(units, Ready(t + v, col + ColonCount(qs[0]), PendingAfter(qs[0])), Render(qs[1..]))
         == Shift(t + v, Denote(units, qs[1..], col + ColonCount(qs[0])))
    decreases |qs|, 0
  {
    WellFormedTail(qs);
    RenderRun(units, qs[1..], Render(qs[1..]), t + v, col + ColonCount(qs[0]), PendingAfter(qs[0]));
  }

  /** The first quantity, worth v, and its separator, then whatever the rest of the string denotes. */
  lemma {:induction false} ConsRun(units: map<string, real>, q: Quantity, sep: string, more: string, text: string, t: real, col: int, pending: Option<string>, v: real, rest: Result<real, TimeError>)
    requires WellFormedQuantity(q) && PendingOk(pending)
    requires -|COLONS| <= col && col + ColonCount(q) <= |COLONS|
    requires sep == " " || (sep == "" && q.unit != "" && |more| > 0 && IsDigit(more[0]))
    requires text == RenderQuantity(q) + sep + more
    requires QuantityValue(units, q, col) == Ok(v)
    requires Run(units, Ready(t + v, col + ColonCount(q), PendingAfter(q)), more) == Shift(t + v, rest)
    ensures Run(units, Ready(t, col, pending), text) == Shift(t + v, rest)
  {
    InnerQuantity(units, q, sep, more, text, t, col, pending);
  }

  /** The quantities of a rendered string, read from a ready state. */
  lemma {:induction false} RenderRun(units: map<string, real>, qs: seq<Quantity>, text: string, t: real, col: int, pending: Option<string>)
    requires WellFormed(qs) && PendingOk(pending) && text == Render(qs)
    requires -|COLONS| <= col && col + TotalColons(qs) <= |COLONS|
    ensures Run(units, Ready(t, col, pending), text) == Shift(t, Denote(units, qs, col))
    decreases |qs|, 2
  {
    if qs == [] {
      FinishReady(units, t, col, pending);
    } else if |qs| == 1 {
      RenderOne(units, qs, t, col, pending);
    } else {
      RenderMore(units, qs, text, t, col, pending);
    }
  }
}

module TimeTheorems {
  import opened Results
  import opened Text
  import opened ParseTime
  import opened TimeMeaning

  lemma {:induction false} NoColonInNumeral(s: string)
    requires NumeralChars(s)
    ensures Count(s, ':') == 0
  {
    forall i | 0 <= i < |s| ensures s[i] != ':' {
      assert NumeralChar(s[i]);
    }
  }

  lemma {:induction false} NoColonInWord(s: string)
    requires LowerWord(s)
    ensures Count(s, ':') == 0
  {
    forall i | 0 <= i < |s| ensures s[i] != ':' {
      assert IsLower(s[i]);
    }
  }

  lemma {:induction false} NoColonInBlank(s: string)
    requires s == "" || s == " "
    ensures Count(s, ':') == 0
  {
    assert forall i :: 0 <= i < |s| ==> s[i] == ' ';
  }

  /** k+1 colon-free fields joined by colons hold k colons. */
  lemma {:induction false} CountJoin(fields: seq<string>)
    requires |fields| > 0
    requires forall j :: 0 <= j < |fields| ==> NumeralChars(fields[j])
    ensures Count(JoinColons(fields), ':') == |fields| - 1
  {
    NoColonInNumeral(fields[0]);
    if |fields| > 1 {
      CountJoin(fields[1..]);
      CountAppend(fields[0], ":", ':');
      CountAppend(fields[0] + ":", JoinColons(fields[1..]), ':');
    }
  }

  /** The colons of a rendered string are exactly the quantities' colons. */
  lemma {:induction false} CountRender(qs: seq<Quantity>)
    requires WellFormed(qs)
    ensures Count(Render(qs), ':') == TotalColons(qs)
  {
    if qs != [] {
      WellFormedTail(qs);
      var q := qs[0];
      CountJoin(q.fields);
      NoColonInWord(q.unit);
      NoColonInBlank(Gap(q));
      CountAppend(JoinColons(q.fields), Gap(q), ':');
      CountAppend(JoinColons(q.fields) + Gap(q), q.unit, ':');
      if |qs| > 1 {
        CountRender(qs[1..]);
        NoColonInBlank(Separator(qs[1]));
        CountAppend(RenderQuantity(q), Separator(qs[1]), ':');
        CountAppend(RenderQuantity(q) + Separator(qs[1]), Render(qs[1..]), ':');
      } else {
        assert TotalColons(qs[1..]) == 0;
      }
    }
  }

  predicate NoUpper(s: string) { forall i :: 0 <= i < |s| ==> !IsUpper(s[i]) }

  lemma {:induction false} LowerFixed(s: string)
    requires NoUpper(s)
    ensures Lower(s) == s
  {
  }

  lemma {:induction false} LowerNumeral(s: string)
    requires NumeralChars(s)
    ensures Lower(s) == s
  {
    forall i | 0 <= i < |s| ensures !IsUpper(s[i]) {
      assert NumeralChar(s[i]);
    }
    LowerFixed(s);
  }

  lemma {:induction false} LowerJoin(fields: seq<string>)
    requires forall j :: 0 <= j < |fields| ==> NumeralChars(fields[j])
    ensures Lower(JoinColons(fields)) == JoinColons(fields)
  {
    if |fields| == 1 {
      LowerNumeral(fields[0]);
    } else if |fields| > 1 {
      LowerNumeral(fields[0]);
      LowerFixed(":");
      LowerJoin(fields[1..]);
      LowerAppend(fields[0], ":");
      LowerAppend(fields[0] + ":", JoinColons(fields[1..]));
    }
  }

  /** A rendered string is already lower-case. */
  lemma {:induction false} LowerRender(qs: seq<Quantity>)
    requires WellFormed(qs)
    ensures Lower(Render(qs)) == Render(qs)
  {
    if qs != [] {
      WellFormedTail(qs);
      var q := qs[0];
      LowerJoin(q.fields);
      LowerFixed(q.unit);
      LowerFixed(Gap(q));
      LowerAppend(JoinColons(q.fields), Gap(q));
      LowerAppend(JoinColons(q.fields) + Gap(q), q.unit);
      if |qs| > 1 {
        LowerRender(qs[1..]);
        LowerFixed(Separator(qs[1]));
        LowerAppend(RenderQuantity(q), Separator(qs[1]));
        LowerAppend(RenderQuantity(q) + Separator(qs[1]), Render(qs[1..]));
      }
    }
  }

  /**
   * get_seconds computes the denotation: space-separated quantities add up,
   * colon fields are weighted by COLONS from the position fixed by the colon
   * count, units scale the last field, an unknown unit is a ValueError, and
   * more than four colons are refused before scanning.
   */
  lemma {:induction false} Meaning(units: map<string, real>, qs: seq<Quantity>)
    requires WellFormed(qs)
    ensures TotalColons(qs) > |COLONS| ==> Seconds(units, Render(qs)) == Err(TooManyColons(|COLONS|))
    ensures TotalColons(qs) <= |COLONS| ==>
      Seconds(units, Render(qs)) == Denote(units, qs, |COLONS| - TotalColons(qs) - 1)
  {
    var text := Render(qs);
    var k := TotalColons(qs);
    CountRender(qs);
    if k <= |COLONS| {
      LowerRender(qs);
      var col := |COLONS| - k - 1;
      assert Seconds(units, text) == Run(units, Initial(k), text);
      assert Initial(k) == Ready(0.0, col, None);
      RenderRun(units, qs, text, 0.0, col, None);
      var d := Denote(units, qs, col);
      assert Shift(0.0, d) == d by {
        if d.Ok? {
          SameResult(Shift(0.0, d), d);
        }
      }
    }
  }

  lemma {:induction false} DigitNumeral(s: string, n: nat)
    requires AllDigits(s) && DigitsValue(s) == n
    ensures WellFormedNumeral(s) <==> |s| > 0
    ensures NumeralValue(s) == n as real
  {
    IntegerNumeral(s);
    if |s| > 0 {
      assert IsDigit(s[0]);
    }
    forall i | 0 <= i < |s| ensures s[i] != '.' {
      assert IsDigit(s[i]);
    }
  }

  /** The docstring's example: "4 4" is two bare quantities, 8 seconds. */
  lemma FourFour()
    ensures Seconds(DEFAULT_UNIT_MAP, "4 4") == Ok(8.0)
  {
    var four := Quantity(["4"], false, "", false);
    var qs := [four, four];
    DigitNumeral("4", 4);
    assert WellFormedQuantity(four);
    assert Render(qs) == "4 4";
    assert qs[1..] == [four] && [four][1..] == [];
    assert TotalColons([four]) == 0;
    assert TotalColons(qs) == 0;
    Meaning(DEFAULT_UNIT_MAP, qs);
    assert QuantityValue(DEFAULT_UNIT_MAP, four, 3) == Ok(4.0);
    assert Denote(DEFAULT_UNIT_MAP, qs[1..], 3) == Ok(4.0);
  }

  const Clock: Quantity := Quantity(["5", "12", "05", "02"], false, "", false)
  const OneDay: Quantity := Quantity(["1"], false, "d", false)

  lemma DefaultDay()
    ensures "d" in DEFAULT_UNIT_MAP && DEFAULT_UNIT_MAP["d"] == 86400.0
  {
  }

  lemma MixedWellFormed()
    ensures WellFormed([Clock, OneDay])
    ensures TotalColons([Clock, OneDay]) == 3
  {
    DigitNumeral("5", 5);
    assert DigitsValue("12") == 12;
    DigitNumeral("12", 12);
    assert DigitsValue("05") == 5;
    DigitNumeral("05", 5);
    assert DigitsValue("02") == 2;
    DigitNumeral("02", 2);
    DigitNumeral("1", 1);
    assert WellFormedQuantity(Clock) && WellFormedQuantity(OneDay);
    assert [Clock, OneDay][1..] == [OneDay] && [OneDay][1..] == [];
    assert TotalColons([OneDay]) == 0;
  }

  lemma MixedRender()
    ensures Render([Clock, OneDay]) == "5:12:05:02 1d"
  {
    assert JoinColons(Clock.fields[2..]) == "05:02";
    assert JoinColons(Clock.fields) == "5:12:05:02";
    assert [Clock, OneDay][1..] == [OneDay];
  }

  lemma ClockValue()
    ensures QuantityValue(DEFAULT_UNIT_MAP, Clock, 0) == Ok(475502.0)
  {
    var f := Clock.fields;
    DigitNumeral("5", 5);
    assert DigitsValue("12") == 12;
    DigitNumeral("12", 12);
    assert DigitsValue("05") == 5;
    DigitNumeral("05", 5);
    assert DigitsValue("02") == 2;
    DigitNumeral("02", 2);
    assert ColonSum(f[3..], 3) == 0.0;
    assert ColonSum(f[2..], 2) == 300.0;
    assert ColonSum(f[1..], 1) == 43500.0;
    assert ColonSum(f, 0) == 475500.0;
  }

  /** The docstring's example: "5:12:05:02 1d" is 6 days, 12 hours, 5 minutes and 2 seconds. */
  lemma MixedExample()
    ensures Seconds(DEFAULT_UNIT_MAP, "5:12:05:02 1d") == Ok((6 * DAY + 12 * HOUR + 5 * MINUTE + 2) as real)
  {
    var qs := [Clock, OneDay];
    MixedWellFormed();
    MixedRender();
    Meaning(DEFAULT_UNIT_MAP, qs);
    ClockValue();
    DefaultDay();
    DigitNumeral("1", 1);
    assert QuantityValue(DEFAULT_UNIT_MAP, OneDay, 3) == Ok(86400.0);
    assert qs[1..] == [OneDay] && [OneDay][1..] == [];
    assert Denote(DEFAULT_UNIT_MAP, qs[1..], 3) == Ok(86400.0);
  }

  const TwoWeeks: Quantity := Quantity(["2"], true, "weeks", false)

  lemma TwoWeeksParts()
    ensures WellFormed([TwoWeeks]) && TotalColons([TwoWeeks]) == 0
    ensures Render([TwoWeeks]) == "2 weeks"
    ensures QuantityValue(DEFAULT_UNIT_MAP, TwoWeeks, 3) == Ok(2.0 * WEEK as real)
  {
    DigitNumeral("2", 2);
    assert WellFormedQuantity(TwoWeeks);
    assert LastValue(TwoWeeks.fields) == 2.0;
  }

  /** The module's demo adds a unit worth "2 weeks": the number, a space, then the unit word. */
  lemma TwoWeeksExample()
    ensures Seconds(DEFAULT_UNIT_MAP, "2 weeks") == Ok((2 * WEEK) as real)
  {
    TwoWeeksParts();
    Meaning(DEFAULT_UNIT_MAP, [TwoWeeks]);
    assert Denote(DEFAULT_UNIT_MAP, [TwoWeeks][1..], 3) == Ok(0.0);
  }

  const OneHour: Quantity := Quantity(["1"], false, "h", false)
  const HalfHour: Quantity := Quantity(["30"], false, "m", true)

  lemma Thirty()
    ensures WellFormedNumeral("30") && NumeralValue("30") == 30.0
  {
    assert "30"[1..] == "0" && "0"[1..] == "";
    assert DigitsFrom("0", 3) == 30;
    DigitNumeral("30", 30);
  }

  lemma HourAndHalfWellFormed()
    ensures WellFormed([OneHour, HalfHour]) && TotalColons([OneHour, HalfHour]) == 0
  {
    DigitNumeral("1", 1);
    Thirty();
    assert WellFormedQuantity(OneHour) && WellFormedQuantity(HalfHour);
    assert [OneHour, HalfHour][1..] == [HalfHour] && [HalfHour][1..] == [];
    assert Joins(OneHour, HalfHour);
    assert TotalColons([HalfHour]) == 0;
  }

  lemma HourAndHalfRender()
    ensures Render([OneHour, HalfHour]) == "1h30m"
  {
    assert [OneHour, HalfHour][1..] == [HalfHour];
  }

  lemma HourAndHalfValue()
    ensures Denote(DEFAULT_UNIT_MAP, [OneHour, HalfHour], 3) == Ok((HOUR + 30 * MINUTE) as real)
  {
    DigitNumeral("1", 1);
    Thirty();
    assert QuantityValue(DEFAULT_UNIT_MAP, OneHour, 3) == Ok(HOUR as real);
    assert QuantityValue(DEFAULT_UNIT_MAP, HalfHour, 3) == Ok(30.0 * MINUTE as real);
    assert [OneHour, HalfHour][1..] == [HalfHour] && [HalfHour][1..] == [];
    assert Denote(DEFAULT_UNIT_MAP, [HalfHour], 3) == Ok(30.0 * MINUTE as real);
  }

  /** A unit glued to the next number: "1h30m" is an hour and a half. */
  lemma HourAndHalfExample()
    ensures Seconds(DEFAULT_UNIT_MAP, "1h30m") == Ok((HOUR + 30 * MINUTE) as real)
  {
    HourAndHalfWellFormed();
    HourAndHalfRender();
    HourAndHalfValue();
    Meaning(DEFAULT_UNIT_MAP, [OneHour, HalfHour]);
  }

  /** get_seconds lower-cases its input first, so case never matters. */
  lemma {:induction false} IgnoresCase(units: map<string, real>, s: string)
    ensures Seconds(units, s) == Seconds(units, Lower(s))
  {
    CountLower(s, ':');
    LowerIdempotent(s);
  }

  /** A unit added under a lower-case name is usable at once: "1" followed by it is worth its value. */
  lemma {:induction false} AddedUnitUsable(units: map<string, real>, name: string, v: real)
    requires |name| > 0 && LowerWord(name)
    ensures Seconds(units[name := v], "1" + name) == Ok(v)
  {
    var q := Quantity(["1"], false, name, false);
    var table := units[name := v];
    DigitNumeral("1", 1);
    assert WellFormedQuantity(q);
    assert Render([q]) == "1" + name;
    assert TotalColons([q]) == 0;
    Meaning(table, [q]);
    assert QuantityValue(table, q, 3) == Ok(Scale(1.0, v));
    assert Denote(table, [q][1..], 3) == Ok(0.0);
  }

  /** One iteration moves the colon index by at most the one colon it reads. */
  lemma {:induction false} StepColonRange(units: map<string, real>, st: Scanner, c: char)
    requires -|COLONS| <= st.colon && st.colon + (if c == ':' then 1 else 0) < |COLONS|
    ensures Step(units, st, c).Err? ==> !Step(units, st, c).error.ColonIndex?
    ensures Step(units, st, c).Ok? ==>
      st.colon <= Step(units, st, c).value.colon <= st.colon + (if c == ':' then 1 else 0)
  {
  }

  lemma {:induction false} StepsColonRange(units: map<string, real>, st: Scanner, s: string)
    requires -|COLONS| <= st.colon && st.colon + Count(s, ':') < |COLONS|
    ensures Steps(units, st, s).Err? ==> !Steps(units, st, s).error.ColonIndex?
    decreases |s|
  {
    if s != [] {
      StepColonRange(units, st, s[0]);
      var r := Step(units, st, s[0]);
      if r.Ok? {
        StepsColonRange(units, r.value, s[1..]);
      }
    }
  }

  /**
   * The colon count checked before the loop keeps colons[colon] in range:
   * get_seconds never raises IndexError.
   */
  lemma {:induction false} NoColonIndex(units: map<string, real>, s: string)
    ensures Seconds(units, s).Err? ==> !Seconds(units, s).error.ColonIndex?
  {
    var k := Count(s, ':');
    if k <= |COLONS| {
      CountLower(s, ':');
      StepsColonRange(units, Initial(k), Lower(s));
    }
  }
}
