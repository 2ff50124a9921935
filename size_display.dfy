/**
 * What human_size shows: the forced prefix rules, the bounds the automatic
 * prefix keeps, and the round trip of its output back through parse_size.
 */
module SizeDisplay {
  import opened Results
  import opened Text
  import opened Size
  import opened SizeProperties

  // Forced prefixes

  /** force="" shows base units; a table entry fixes prefix and divisor; any other prefix is a ValueError. */
  lemma {:induction false} ForceCases(size: int, t: Table, unit: int, f: string)
    ensures f == "" ==> Human(size, t, unit, Some(f)) == Ok(Friendly(if unit == BITS then Exact(size * unit) else Ratio(size * unit, 1), " " + Suffix(unit)))
    ensures Human(size, t, unit, Some(f)).Err? <==> f != "" && Lookup(t, f).None?
    ensures Human(size, t, unit, Some(f)).Err? ==> Human(size, t, unit, Some(f)).error == NoMatchingPrefix(f)
    ensures f != "" && Lookup(t, f).Some? ==>
      Human(size, t, unit, Some(f)) == Ok(Friendly(Ratio(size * unit, Pow(Base(t), Lookup(t, f).value)), " " + f + Suffix(unit)))
  {
    assert " " + "" + Suffix(unit) == " " + Suffix(unit);
  }

  // The automatic prefix

  /** The first entry from i on whose exponent the size is below, or |t| if there is none. */
  function FirstBelow(t: Table, base: nat, size: int, i: nat): (k: nat)
    requires i <= |t|
    ensures i <= k <= |t|
    ensures forall j :: i <= j < k ==> !Below(size, base, t[j].1)
    ensures k < |t| ==> Below(size, base, t[k].1)
    decreases |t| - i
  {
    if i == |t| || Below(size, base, t[i].1) then i else FirstBelow(t, base, size, i + 1)
  }

  lemma {:induction false} AutoScanFirst(t: Table, base: nat, size: int, i: nat, p: string, d: nat)
    requires i <= |t|
    ensures var k := FirstBelow(t, base, size, i);
      AutoScan(t, base, size, i, p, d) == if k == i then (p, d) else (t[k - 1].0, Pow(base, t[k - 1].1))
    decreases |t| - i
  {
    if i < |t| && !Below(size, base, t[i].1) {
      AutoScanFirst(t, base, size, i + 1, t[i].0, Pow(base, t[i].1));
    }
  }

  lemma IecNamed()
    ensures forall j :: 0 <= j < |IEC| ==> IEC[j].0 != "" && IEC[j].1 > 1
  {
  }

  lemma SiNamed()
    ensures forall j :: 0 <= j < |SI| ==> SI[j].0 != "" && SI[j].1 > 1
  {
  }

  /** A table whose entries all have a name and an exponent above 1, as IEC and SI do. */
  predicate Named(t: Table)
  {
    |t| > 0 && forall j :: 0 <= j < |t| ==> t[j].0 != "" && t[j].1 > 1
  }

  lemma StandardNamed(t: Table)
    requires StandardTable(t)
    ensures Named(t)
  {
    IecNamed();
    SiNamed();
  }

  /**
   * For a positive size, the automatic prefix is the last entry whose power
   * does not exceed the size: no prefix below the first power, and otherwise
   * a divisor d with d <= size < the next entry's power.
   */
  lemma {:induction false} AutoBounds(t: Table, size: int)
    requires Named(t) && size > 0
    ensures AutoPrefix(t, size).0 == "" <==> size < Pow(Base(t), t[0].1)
    ensures AutoPrefix(t, size).0 == "" ==> AutoPrefix(t, size).1 == 1
    ensures AutoPrefix(t, size).0 != "" ==>
      exists j :: 0 <= j < |t| && t[j].0 == AutoPrefix(t, size).0 &&
        AutoPrefix(t, size).1 == Pow(Base(t), t[j].1) && AutoPrefix(t, size).1 <= size &&
        (j + 1 < |t| ==> size < Pow(Base(t), t[j + 1].1))
  {
    var base := Base(t);
    var k := FirstBelow(t, base, size, 0);
    AutoScanFirst(t, base, size, 0, "", 1);
    var r := AutoPrefix(t, size);
    if k > 0 {
      assert !Below(size, base, t[k - 1].1);
      assert !Below(size, base, t[0].1);
      assert r == (t[k - 1].0, Pow(base, t[k - 1].1));
      assert r.0 != "";
    } else {
      assert r == ("", 1);
    }
  }

  /** A size of zero or less is always shown in base units. */
  lemma {:induction false} NonPositiveUnscaled(t: Table, size: int)
    requires Named(t) && size <= 0
    ensures AutoPrefix(t, size) == ("", 1)
  {
    AutoScanFirst(t, Base(t), size, 0, "", 1);
    assert Below(size, Base(t), t[0].1);
  }

  // Round trips through parse_size

  /** parse_size reads "q.0 w", Python's str() of an integral float q followed by a word. */
  lemma {:induction false} ParsePointZero(q: nat, w: string)
    requires Word(w)
    ensures ParsedSize(NatToDigits(q) + ".0" + " " + w) == Interpret(SizeScan(NatToDigits(q) + ".0", true, w))
    ensures NumeralValue(NatToDigits(q) + ".0") == q as real
  {
    var d := NatToDigits(q);
    var num := d + ".0";
    NatToDigitsRoundTrip(q);
    PointZero(d);
    forall i | 0 <= i < |d| ensures NumeralChar(d[i]) && d[i] != '.' {
      assert IsDigit(d[i]);
    }
    assert Count(d, '.') == 0;
    assert Count(".0", '.') == 1 by {
      assert ".0"[1..] == "0" && "0"[1..] == [];
    }
    CountAppend(d, ".0", '.');
    assert num[0] == d[0] && IsDigit(d[0]);
    forall i | 0 <= i < |num| ensures NumeralChar(num[i]) {
      if i >= |d| {
        assert num[i] == ".0"[i - |d|];
      }
    }
    ScanNumberWord(num, w, []);
    assert num + " " + w + [] == num + " " + w;
  }

  lemma {:induction false} SuffixMarker(f: string, unit: int)
    requires unit == BYTES || unit == BITS
    ensures Marker(f + Suffix(unit)) == (f, unit)
    ensures Word(f) ==> Word(f + Suffix(unit))
  {
    MarkerOf(f, Suffix(unit)[0]);
    assert Suffix(unit) == [Suffix(unit)[0]];
  }

  /**
   * A forced standard prefix whose divisor divides size*unit exactly is shown
   * as "q.0 <prefix><suffix>", and parse_size reads that text back as size.
   */
  lemma {:induction false} ForcedRoundTrip(t: Table, f: string, unit: int, size: nat, q: nat)
    requires StandardTable(t) && Lookup(t, f).Some? && (unit == BYTES || unit == BITS)
    requires size * unit == q * Pow(Base(t), Lookup(t, f).value)
    ensures Human(size, t, unit, Some(f)) == Ok(Friendly(Ratio(size * unit, Pow(Base(t), Lookup(t, f).value)), " " + f + Suffix(unit)))
    ensures ParsedSize(NatToDigits(q) + ".0" + " " + (f + Suffix(unit))) == size
  {
    var m := Pow(Base(t), Lookup(t, f).value);
    StandardMultiplier(t, f);
    ForceCases(size, t, unit, f);
    var w := f + Suffix(unit);
    SuffixMarker(f, unit);
    ParsePointZero(q, w);
    InterpretScaled(NatToDigits(q) + ".0", true, w, q, m);
    if unit == BITS {
      BitsCeiling(size * 8);
    }
  }

  /** force="" with bits shows the exact bit count with " b"; parse_size reads it back as size. */
  lemma {:induction false} BitsRoundTrip(t: Table, size: nat)
    ensures Human(size, t, BITS, Some("")) == Ok(Friendly(Exact(size * 8), " b"))
    ensures ParsedSize(NatToDigits(size * 8) + " b") == size
  {
    ForceCases(size, t, BITS, "");
    assert " " + Suffix(BITS) == " b";
    BitsRoundUp(size * 8);
  }

  /** force="" with bytes shows "size.0 B". */
  lemma {:induction false} BytesShown(t: Table, size: nat)
    ensures Human(size, t, BYTES, Some("")) == Ok(Friendly(Ratio(size, 1), " B"))
  {
    ForceCases(size, t, BYTES, "");
    assert " " + Suffix(BYTES) == " B";
  }

  /** parse_size reads "size.0 B" back as size. */
  lemma {:induction false} BytesRoundTrip(size: nat)
    ensures ParsedSize(NatToDigits(size) + ".0" + " " + "B") == size
  {
    SuffixMarker("", BYTES);
    assert "" + Suffix(BYTES) == "B";
    NoEmptyPrefix();
    ParsePointZero(size, "B");
    InterpretUnscaled(NatToDigits(size) + ".0", true, "B", size);
  }

  // The module function human_size

  /**
   * The module function drops force: asked to force base units for 2048 bytes
   * it still picks Ki, where DataSize.human_size shows 2048 B.
   */
  lemma ForceDropped()
    ensures Human(2048, IEC, BYTES, None) == Ok(Friendly(Ratio(2048, 1024), " KiB"))
    ensures Human(2048, IEC, BYTES, Some("")) == Ok(Friendly(Ratio(2048, 1), " B"))
  {
    StandardBase();
    assert Pow(2, 10) == 1024;
    assert Pow(2, 20) == 1048576;
    assert AutoScan(IEC, 2, 2048, 1, "Ki", 1024) == ("Ki", 1024);
    assert AutoPrefix(IEC, 2048) == ("Ki", 1024);
    ForceCases(2048, IEC, BYTES, "");
    ByteCaptions();
  }

  lemma ByteCaptions()
    ensures " " + "" + Suffix(BYTES) == " B" && " " + "Ki" + Suffix(BYTES) == " KiB"
  {
    assert Suffix(BYTES) == "B";
  }
}
