/**
 * What parse_size and human_size promise: parse_size skips everything before
 * the first digit and never feeds float() a malformed number, a prefix scales
 * by its power, bits round up to bytes; human_size shows a number between 1
 * and the table's step, and what it prints parses back to the same size.
 */
module SizeProperties {
  import opened Results
  import opened Text
  import opened Size

  // The accumulator is always a numeral float() accepts.

  /** The shape of parse_size's loop state: digits first, at most one dot, and dp says whether it was taken. */
  predicate ScanShape(st: SizeScan)
  {
    if st.acc == [] then !st.dp && st.prefix == []
    else IsDigit(st.acc[0]) && NumeralChars(st.acc) && Count(st.acc, '.') == (if st.dp then 1 else 0)
  }

  lemma {:induction false} AppendChar(acc: string, c: char)
    requires |acc| > 0 && IsDigit(acc[0]) && NumeralChars(acc) && NumeralChar(c)
    ensures (acc + [c])[0] == acc[0] && NumeralChars(acc + [c])
    ensures Count(acc + [c], '.') == Count(acc, '.') + (if c == '.' then 1 else 0)
  {
    CountAppend(acc, [c], '.');
    assert [c][1..] == [];
    assert forall i :: 0 <= i < |acc + [c]| ==> (acc + [c])[i] == if i < |acc| then acc[i] else c;
  }

  lemma {:induction false} ScanCharShape(st: SizeScan, c: char)
    requires ScanShape(st)
    ensures ScanChar(st, c).Some? ==> ScanShape(ScanChar(st, c).value)
  {
    if st.prefix == [] && st.acc != [] && (IsDigit(c) || (c == '.' && !st.dp)) {
      AppendChar(st.acc, c);
    } else if st.prefix == [] && IsDigit(c) {
      assert [c][0] == c && Count([c], '.') == 0;
    }
  }

  lemma {:induction false} ScanFromShape(st: SizeScan, s: string)
    requires ScanShape(st)
    ensures ScanShape(ScanFrom(st, s))
    decreases |s|
  {
    if s != [] {
      ScanCharShape(st, s[0]);
      match ScanChar(st, s[0]) {
        case None =>
        case Some(next) => ScanFromShape(next, s[1..]);
      }
    }
  }

  /** float(accumulator) in parse_size never raises: the accumulator is empty or a well-formed numeral. */
  lemma {:induction false} FloatNeverRaises(s: string)
    ensures ScanFrom(Start, s).acc == [] || WellFormedNumeral(ScanFrom(Start, s).acc)
  {
    ScanFromShape(Start, s);
    var acc := ScanFrom(Start, s).acc;
    if acc != [] {
      assert IsDigit(acc[0]);
    }
  }

  // Everything before the first digit is skipped.

  predicate DigitFree(s: string) { forall i :: 0 <= i < |s| ==> !IsDigit(s[i]) }

  lemma {:induction false} SkipDigitFree(p: string, s: string)
    requires DigitFree(p)
    ensures ScanFrom(Start, p + s) == ScanFrom(Start, s)
    decreases |p|
  {
    if p != [] {
      assert (p + s)[0] == p[0] && (p + s)[1..] == p[1..] + s;
      assert ScanChar(Start, p[0]) == Some(Start);
      SkipDigitFree(p[1..], s);
    } else {
      assert p + s == s;
    }
  }

  /** parse_size skips every character before the first digit, '-' and '.' included. */
  lemma {:induction false} SkipsLeading(p: string, s: string)
    requires DigitFree(p)
    ensures ParsedSize(p + s) == ParsedSize(s)
  {
    SkipDigitFree(p, s);
  }

  /** A string without digits is worth 0 bytes. */
  lemma {:induction false} NoDigitsZero(s: string)
    requires DigitFree(s)
    ensures ParsedSize(s) == 0
  {
    SkipDigitFree(s, []);
    assert s + [] == s;
    assert Marker("") == ("", BYTES);
    assert Multiplier("") == None;
  }

  // The pieces of a size string, scanned.

  lemma {:induction false} ScanDigits(st: SizeScan, d: string, s: string)
    requires st.prefix == [] && AllDigits(d)
    ensures ScanFrom(st, d + s) == ScanFrom(st.(acc := st.acc + d), s)
    decreases |d|
  {
    if d == [] {
      assert d + s == s && st.acc + d == st.acc;
    } else {
      assert (d + s)[0] == d[0] && (d + s)[1..] == d[1..] + s;
      assert IsDigit(d[0]);
      ScanDigits(st.(acc := st.acc + [d[0]]), d[1..], s);
      assert st.acc + [d[0]] + d[1..] == st.acc + d;
    }
  }

  /** Once the prefix has started, letters extend it and the first non-letter ends the scan. */
  lemma {:induction false} ScanWord(st: SizeScan, w: string, s: string)
    requires st.prefix != [] && forall i :: 0 <= i < |w| ==> IsAlpha(w[i])
    requires s == [] || !IsAlpha(s[0])
    ensures ScanFrom(st, w + s) == st.(prefix := st.prefix + w)
    decreases |w|
  {
    if w == [] {
      assert w + s == s && st.prefix + w == st.prefix;
    } else {
      assert (w + s)[0] == w[0] && (w + s)[1..] == w[1..] + s;
      ScanWord(st.(prefix := st.prefix + [w[0]]), w[1..], s);
      assert st.prefix + [w[0]] + w[1..] == st.prefix + w;
    }
  }

  predicate Word(w: string) { |w| > 0 && forall i :: 0 <= i < |w| ==> IsAlpha(w[i]) }

  lemma {:induction false} WordStarts(st: SizeScan, w: string, s: string)
    requires st.prefix == [] && st.acc != [] && Word(w) && (s == [] || !IsAlpha(s[0]))
    ensures ScanFrom(st, w + s) == st.(prefix := w)
  {
    var u := w + s;
    assert u[0] == w[0] && u[1..] == w[1..] + s;
    assert IsAlpha(w[0]);
    assert ScanChar(st, w[0]) == Some(st.(prefix := [w[0]]));
    ScanWord(st.(prefix := [w[0]]), w[1..], s);
    assert [w[0]] + w[1..] == w;
  }

  /** Whitespace between the number and the prefix is skipped. */
  lemma {:induction false} SpaceThenWord(st: SizeScan, w: string, s: string)
    requires st.prefix == [] && st.acc != [] && Word(w) && (s == [] || !IsAlpha(s[0]))
    ensures ScanFrom(st, " " + (w + s)) == st.(prefix := w)
  {
    var t := " " + (w + s);
    assert t[0] == ' ' && t[1..] == w + s;
    assert ScanChar(st, ' ') == Some(st);
    WordStarts(st, w, s);
  }

  /**
   * A number, one space and a word: the number is the accumulator and the word
   * the prefix, whatever follows the word's first non-letter.
   */
  lemma {:induction false} ScanNumberWord(num: string, w: string, s: string)
    requires |num| > 0 && IsDigit(num[0]) && NumeralChars(num) && Count(num, '.') <= 1
    requires Word(w) && (s == [] || !IsAlpha(s[0]))
    ensures ScanFrom(Start, num + " " + w + s) == SizeScan(num, Count(num, '.') == 1, w)
  {
    var t := " " + (w + s);
    var st := SizeScan(num, Count(num, '.') == 1, "");
    assert num + " " + w + s == num + t;
    NumberFromStart(num, t);
    SpaceThenWord(st, w, s);
  }

  /** From the start state, a numeral is read whole into the accumulator. */
  lemma {:induction false} NumberFromStart(num: string, t: string)
    requires |num| > 0 && IsDigit(num[0]) && NumeralChars(num) && Count(num, '.') <= 1
    ensures ScanFrom(Start, num + t) == ScanFrom(SizeScan(num, Count(num, '.') == 1, ""), t)
  {
    ScanNumeral(Start, num, t);
    assert Start.acc + num == num;
  }

  lemma {:induction false} ScanNumeral(st: SizeScan, num: string, s: string)
    requires st.prefix == [] && !st.dp && (st.acc == [] ==> |num| > 0 && IsDigit(num[0]))
    requires NumeralChars(num) && Count(num, '.') <= 1
    ensures ScanFrom(st, num + s) == ScanFrom(SizeScan(st.acc + num, Count(num, '.') == 1, ""), s)
    decreases |num|
  {
    if num == [] {
      assert num + s == s && st.acc + num == st.acc;
    } else {
      var c := num[0];
      assert (num + s)[0] == c && (num + s)[1..] == num[1..] + s;
      assert NumeralChar(c);
      var next := st.(acc := st.acc + [c], dp := c == '.');
      assert ScanChar(st, c) == Some(next);
      assert Count(num, '.') == (if c == '.' then 1 else 0) + Count(num[1..], '.');
      assert st.acc + [c] + num[1..] == st.acc + num;
      if c == '.' {
        assert Count(num[1..], '.') == 0;
        ScanAfterDot(next, num[1..], s);
      } else {
        ScanNumeral(next, num[1..], s);
      }
    }
  }

  lemma {:induction false} ScanAfterDot(st: SizeScan, num: string, s: string)
    requires st.prefix == [] && st.dp && st.acc != [] && NumeralChars(num) && Count(num, '.') == 0
    ensures ScanFrom(st, num + s) == ScanFrom(SizeScan(st.acc + num, true, ""), s)
    decreases |num|
  {
    if num == [] {
      assert num + s == s && st.acc + num == st.acc;
    } else {
      var c := num[0];
      assert (num + s)[0] == c && (num + s)[1..] == num[1..] + s;
      assert NumeralChar(c) && c != '.';
      ScanAfterDot(st.(acc := st.acc + [c]), num[1..], s);
      assert st.acc + [c] + num[1..] == st.acc + num;
    }
  }

  // What the scanned number and prefix are worth.

  /** Scaling a whole number by a whole factor stays whole. */
  lemma {:induction false} TimesWhole(a: nat, b: nat)
    ensures Times(a as real, b) == (a * b) as real
  {
    assert (a as real) * (b as real) == (a * b) as real;
  }

  /** The number n written out, one space, then the word w (a prefix with or without a marker). */
  lemma {:induction false} ParseNumberWord(n: nat, w: string)
    requires Word(w)
    ensures ParsedSize(NatToDigits(n) + " " + w) == Interpret(SizeScan(NatToDigits(n), false, w))
    ensures |NatToDigits(n)| > 0 && NumeralValue(NatToDigits(n)) == n as real
  {
    var d := NatToDigits(n);
    NatToDigitsRoundTrip(n);
    IntegerNumeral(d);
    assert IsDigit(d[0]);
    forall i | 0 <= i < |d| ensures NumeralChar(d[i]) && d[i] != '.' {
      assert IsDigit(d[i]);
    }
    assert Count(d, '.') == 0;
    ScanNumberWord(d, w, []);
    assert d + " " + w + [] == d + " " + w;
  }

  /** A scanned number worth n with a known prefix: n times the multiplier, floored, bits rounded up. */
  lemma {:induction false} InterpretScaled(acc: string, dp: bool, w: string, n: nat, m: nat)
    requires |acc| > 0 && NumeralValue(acc) == n as real && Multiplier(Marker(w).0) == Some(m)
    ensures Interpret(SizeScan(acc, dp, w)) == if Marker(w).1 == BITS then BitsToBytes(n * m) else n * m
  {
    TimesWhole(n, m);
  }

  /** A scanned number worth n with no known prefix: n, bits rounded up. */
  lemma {:induction false} InterpretUnscaled(acc: string, dp: bool, w: string, n: nat)
    requires |acc| > 0 && NumeralValue(acc) == n as real && Multiplier(Marker(w).0) == None
    ensures Interpret(SizeScan(acc, dp, w)) == if Marker(w).1 == BITS then BitsToBytes(n) else n
  {
  }

  /** A numeral as parse_size reads it whole: a leading digit, then digits and at most one dot. */
  predicate Decimal(num: string)
  {
    |num| > 0 && IsDigit(num[0]) && NumeralChars(num) && Count(num, '.') <= 1
  }

  /**
   * "num w" where w names a known prefix worth m: the numeral's exact value
   * times m, truncated to a whole number by int(), bits rounded up.
   */
  lemma {:induction false} ParseScaled(num: string, w: string, m: nat)
    requires Decimal(num) && Word(w) && Multiplier(Marker(w).0) == Some(m)
    ensures var whole := Times(NumeralValue(num), m).Floor;
      ParsedSize(num + " " + w) == if Marker(w).1 == BITS then BitsToBytes(whole) else whole
  {
    ScanNumberWord(num, w, []);
    assert num + " " + w + [] == num + " " + w;
    assert ParsedSize(num + " " + w) == Interpret(SizeScan(num, Count(num, '.') == 1, w));
  }

  /** "num w" where w names no known prefix: the numeral's value truncated, bits rounded up. */
  lemma {:induction false} ParseUnscaled(num: string, w: string)
    requires Decimal(num) && Word(w) && Multiplier(Marker(w).0) == None
    ensures var whole := NumeralValue(num).Floor;
      ParsedSize(num + " " + w) == if Marker(w).1 == BITS then BitsToBytes(whole) else whole
  {
    ScanNumberWord(num, w, []);
    assert num + " " + w + [] == num + " " + w;
    assert ParsedSize(num + " " + w) == Interpret(SizeScan(num, Count(num, '.') == 1, w));
  }

  /** "n w" for a whole number n and a known prefix worth m: n times m, bits rounded up. */
  lemma {:induction false} WholeScaled(n: nat, w: string, m: nat)
    requires Word(w) && Multiplier(Marker(w).0) == Some(m)
    ensures ParsedSize(NatToDigits(n) + " " + w) == if Marker(w).1 == BITS then BitsToBytes(n * m) else n * m
  {
    ParseNumberWord(n, w);
    InterpretScaled(NatToDigits(n), false, w, n, m);
  }

  /** "n w" for a whole number n and no known prefix: n, bits rounded up. */
  lemma {:induction false} WholeUnscaled(n: nat, w: string)
    requires Word(w) && Multiplier(Marker(w).0) == None
    ensures ParsedSize(NatToDigits(n) + " " + w) == if Marker(w).1 == BITS then BitsToBytes(n) else n
  {
    ParseNumberWord(n, w);
    InterpretUnscaled(NatToDigits(n), false, w, n);
  }

  /** "125.2" is a numeral worth 125.2. */
  lemma DocumentedNumeral()
    ensures Decimal("125.2") && NumeralValue("125.2") == 125.2
  {
    assert "125.2"[1..] == "25.2" && "25.2"[1..] == "5.2" && "5.2"[1..] == ".2" && ".2"[1..] == "2" && "2"[1..] == [];
    assert Count("125.2", '.') == 1;
    assert FractionValue("2") == 0.2;
    assert WholeFrom(".2", 125) == 125.2;
    assert WholeFrom("5.2", 12) == WholeFrom(".2", 125);
    assert WholeFrom("25.2", 1) == WholeFrom("5.2", 12);
    assert WholeFrom("125.2", 0) == WholeFrom("25.2", 1);
  }

  /** "2.5" is a numeral worth 2.5. */
  lemma HalfNumeral()
    ensures Decimal("2.5") && NumeralValue("2.5") == 2.5
  {
    assert "2.5"[1..] == ".5" && ".5"[1..] == "5" && "5"[1..] == [];
    assert Count("2.5", '.') == 1;
  }

  /** "K" is a word that scales by 1024 and marks bytes. */
  lemma KiloWord()
    ensures Word("K") && Multiplier(Marker("K").0) == Some(1024) && Marker("K").1 == BYTES
  {
    assert Marker("K") == ("K", BYTES);
    KibiKilo();
  }

  /** "B" is a word that only marks bytes. */
  lemma BytesWord()
    ensures Word("B") && Multiplier(Marker("B").0) == None && Marker("B").1 == BYTES
  {
    MarkerOf("", 'B');
    assert "" + ['B'] == "B";
    NoEmptyPrefix();
  }

  /** The documented "125.2 K": 125.2 * 1024 = 128204.8 bytes, truncated to 128204. */
  lemma FractionalKibi()
    ensures ParsedSize("125.2" + " " + "K") == 128204
  {
    DocumentedNumeral();
    KiloWord();
    ParseScaled("125.2", "K", 1024);
    DocumentedProduct();
  }

  lemma DocumentedProduct()
    ensures Times(125.2, 1024).Floor == 128204
  {
    assert Times(125.2, 1024) == 128204.8;
  }

  /** A fraction of a byte is dropped: "2.5 B" is 2 bytes. */
  lemma UnscaledTruncates()
    ensures ParsedSize("2.5" + " " + "B") == 2
  {
    HalfNumeral();
    BytesWord();
    ParseUnscaled("2.5", "B");
  }

  lemma {:induction false} MarkerOf(p: string, m: char)
    requires m == 'b' || m == 'B' || m == 'o'
    ensures Marker(p + [m]) == (p, if m == 'b' then BITS else BYTES)
  {
    assert (p + [m])[..|p|] == p;
  }

  predicate StandardTable(t: Table) { t == IEC || t == SI }

  lemma StandardBase()
    ensures Base(IEC) == 2 && Base(SI) == 10
  {
    assert Lookup(IEC, "Ki") == Some(10);
    assert Lookup(SI, "Ki") == None by { SiNames(); }
    DictLookup(IEC, "Ki");
    DictLookup(SI, "Ki");
  }

  /** The dict of a table answers every lookup as the table does. */
  lemma {:induction false} DictLookup(t: Table, key: string)
    ensures Lookup(t, key) == if key in Dict(t) then Some(Dict(t)[key]) else None
  {
    if t != [] {
      DictLookup(t[1..], key);
    }
  }

  lemma {:induction false} SameDictAt(a: Table, b: Table, key: string)
    requires Dict(a) == Dict(b)
    ensures Lookup(a, key) == Lookup(b, key)
  {
    DictLookup(a, key);
    DictLookup(b, key);
  }

  lemma {:induction false} EqualDicts(a: Table, b: Table)
    requires forall key :: Lookup(a, key) == Lookup(b, key)
    ensures Dict(a) == Dict(b)
  {
    forall key
      ensures (key in Dict(a) <==> key in Dict(b)) && (key in Dict(a) ==> Dict(a)[key] == Dict(b)[key])
    {
      DictLookup(a, key);
      DictLookup(b, key);
      assert Lookup(a, key) == Lookup(b, key);
    }
    assert Dict(a).Keys == Dict(b).Keys;
  }

  /** Two tables denote the same dict exactly when they answer every lookup alike. */
  lemma {:induction false} SameDict(a: Table, b: Table)
    ensures Dict(a) == Dict(b) <==> forall key :: Lookup(a, key) == Lookup(b, key)
  {
    if forall key :: Lookup(a, key) == Lookup(b, key) {
      EqualDicts(a, b);
    } else {
      var key :| Lookup(a, key) != Lookup(b, key);
      if Dict(a) == Dict(b) {
        SameDictAt(a, b, key);
      }
    }
  }

  /** The base depends only on the table's contents: base 10 exactly when every name reads as in SI. */
  lemma {:induction false} BaseByContents(t: Table)
    ensures Base(t) == 10 <==> forall key :: Lookup(t, key) == Lookup(SI, key)
    ensures Base(t) == 2 <==> exists key :: Lookup(t, key) != Lookup(SI, key)
  {
    SameDict(t, SI);
  }

  /** SI with its first two entries swapped is still SI: base 10. */
  lemma SwappedSi()
    ensures Base([SI[1], SI[0]] + SI[2..]) == 10
  {
    var t := [SI[1], SI[0]] + SI[2..];
    forall key ensures Lookup(t, key) == Lookup(SI, key) {
      assert t[1..] == [SI[0]] + SI[2..] && t[1..][1..] == SI[2..] && SI[1..][1..] == SI[2..];
    }
    BaseByContents(t);
  }

  lemma IecNames()
    ensures forall j :: 0 <= j < |IEC| ==> |IEC[j].0| == 2 && IsAlpha(IEC[j].0[0]) && IsAlpha(IEC[j].0[1])
  {
  }

  lemma SiNames()
    ensures forall j :: 0 <= j < |SI| ==> |SI[j].0| == 1 && IsAlpha(SI[j].0[0]) && SI[j].0 != "K"
  {
  }

  /** Every IEC prefix is a word other than K, and parse_size scales it by its power of 2. */
  lemma {:induction false} IecMultiplier(f: string)
    requires Lookup(IEC, f).Some?
    ensures Word(f) && f != "K"
    ensures Multiplier(f) == Some(Pow(2, Lookup(IEC, f).value))
  {
    IecNames();
    var j :| 0 <= j < |IEC| && IEC[j].0 == f;
    assert |f| == 2;
  }

  /** Every SI prefix is a word other than K, absent from the IEC table, and parse_size scales it by its power of 10. */
  lemma {:induction false} SiMultiplier(f: string)
    requires Lookup(SI, f).Some?
    ensures Word(f) && f != "K"
    ensures Multiplier(f) == Some(Pow(10, Lookup(SI, f).value))
  {
    IecNames();
    SiNames();
    var j :| 0 <= j < |SI| && SI[j].0 == f;
    assert |f| == 1;
    assert Lookup(IEC, f) == None;
  }

  lemma {:induction false} StandardMultiplier(t: Table, f: string)
    requires StandardTable(t) && Lookup(t, f).Some?
    ensures Word(f) && f != "K"
    ensures Multiplier(f) == Some(Pow(Base(t), Lookup(t, f).value))
  {
    StandardBase();
    if t == IEC { IecMultiplier(f); } else { SiMultiplier(f); }
  }

  lemma KibiKilo()
    ensures Multiplier("K") == Some(1024) && Multiplier("Ki") == Some(1024) && Multiplier("k") == Some(1000)
  {
    assert Lookup(IEC, "Ki") == Some(10);
    assert Lookup(IEC, "k") == None by { IecNames(); }
    assert Lookup(SI, "k") == Some(3);
  }

  lemma NoEmptyPrefix()
    ensures Multiplier("") == None
  {
    IecNames();
    SiNames();
  }

  /** "n K": a capital K is read as Ki, 1024. */
  lemma {:induction false} CapitalK(n: nat)
    ensures ParsedSize(NatToDigits(n) + " K") == n * 1024
  {
    var d := NatToDigits(n);
    assert d + " K" == d + " " + "K";
    assert Marker("K") == ("K", BYTES);
    KibiKilo();
    WholeScaled(n, "K", 1024);
  }

  /** "n kB": SI kilo is 1000; the B marker is stripped. */
  lemma {:induction false} Kilo(n: nat)
    ensures ParsedSize(NatToDigits(n) + " kB") == n * 1000
  {
    var d := NatToDigits(n);
    assert d + " kB" == d + " " + "kB";
    MarkerOf("k", 'B');
    assert "k" + ['B'] == "kB";
    KibiKilo();
    WholeScaled(n, "kB", 1000);
  }

  /** "n KiB": IEC kibi is 1024. */
  lemma {:induction false} Kibi(n: nat)
    ensures ParsedSize(NatToDigits(n) + " KiB") == n * 1024
  {
    var d := NatToDigits(n);
    assert d + " KiB" == d + " " + "KiB";
    MarkerOf("Ki", 'B');
    assert "Ki" + ['B'] == "KiB";
    KibiKilo();
    WholeScaled(n, "KiB", 1024);
  }

  /** Rounding bits up to whole bytes is the ceiling of n / 8. */
  lemma {:induction false} BitsCeiling(n: nat)
    ensures BitsToBytes(n) == (n + 7) / 8
  {
  }

  /** "n b": a trailing b means bits, rounded up to whole bytes. */
  lemma {:induction false} BitsRoundUp(n: nat)
    ensures ParsedSize(NatToDigits(n) + " b") == (n + 7) / 8
  {
    var d := NatToDigits(n);
    assert d + " b" == d + " " + "b";
    MarkerOf("", 'b');
    assert "" + ['b'] == "b";
    NoEmptyPrefix();
    WholeUnscaled(n, "b");
    BitsCeiling(n);
  }

  /** An unknown prefix is neither an error nor a scale: the number stands as bytes. */
  lemma {:induction false} UnknownPrefix(n: nat, w: string)
    requires Word(w) && Multiplier(w) == None
    requires w[|w| - 1] != 'b' && w[|w| - 1] != 'B' && w[|w| - 1] != 'o'
    ensures ParsedSize(NatToDigits(n) + " " + w) == n
  {
    WholeUnscaled(n, w);
  }
}
