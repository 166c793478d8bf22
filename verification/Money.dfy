/**
 * Amounts of money as text (lib_finance/money.py and payroll.py's `decimal`):
 * an integer of minor units is written with its currency's own number of
 * decimals, and an exact reader takes it back.
 */
module Money {
  import opened Prelude

  /** A currency, by its ISO 4217 code. */
  datatype Currency = Currency(code: string)

  const NO_MINOR_UNIT: set<string> := {"CLP", "ISK", "JPY", "KRW", "VND"}
  const THREE_MINOR_UNITS: set<string> := {"BHD", "JOD", "KWD", "OMR", "TND"}

  /** Digits after the decimal point: two unless listed. */
  function MinorUnits(c: Currency): nat {
    if c.code in NO_MINOR_UNIT then 0
    else if c.code in THREE_MINOR_UNITS then 3
    else 2
  }

  function Pow10(places: nat): nat
    ensures Pow10(places) > 0
  {
    if places == 0 then 1 else 10 * Pow10(places - 1)
  }

  const DIGITS := "0123456789"

  /** `str(n)` for a natural number. */
  function Digits(n: nat): string {
    if n < 10 then [DIGITS[n]] else Digits(n / 10) + [DIGITS[n % 10]]
  }

  /** `str(n)`. */
  function Int(n: int): string {
    if n < 0 then "-" + Digits(-n) else Digits(n)
  }

  /** The format `0{width}d`: zeros on the left up to the width. */
  function Padded(s: string, width: nat): string
    decreases width - |s|
  {
    if |s| < width then Padded("0" + s, width) else s
  }

  /** `divmod(n, 10**places)`, one decimal place at a time (see `DivModLaw`). */
  function DivMod(n: nat, places: nat): (r: (nat, nat)) {
    if places == 0 then (n, 0)
    else
      var (q, r) := DivMod(n / 10, places - 1);
      (q, 10 * r + n % 10)
  }

  /** How an export writes an amount: no symbol, no grouping. */
  function Decimal(amount: int, c: Currency): string {
    Written(amount, MinorUnits(c))
  }

  function Written(amount: int, places: nat): string {
    if places == 0 then Int(amount)
    else
      var sign := if amount < 0 then "-" else "";
      var magnitude: nat := if amount < 0 then -amount else amount;
      var (whole, fraction) := DivMod(magnitude, places);
      sign + Digits(whole) + "." + Padded(Digits(fraction), places)
  }

  // --- An exact reader, defined without reference to the writer ---------------

  predicate AllDigits(s: string) {
    forall i | 0 <= i < |s| :: '0' <= s[i] <= '9'
  }

  /** What a string of digits is worth. */
  function Value(s: string): nat
    requires AllDigits(s)
  {
    if s == "" then 0
    else 10 * Value(s[..|s| - 1]) + (s[|s| - 1] - '0') as nat
  }

  /** Digits, at least one, and no superfluous leading zero. */
  predicate Natural(s: string) {
    |s| > 0 && AllDigits(s) && (s[0] == '0' ==> |s| == 1)
  }

  /** The magnitude a currency with `places` decimals reads from unsigned text. */
  function ReadMagnitude(s: string, places: nat): Option<nat> {
    if places == 0 then
      if Natural(s) then Some(Value(s)) else None
    else
      var point := |s| - places - 1;
      if point < 1 || s[point] != '.' then None
      else
        var whole, fraction := s[..point], s[point + 1..];
        if Natural(whole) && AllDigits(fraction)
        then Some(Value(whole + fraction))
        else None
  }

  /** An amount read back: one optional minus sign, and never minus zero. */
  function ReadDecimal(s: string, c: Currency): Option<int> {
    ReadSigned(s, MinorUnits(c))
  }

  function ReadSigned(s: string, places: nat): Option<int> {
    if |s| > 0 && s[0] == '-' then
      match ReadMagnitude(s[1..], places)
      case Some(n) => if n == 0 then None else Some(-(n as int))
      case None => None
    else
      match ReadMagnitude(s, places)
      case Some(n) => Some(n as int)
      case None => None
  }

  // --- Writing then reading, and reading then writing --------------------------

  lemma DigitIs(d: nat)
    requires d < 10
    ensures '0' <= DIGITS[d] <= '9' && (DIGITS[d] - '0') as nat == d
    ensures DIGITS[d] == '0' + d as char
  {
    assert DIGITS == ['0', '1', '2', '3', '4', '5', '6', '7', '8', '9'];
  }

  lemma ValueAppend(s: string, d: nat)
    requires AllDigits(s) && d < 10
    ensures AllDigits(s + [DIGITS[d]]) && Value(s + [DIGITS[d]]) == 10 * Value(s) + d
  {
    DigitIs(d);
    var t := s + [DIGITS[d]];
    assert t[..|t| - 1] == s;
  }

  lemma LastDigit(s: string) returns (d: nat)
    requires s != "" && AllDigits(s)
    ensures d < 10 && s == s[..|s| - 1] + [DIGITS[d]]
  {
    d := (s[|s| - 1] - '0') as nat;
    DigitIs(d);
  }

  lemma {:induction false} DigitsRead(n: nat)
    ensures Natural(Digits(n)) && Value(Digits(n)) == n
    ensures Digits(n)[0] == '0' ==> n == 0
  {
    DigitIs(n % 10);
    if n < 10 {
      assert Digits(n)[..0] == "";
    } else {
      DigitsRead(n / 10);
      assert Digits(n)[..|Digits(n)| - 1] == Digits(n / 10);
    }
  }

  lemma {:induction false} DigitsWrite(s: string)
    requires Natural(s)
    ensures Digits(Value(s)) == s
    ensures s[0] != '0' ==> Value(s) > 0
  {
    var init, d := s[..|s| - 1], (s[|s| - 1] - '0') as nat;
    DigitIs(d);
    assert s == init + [DIGITS[d]];
    if |s| == 1 {
      assert Value(init) == 0;
    } else {
      DigitsWrite(init);
      assert Value(s) / 10 == Value(init) && Value(s) % 10 == d;
    }
  }

  /** `n` written on exactly `width` digits. */
  ghost function Fixed(n: nat, width: nat): string {
    if width == 0 then "" else Fixed(n / 10, width - 1) + [DIGITS[n % 10]]
  }

  lemma {:induction false} FixedDigits(n: nat, width: nat)
    ensures |Fixed(n, width)| == width && AllDigits(Fixed(n, width))
  {
    if width > 0 {
      DigitIs(n % 10);
      FixedDigits(n / 10, width - 1);
    }
  }

  lemma {:induction false} PaddedAppend(s: string, width: nat, ch: char)
    ensures Padded(s + [ch], width + 1) == Padded(s, width) + [ch]
    decreases width - |s|
  {
    if |s| < width {
      assert "0" + (s + [ch]) == ("0" + s) + [ch];
      PaddedAppend("0" + s, width, ch);
    }
  }

  lemma {:induction false} PaddedIsFixed(n: nat, width: nat)
    requires width > 0 && n < Pow10(width)
    ensures Padded(Digits(n), width) == Fixed(n, width)
  {
    if n >= 10 {
      PaddedIsFixed(n / 10, width - 1);
      PaddedAppend(Digits(n / 10), width - 1, DIGITS[n % 10]);
    } else if width == 1 {
      assert Fixed(n, 1) == [DIGITS[n]];
    } else {
      PaddedIsFixed(0, width - 1);
      ZeroThenDigit(n, width);
    }
  }

  lemma {:induction false} ZeroThenDigit(n: nat, width: nat)
    requires n < 10 && width > 1
    requires Padded(Digits(0), width - 1) == Fixed(0, width - 1)
    ensures Padded(Digits(n), width) == Fixed(n, width)
  {
    PaddedAppend("0", width - 1, DIGITS[n]);
    assert Digits(0) == "0" && Digits(n) == [DIGITS[n]];
    assert "0" + [DIGITS[n]] == "0" + Digits(n);
  }

  /** What `Decimal` writes for an unsigned magnitude. */
  ghost function Magnitude(n: nat, places: nat): string {
    if places == 0 then Digits(n)
    else
      var (whole, fraction) := DivMod(n, places);
      Digits(whole) + "." + Fixed(fraction, places)
  }

  lemma TimesTen(q: nat, p: nat)
    ensures q * (10 * p) == 10 * (q * p)
  {
  }

  lemma {:induction false} DivModLaw(n: nat, places: nat)
    ensures var (q, r) := DivMod(n, places);
            n == q * Pow10(places) + r && r < Pow10(places)
  {
    if places > 0 {
      DivModLaw(n / 10, places - 1);
      var (q, r) := DivMod(n / 10, places - 1);
      var p := Pow10(places - 1);
      TimesTen(q, p);
      assert n == 10 * (n / 10) + n % 10;
    }
  }

  lemma {:induction false} FractionFits(n: nat, places: nat)
    ensures DivMod(n, places).1 < Pow10(places)
  {
    if places > 0 {
      FractionFits(n / 10, places - 1);
    }
  }

  lemma WrittenIsSigned(amount: int, places: nat)
    ensures Written(amount, places) ==
            if amount < 0 then "-" + Magnitude(-amount, places) else Magnitude(amount, places)
  {
    if places > 0 {
      var magnitude: nat := if amount < 0 then -amount else amount;
      var (whole, fraction) := DivMod(magnitude, places);
      FractionFits(magnitude, places);
      PaddedIsFixed(fraction, places);
      var w, f := Digits(whole), Fixed(fraction, places);
      assert "" + w == w && "-" + (w + "." + f) == "-" + w + "." + f;
    }
  }

  /** Without their point, the two parts of a magnitude are the digits of it. */
  lemma {:induction false} PartsRead(n: nat, places: nat)
    ensures var (q, r) := DivMod(n, places);
            var s := Digits(q) + Fixed(r, places);
            AllDigits(s) && Value(s) == n
  {
    var (q, r) := DivMod(n, places);
    DigitsRead(q);
    FixedDigits(r, places);
    var s := Digits(q) + Fixed(r, places);
    if places == 0 {
      assert s == Digits(q);
    } else {
      var (q', r') := DivMod(n / 10, places - 1);
      PartsRead(n / 10, places - 1);
      assert r / 10 == r' && r % 10 == n % 10;
      assert s == Digits(q') + Fixed(r', places - 1) + [DIGITS[n % 10]];
      ValueAppend(Digits(q') + Fixed(r', places - 1), n % 10);
    }
  }

  /** The two parts are the digits of the whole and of the fraction. */
  ghost predicate PartsOf(n: nat, whole: string, fraction: string) {
    whole == Digits(DivMod(n, |fraction|).0) && fraction == Fixed(DivMod(n, |fraction|).1, |fraction|)
  }

  /** One more digit on the right goes to the fraction. */
  lemma PartsAppend(n: nat, whole: string, init: string, d: nat)
    requires d < 10 && PartsOf(n, whole, init)
    ensures PartsOf(10 * n + d, whole, init + [DIGITS[d]])
  {
    assert (10 * n + d) / 10 == n && (10 * n + d) % 10 == d;
    var r := DivMod(n, |init|).1;
    assert (10 * r + d) / 10 == r && (10 * r + d) % 10 == d;
    assert |init + [DIGITS[d]]| == |init| + 1;
  }

  lemma PartsStep(whole: string, init: string, d: nat)
    requires d < 10 && AllDigits(whole + init) && PartsOf(Value(whole + init), whole, init)
    ensures var longer := init + [DIGITS[d]];
            AllDigits(whole + longer) && PartsOf(Value(whole + longer), whole, longer)
  {
    ValueAppend(whole + init, d);
    PartsAppend(Value(whole + init), whole, init, d);
    assert whole + (init + [DIGITS[d]]) == whole + init + [DIGITS[d]];
  }

  lemma {:induction false} PartsWrite(whole: string, fraction: string)
    requires Natural(whole) && AllDigits(fraction)
    ensures AllDigits(whole + fraction) && PartsOf(Value(whole + fraction), whole, fraction)
    decreases |fraction|
  {
    if fraction == "" {
      DigitsWrite(whole);
      assert whole + fraction == whole;
    } else {
      var d := LastDigit(fraction);
      PartsWrite(whole, fraction[..|fraction| - 1]);
      PartsStep(whole, fraction[..|fraction| - 1], d);
    }
  }

  lemma MagnitudeRead(n: nat, places: nat)
    ensures ReadMagnitude(Magnitude(n, places), places) == Some(n)
    ensures |Magnitude(n, places)| > 0 && Magnitude(n, places)[0] != '-'
  {
    var (q, r) := DivMod(n, places);
    DigitsRead(q);
    FixedDigits(r, places);
    PartsRead(n, places);
    if places > 0 {
      var s := Magnitude(n, places);
      assert s[..|s| - places - 1] == Digits(q) && s[|s| - places..] == Fixed(r, places);
    }
  }

  /** Text read with a point is its whole part, the point and its fraction. */
  lemma Pointed(s: string, places: nat, n: nat)
    requires places > 0 && ReadMagnitude(s, places) == Some(n)
    ensures var point := |s| - places - 1;
            && 0 < point && s[point] == '.' && Natural(s[..point]) && AllDigits(s[point + 1..])
            && |s[point + 1..]| == places && n == Value(s[..point] + s[point + 1..])
            && s == s[..point] + "." + s[point + 1..]
  {
    var point := |s| - places - 1;
    assert s == s[..point] + [s[point]] + s[point + 1..];
  }

  lemma PartsMakeMagnitude(n: nat, whole: string, fraction: string)
    requires fraction != "" && PartsOf(n, whole, fraction)
    ensures Magnitude(n, |fraction|) == whole + "." + fraction
  {
  }

  lemma MagnitudeWrite(s: string, places: nat, n: nat)
    requires ReadMagnitude(s, places) == Some(n)
    ensures s == Magnitude(n, places)
  {
    if places == 0 {
      DigitsWrite(s);
    } else {
      Pointed(s, places, n);
      var whole, fraction := s[..|s| - places - 1], s[|s| - places..];
      PartsWrite(whole, fraction);
      PartsMakeMagnitude(n, whole, fraction);
    }
  }

  /**
   * Writing and reading undo each other, for every amount and currency: text
   * reads as an amount exactly when it is what that amount is written as.
   */
  lemma DecimalExact(s: string, amount: int, c: Currency)
    ensures ReadDecimal(s, c) == Some(amount) <==> s == Decimal(amount, c)
  {
    WrittenReads(s, amount, MinorUnits(c));
    ReadsAsWritten(s, amount, MinorUnits(c));
  }

  lemma WrittenReads(s: string, amount: int, places: nat)
    ensures s == Written(amount, places) ==> ReadSigned(s, places) == Some(amount)
  {
    WrittenIsSigned(amount, places);
    SignedReads(if amount < 0 then -amount else amount, amount < 0, places);
  }

  lemma SignedReads(n: nat, negative: bool, places: nat)
    requires negative ==> n > 0
    ensures var s := if negative then "-" + Magnitude(n, places) else Magnitude(n, places);
            ReadSigned(s, places) == Some(if negative then -(n as int) else n as int)
  {
    var m := Magnitude(n, places);
    MagnitudeRead(n, places);
    assert ("-" + m)[1..] == m;
  }

  lemma ReadsAsWritten(s: string, amount: int, places: nat)
    ensures ReadSigned(s, places) == Some(amount) ==> s == Written(amount, places)
  {
    if ReadSigned(s, places) == Some(amount) {
      WrittenIsSigned(amount, places);
      if |s| > 0 && s[0] == '-' {
        NegativeWrites(s, amount, places);
      } else {
        MagnitudeWrite(s, places, amount);
      }
    }
  }

  lemma NegativeWrites(s: string, amount: int, places: nat)
    requires |s| > 0 && s[0] == '-' && ReadSigned(s, places) == Some(amount)
    ensures amount < 0 && s == "-" + Magnitude(-amount, places)
  {
    MagnitudeWrite(s[1..], places, -amount);
    assert s == "-" + s[1..];
  }
}
