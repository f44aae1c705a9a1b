/** Quota money as digit strings: integer counts of 10^-14 USD, at most 64 digits, added,
    compared, parsed and printed without ever becoming a machine number. */
module QuotaAtoms {
  import opened Wrappers
  import opened Text
  import opened Digits

  const USD_ATOM_SCALE: nat := 14
  const MAX_ATOM_DIGITS: nat := 64

  datatype UsdAtomsError = UsdAtomsError

  predicate ValidAtoms(s: string) {
    s != [] && |s| <= MAX_ATOM_DIGITS && AllDigits(s)
  }

  // ----- Comparison -----

  function Normalize(s: string): (r: string)
    requires AllDigits(s)
  {
    if TrimZeros(s) == [] then "0" else TrimZeros(s)
  }

  function AtomsGe(left: string, right: string): (r: Result<bool, UsdAtomsError>) {
    if !ValidAtoms(left) || !ValidAtoms(right) then Err(UsdAtomsError)
    else
      var left, right := Normalize(left), Normalize(right);
      Ok(|left| > |right| || (|left| == |right| && !Less(left, right)))
  }

  /** Comparison is number comparison, whatever the leading zeros. */
  lemma {:induction false} AtomsGeCompares(left: string, right: string)
    requires ValidAtoms(left) && ValidAtoms(right)
    ensures AtomsGe(left, right) == Ok(Value(left) >= Value(right))
  {
    var l, r := Normalize(left), Normalize(right);
    NormalizedValue(left);
    NormalizedValue(right);
    if |l| == |r| {
      TextOrderIsValueOrder(l, r);
    } else if |l| > |r| {
      LongerIsLarger(left, right);
    } else {
      LongerIsLarger(right, left);
    }
  }

  lemma {:induction false} NormalizedValue(s: string)
    requires AllDigits(s)
    ensures AllDigits(Normalize(s)) && Value(Normalize(s)) == Value(s)
  {
    TrimZerosValue(s);
    assert "0"[..0] == [] && Value("0") == 0;
  }

  lemma {:induction false} LongerIsLarger(a: string, b: string)
    requires AllDigits(a) && AllDigits(b) && |Normalize(a)| > |Normalize(b)|
    ensures Value(a) > Value(b)
  {
    TrimZerosValue(a);
    TrimZerosValue(b);
    TrimmedLength(TrimZeros(a), |Normalize(b)|);
    TrimmedLength(TrimZeros(b), |Normalize(b)|);
  }

  // ----- Addition -----

  /** The number of digits stored least significant first. */
  function LowFirstValue(s: string): (v: nat)
    requires AllDigits(s)
  {
    if s == [] then 0 else LowFirstValue(s[..|s| - 1]) + DigitValue(s[|s| - 1]) * Pow10(|s| - 1)
  }

  function Reversed(s: string): (r: string)
    ensures |r| == |s|
  {
    if s == [] then [] else [s[|s| - 1]] + Reversed(s[..|s| - 1])
  }

  lemma {:induction false} ReversedValue(s: string)
    requires AllDigits(s)
    ensures AllDigits(Reversed(s)) && Value(Reversed(s)) == LowFirstValue(s)
  {
    if s != [] {
      ReversedValue(s[..|s| - 1]);
      var r := Reversed(s);
      assert r[1..] == Reversed(s[..|s| - 1]);
      ValueHead(r);
    }
  }

  lemma {:induction false} PushDigit(s: string, d: nat)
    requires AllDigits(s) && d <= 9
    ensures AllDigits(s + [DigitChar(d)])
    ensures LowFirstValue(s + [DigitChar(d)]) == LowFirstValue(s) + d * Pow10(|s|)
  {
    assert (s + [DigitChar(d)])[..|s|] == s;
  }

  /** One column of schoolbook addition keeps the total. */
  lemma {:induction false} ColumnKeepsTotal(p: nat, low: nat, x: nat, y: nat, carry: nat)
    ensures var sum := carry + x + y;
            low + (sum % 10) * p + (sum / 10) * (10 * p) == low + carry * p + x * p + y * p
  {
    var sum := carry + x + y;
    assert sum == 10 * (sum / 10) + sum % 10;
    assert (10 * (sum / 10) + sum % 10) * p == (sum / 10) * (10 * p) + (sum % 10) * p;
    assert (carry + x + y) * p == carry * p + x * p + y * p;
  }

  /** How many leading digits are still unread after `done` columns. */
  function Remaining(s: string, done: nat): (n: nat)
    ensures n <= |s|
  {
    if done < |s| then |s| - done else 0
  }

  /** The digit read in column `done`, zero beyond the last one. */
  function ColumnDigit(s: string, done: nat): (d: nat)
    requires AllDigits(s)
    ensures d <= 9
  {
    if done < |s| then DigitValue(s[|s| - 1 - done]) else 0
  }

  /** The number the last `done` digits denote. */
  function LowPart(s: string, done: nat): (v: nat)
    requires AllDigits(s)
  {
    Value(s[Remaining(s, done)..])
  }

  lemma {:induction false} LowPartStep(s: string, done: nat)
    requires AllDigits(s)
    ensures LowPart(s, done + 1) == ColumnDigit(s, done) * Pow10(done) + LowPart(s, done)
  {
    var i := Remaining(s, done);
    if i > 0 {
      ValueHead(s[i - 1..]);
      assert s[i - 1..][1..] == s[i..];
    }
  }

  /** The columns written so far, with the carry, hold the sum of the columns read so far. */
  ghost predicate Summed(left: string, right: string, out: string, carry: nat) {
    && AllDigits(left) && AllDigits(right) && AllDigits(out) && carry <= 1
    && LowPart(left, |out|) + LowPart(right, |out|) == LowFirstValue(out) + carry * Pow10(|out|)
  }

  lemma {:induction false} SummedStep(left: string, right: string, out: string, carry: nat)
    requires Summed(left, right, out, carry)
    ensures var sum := carry + ColumnDigit(left, |out|) + ColumnDigit(right, |out|);
            Summed(left, right, out + [DigitChar(sum % 10)], sum / 10)
  {
    var n, x, y := |out|, ColumnDigit(left, |out|), ColumnDigit(right, |out|);
    var sum := carry + x + y;
    LowPartStep(left, n);
    LowPartStep(right, n);
    PushDigit(out, sum % 10);
    ColumnKeepsTotal(Pow10(n), LowFirstValue(out), x, y, carry);
  }

  /** The column loop: digits low first, one more than the operands only for a last carry. */
  method AddColumns(left: string, right: string) returns (out: string)
    requires AllDigits(left) && AllDigits(right)
    ensures AllDigits(out) && LowFirstValue(out) == Value(left) + Value(right)
    ensures var width := if |left| >= |right| then |left| else |right|;
            |out| == width || (|out| == width + 1 && out[width] == '1')
  {
    ghost var width := if |left| >= |right| then |left| else |right|;
    var carry: nat := 0;
    out := "";
    var i, j := |left|, |right|;
    assert left[|left|..] == [] && right[|right|..] == [];
    while i > 0 || j > 0 || carry > 0
      invariant i == Remaining(left, |out|) && j == Remaining(right, |out|)
      invariant Summed(left, right, out, carry)
      invariant |out| <= width || (|out| == width + 1 && carry == 0 && out[width] == '1')
      decreases i + j + carry
    {
      SummedStep(left, right, out, carry);
      var sum := carry;
      if i > 0 {
        i := i - 1;
        sum := sum + DigitValue(left[i]);
      }
      if j > 0 {
        j := j - 1;
        sum := sum + DigitValue(right[j]);
      }
      assert sum == carry + ColumnDigit(left, |out|) + ColumnDigit(right, |out|);
      out := out + [DigitChar(sum % 10)];
      carry := sum / 10;
    }
    assert left[0..] == left && right[0..] == right;
  }

  lemma {:induction false} LengthTellsRange(s: string, max: nat)
    requires AllDigits(s) && (|s| > max ==> s[0] != '0')
    ensures |s| > max <==> Value(s) >= Pow10(max)
  {
    ValueBound(s);
    if |s| > max {
      ValueAtLeast(s);
      Pow10Mono(max, |s| - 1);
    } else {
      Pow10Mono(|s|, max);
    }
  }

  /** Adding two digit strings: the exact sum, refused iff an operand is invalid or the sum
      needs more than 64 digits. */
  method AddAtoms(left: string, right: string) returns (r: Result<string, UsdAtomsError>)
    ensures r.Err? <==> !ValidAtoms(left) || !ValidAtoms(right) ||
                        Value(left) + Value(right) >= Pow10(MAX_ATOM_DIGITS)
    ensures r.Ok? ==> ValidAtoms(r.value) && Value(r.value) == Value(left) + Value(right)
  {
    if !ValidAtoms(left) || !ValidAtoms(right) {
      return Err(UsdAtomsError);
    }
    var out := AddColumns(left, right);
    var text := Reversed(out);
    ReversedValue(out);
    LengthTellsRange(text, MAX_ATOM_DIGITS);
    if |text| > MAX_ATOM_DIGITS {
      return Err(UsdAtomsError);
    }
    return Ok(text);
  }

  // ----- Parsing and printing -----

  /** The two parts of a decimal amount; the second is None without a point. */
  function Parts(text: string): (r: (string, Option<string>)) {
    match SplitOnce(text, '.')
    case None => (text, None)
    case Some((whole, fraction)) => (whole, Some(fraction))
  }

  function FractionText(fraction: Option<string>): (r: string) {
    if fraction.Some? then fraction.value else ""
  }

  /** A plain decimal amount with at most 14 fractional digits. */
  predicate IsAmount(text: string) {
    var (whole, fraction) := Parts(text);
    && whole != [] && AllDigits(whole) && AllDigits(FractionText(fraction))
    && |FractionText(fraction)| <= USD_ATOM_SCALE
    && fraction != Some("")
  }

  /** The amount in atoms: the decimal times 10^14, exactly. */
  function AmountAtoms(text: string): (v: nat)
    requires IsAmount(text)
  {
    var (whole, fraction) := Parts(text);
    var f := FractionText(fraction);
    Value(whole) * Pow10(USD_ATOM_SCALE) + Value(f) * Pow10(USD_ATOM_SCALE - |f|)
  }

  /** What a quota limit parses to: the digits of its atoms, if it is an amount and positive
      and needs at most 64 digits. */
  function QuotaLimit(input: string): (r: Result<string, UsdAtomsError>) {
    var text := Trim(input);
    if IsAmount(text) && 0 < AmountAtoms(text) < Pow10(MAX_ATOM_DIGITS) then Ok(Significant(AmountAtoms(text)))
    else Err(UsdAtomsError)
  }

  method ParseQuotaLimitUsd(input: string) returns (r: Result<string, UsdAtomsError>)
    ensures r == QuotaLimit(input)
  {
    var text := Trim(input);
    if text == [] {
      assert SplitOnce(text, '.') == None;
      return Err(UsdAtomsError);
    }
    var (whole, point) := Parts(text);
    if point == Some("") {
      return Err(UsdAtomsError);
    }
    var fraction := FractionText(point);
    if whole == [] || !AllDigits(whole) || !AllDigits(fraction) || |fraction| > USD_ATOM_SCALE {
      return Err(UsdAtomsError);
    }
    var padded := PadFraction(fraction, USD_ATOM_SCALE);
    var digits := Normalize(whole) + padded;
    NormalizedValue(whole);
    ValueAppend(Normalize(whole), padded);
    var atoms := TrimZeros(digits);
    TrimZerosValue(digits);
    CanonicalDigits(atoms, AmountAtoms(text));
    if atoms == [] || |atoms| > MAX_ATOM_DIGITS {
      return Err(UsdAtomsError);
    }
    return Ok(atoms);
  }

  /** Fill the fraction up to the full scale with zeros. */
  method PadFraction(fraction: string, scale: nat) returns (padded: string)
    requires AllDigits(fraction) && |fraction| <= scale
    ensures AllDigits(padded) && |padded| == scale
    ensures Value(padded) == Value(fraction) * Pow10(scale - |fraction|)
  {
    padded := fraction;
    assert fraction + Zeros(0) == fraction;
    while |padded| < scale
      invariant |fraction| <= |padded| <= scale
      invariant padded == fraction + Zeros(|padded| - |fraction|)
    {
      padded := padded + ['0'];
    }
    PaddedValue(fraction, scale - |fraction|);
  }

  lemma {:induction false} PaddedValue(s: string, n: nat)
    requires AllDigits(s)
    ensures AllDigits(s + Zeros(n)) && Value(s + Zeros(n)) == Value(s) * Pow10(n)
  {
    ZerosValue(n);
    ValueAppend(s, Zeros(n));
  }

  /** Digits without leading zeros are the canonical ones, and their length tells the range. */
  lemma {:induction false} CanonicalDigits(atoms: string, n: nat)
    requires AllDigits(atoms) && (atoms != [] ==> atoms[0] != '0') && Value(atoms) == n
    ensures atoms == Significant(n)
    ensures atoms == [] <==> n == 0
    ensures |atoms| <= MAX_ATOM_DIGITS <==> n < Pow10(MAX_ATOM_DIGITS)
  {
    SignificantValue(n);
    TrimmedUnique(atoms, Significant(n));
    TrimmedLength(atoms, MAX_ATOM_DIGITS);
  }

  function FormatUsdAtoms(atoms: string): (r: Result<string, UsdAtomsError>) {
    if !ValidAtoms(atoms) then Err(UsdAtomsError)
    else if |atoms| <= USD_ATOM_SCALE then Ok("0" + ['.'] + PadLeft(atoms, USD_ATOM_SCALE))
    else
      var split := |atoms| - USD_ATOM_SCALE;
      Ok(atoms[..split] + ['.'] + atoms[split..])
  }

  lemma {:induction false} PointTextDenotes(whole: string, fraction: string)
    requires whole != [] && AllDigits(whole) && AllDigits(fraction) && |fraction| == USD_ATOM_SCALE
    ensures var text := whole + ['.'] + fraction;
            && Trim(text) == text && IsAmount(text)
            && AmountAtoms(text) == Value(whole + fraction)
  {
    var text := whole + ['.'] + fraction;
    SplitOnceAt(whole, '.', fraction);
    assert IsDigit(text[0]) && IsDigit(text[|text| - 1]);
    TrimIdentity(text);
    ValueAppend(whole, fraction);
    assert Pow10(0) == 1;
  }

  lemma {:induction false} LeadingZero(s: string)
    requires AllDigits(s)
    ensures AllDigits("0" + s) && Value("0" + s) == Value(s)
  {
    TrimZerosValue("0" + s);
    TrimZerosValue(s);
    assert ("0" + s)[1..] == s;
  }

  /** Printing denotes the same number of atoms. */
  lemma {:induction false} FormatDenotes(atoms: string)
    requires ValidAtoms(atoms)
    ensures FormatUsdAtoms(atoms).Ok?
    ensures var text := FormatUsdAtoms(atoms).value;
            Trim(text) == text && IsAmount(text) && AmountAtoms(text) == Value(atoms)
  {
    if |atoms| <= USD_ATOM_SCALE {
      var fraction := PadLeft(atoms, USD_ATOM_SCALE);
      PadLeftValue(atoms, USD_ATOM_SCALE);
      LeadingZero(fraction);
      PointTextDenotes("0", fraction);
    } else {
      var split := |atoms| - USD_ATOM_SCALE;
      PointTextDenotes(atoms[..split], atoms[split..]);
      assert atoms == atoms[..split] + atoms[split..];
    }
  }

  /** Parsing a printed amount gives back its digits without leading zeros, and is refused
      exactly for zero. */
  lemma {:induction false} ParsePrinted(atoms: string)
    requires ValidAtoms(atoms)
    ensures FormatUsdAtoms(atoms).Ok?
    ensures QuotaLimit(FormatUsdAtoms(atoms).value) ==
            if Value(atoms) == 0 then Err(UsdAtomsError) else Ok(TrimZeros(atoms))
  {
    FormatDenotes(atoms);
    TrimZerosValue(atoms);
    CanonicalDigits(TrimZeros(atoms), Value(atoms));
  }

  /** A parsed limit is valid, exact, and prints to text that parses to itself. */
  lemma {:induction false} ParsedLimitIsCanonical(input: string)
    requires QuotaLimit(input).Ok?
    ensures var atoms := QuotaLimit(input).value;
            && ValidAtoms(atoms) && Value(atoms) == AmountAtoms(Trim(input))
            && FormatUsdAtoms(atoms).Ok? && QuotaLimit(FormatUsdAtoms(atoms).value) == Ok(atoms)
  {
    var n := AmountAtoms(Trim(input));
    SignificantValue(n);
    TrimmedLength(Significant(n), MAX_ATOM_DIGITS);
    ParsePrinted(Significant(n));
  }
}
