/** Catalog prices: decimal literals in USD per million tokens, held as integers scaled by
    10^8, with context tiers, parsed strictly and printed canonically. */
module CatalogPrices {
  import opened Wrappers
  import opened Arith
  import opened Text
  import opened Digits
  import opened Money
  import Tiers

  const PRICE_SCALE: nat := 8
  const PRICE_UNIT: nat := 100_000_000
  const MAX_PRICE_LITERAL: nat := 32

  type Tier<+T> = Tiers.Tier<T>

  // ----- Parsing one price -----

  function IntegerAndFraction(text: string): (r: (string, string)) {
    match SplitOnce(text, '.')
    case None => (text, "")
    case Some(parts) => parts
  }

  /** Plain decimal notation, at most 32 characters and 8 fractional digits. */
  predicate IsPriceLiteral(text: string) {
    var (integer, fraction) := IntegerAndFraction(text);
    && text != [] && |text| <= MAX_PRICE_LITERAL
    && !(integer == [] && fraction == [])
    && AllDigits(integer) && AllDigits(fraction) && |fraction| <= PRICE_SCALE
  }

  /** The decimal `integer`.`fraction`, times 10^8. */
  function Scaled(integer: string, fraction: string): (v: nat)
    requires AllDigits(integer) && AllDigits(fraction) && |fraction| <= PRICE_SCALE
  {
    Value(integer) * PRICE_UNIT + Value(fraction) * Pow10(PRICE_SCALE - |fraction|)
  }

  function ScaledValue(text: string): (v: nat)
    requires IsPriceLiteral(text)
  {
    var (integer, fraction) := IntegerAndFraction(text);
    Scaled(integer, fraction)
  }

  /** What a price text means: the exact scaled decimal, unless it is no literal or too large. */
  function Price(text: string): (r: Option<UnitPrice>)
    ensures r.Some? ==> 0 <= r.value <= I128_MAX
  {
    var text := Trim(text);
    if IsPriceLiteral(text) && ScaledValue(text) <= I128_MAX then Some(ScaledValue(text)) else None
  }

  lemma {:induction false} PrefixIsSmaller(s: string, k: nat)
    requires AllDigits(s) && k <= |s|
    ensures Value(s[..k]) <= Value(s)
    decreases |s| - k
  {
    if k < |s| {
      PrefixIsSmaller(s, k + 1);
      assert s[..k + 1][..k] == s[..k];
    } else {
      assert s[..k] == s;
    }
  }

  /** The scaled value of an integer part and a fraction, as one digit string. */
  lemma {:induction false} ScaledFromDigits(integer: string, fraction: string)
    requires AllDigits(integer) && AllDigits(fraction) && |fraction| <= PRICE_SCALE
    ensures AllDigits(integer + fraction)
    ensures Scaled(integer, fraction) == Value(integer + fraction) * Pow10(PRICE_SCALE - |fraction|)
    ensures Value(integer + fraction) <= Scaled(integer, fraction)
  {
    var n := |fraction|;
    ValueAppend(integer, fraction);
    PriceUnit(n);
    DistributeScale(Value(integer), Value(fraction), Pow10(n), Pow10(PRICE_SCALE - n));
    MulMono(1, Pow10(PRICE_SCALE - n), Value(integer + fraction));
  }

  /** The price unit is 10^8, whichever way the eight places are split. */
  lemma {:induction false} PriceUnit(n: nat)
    requires n <= PRICE_SCALE
    ensures Pow10(n) * Pow10(PRICE_SCALE - n) == PRICE_UNIT
  {
    Pow10Add(n, PRICE_SCALE - n);
    assert Pow10(8) == 100_000_000;
  }

  lemma {:induction false} DistributeScale(a: nat, b: nat, p: nat, q: nat)
    ensures (a * p + b) * q == a * (p * q) + b * q
  {}

  /** Accumulate digits with checked arithmetic: None exactly on overflow. */
  method CheckedDigits(digits: string) returns (r: Option<int>)
    requires AllDigits(digits)
    ensures r == if Value(digits) <= I128_MAX then Some(Value(digits)) else None
  {
    var scaled := 0;
    for k := 0 to |digits|
      invariant scaled == Value(digits[..k]) <= I128_MAX
    {
      assert digits[..k + 1][..k] == digits[..k];
      PrefixIsSmaller(digits, k + 1);
      scaled := scaled * 10;
      if scaled > I128_MAX {
        return None;
      }
      scaled := scaled + DigitValue(digits[k]);
      if scaled > I128_MAX {
        return None;
      }
    }
    assert digits[..|digits|] == digits;
    return Some(scaled);
  }

  /** Multiply by ten repeatedly with checked arithmetic. */
  method CheckedShift(value: nat, count: nat) returns (r: Option<int>)
    requires value <= I128_MAX
    ensures r == if value * Pow10(count) <= I128_MAX then Some(value * Pow10(count)) else None
  {
    var scaled := value;
    for k := 0 to count
      invariant scaled == value * Pow10(k) <= I128_MAX
    {
      Pow10Mono(k + 1, count);
      MulMono(Pow10(k + 1), Pow10(count), value);
      assert value * Pow10(k + 1) == scaled * 10;
      scaled := scaled * 10;
      if scaled > I128_MAX {
        return None;
      }
    }
    return Some(scaled);
  }

  method CheckedScaled(integer: string, fraction: string) returns (r: Option<int>)
    requires AllDigits(integer) && AllDigits(fraction) && |fraction| <= PRICE_SCALE
    ensures r == if Scaled(integer, fraction) <= I128_MAX then Some(Scaled(integer, fraction)) else None
  {
    ScaledFromDigits(integer, fraction);
    var scaled := CheckedDigits(integer + fraction);
    if scaled.None? {
      return None;
    }
    r := CheckedShift(scaled.value, PRICE_SCALE - |fraction|);
  }

  method ParseUnitPrice(text: string) returns (r: Option<UnitPrice>)
    ensures r == Price(text)
  {
    var text := Trim(text);
    if text == [] || |text| > MAX_PRICE_LITERAL {
      return None;
    }
    var (integer, fraction) := IntegerAndFraction(text);
    if integer == [] && fraction == [] {
      return None;
    }
    if !AllDigits(integer) || !AllDigits(fraction) {
      return None;
    }
    if |fraction| > PRICE_SCALE {
      return None;
    }
    r := CheckedScaled(integer, fraction);
  }

  // ----- Printing one price -----

  function PlainText(p: nat): (text: string) {
    WholeText(p) + ['.'] + FractionDigits(p)
  }

  function PriceText(p: UnitPrice): (text: string) {
    if p < 0 then ['-'] + PlainText(-p) else PlainText(p)
  }

  /** A printed price fits the literal limit up to 23 integer digits, that is below 10^31. */
  const MAX_PRINTED_INTEGER: nat := 23
  const PRINTED_LIMIT: nat := 10_000_000_000_000_000_000_000_000_000_000

  predicate Reparses(p: UnitPrice) {
    0 <= p < PRINTED_LIMIT
  }

  function WholeText(p: nat): (s: string) { ToText(p / PRICE_UNIT) }

  function FractionDigits(p: nat): (s: string) { PadLeft(ToText(p % PRICE_UNIT), PRICE_SCALE) }

  lemma {:induction false} WholeTextValue(p: nat)
    ensures AllDigits(WholeText(p)) && WholeText(p) != [] && Value(WholeText(p)) == p / PRICE_UNIT
    ensures |WholeText(p)| <= MAX_PRINTED_INTEGER <==> Reparses(p)
  {
    ToTextValue(p / PRICE_UNIT, MAX_PRINTED_INTEGER);
    Pow10Of23();
  }

  lemma {:induction false} Pow10Of23()
    ensures Pow10(23) * PRICE_UNIT == PRINTED_LIMIT
  {
    assert Pow10(8) == 100_000_000;
    Pow10Add(8, 8);
    assert Pow10(7) == 10_000_000;
    Pow10Add(16, 7);
  }

  lemma {:induction false} FractionDigitsValue(p: nat)
    ensures AllDigits(FractionDigits(p)) && |FractionDigits(p)| == PRICE_SCALE
    ensures Value(FractionDigits(p)) == p % PRICE_UNIT
  {
    var f := p % PRICE_UNIT;
    ToTextValue(f, PRICE_SCALE);
    assert Pow10(8) == 100_000_000;
    PadLeftValue(ToText(f), PRICE_SCALE);
  }

  /** Parsing the printed form of a non-negative price gives it back exactly when it is below
      10^31; a larger price prints to text that is refused. */
  lemma {:induction false} ParsePrintedPrice(p: nat)
    requires p <= I128_MAX
    ensures Price(PriceText(p)) == if Reparses(p) then Some(p) else None
  {
    PrintedParts(p);
    PlainTextPrice(WholeText(p), FractionDigits(p), p);
  }

  lemma {:induction false} PrintedParts(p: nat)
    ensures WholeText(p) != [] && AllDigits(WholeText(p))
    ensures AllDigits(FractionDigits(p)) && |FractionDigits(p)| == PRICE_SCALE
    ensures Value(WholeText(p)) * PRICE_UNIT + Value(FractionDigits(p)) == p
    ensures |WholeText(p)| <= MAX_PRINTED_INTEGER <==> Reparses(p)
  {
    WholeTextValue(p);
    FractionDigitsValue(p);
  }

  lemma {:induction false} PlainTextPrice(whole: string, fraction: string, v: nat)
    requires whole != [] && AllDigits(whole) && AllDigits(fraction) && |fraction| == PRICE_SCALE
    requires Value(whole) * PRICE_UNIT + Value(fraction) == v
    ensures Price(whole + ['.'] + fraction) == if |whole| <= MAX_PRINTED_INTEGER && v <= I128_MAX then Some(v) else None
  {
    var text := whole + ['.'] + fraction;
    SplitOnceAt(whole, '.', fraction);
    assert IsDigit(text[0]) && IsDigit(text[|text| - 1]);
    TrimIdentity(text);
    assert Pow10(0) == 1;
  }

  /** A negative price prints to text that is refused. */
  lemma {:induction false} NegativeTextRefused(p: UnitPrice)
    requires p < 0
    ensures Price(PriceText(p)) == None
  {
    WholeTextValue(-p);
    FractionDigitsValue(-p);
    MinusTextRefused(WholeText(-p), FractionDigits(-p));
  }

  lemma {:induction false} MinusTextRefused(whole: string, fraction: string)
    requires AllDigits(whole) && AllDigits(fraction) && fraction != []
    ensures Price(['-'] + (whole + ['.'] + fraction)) == None
  {
    var text := (['-'] + whole) + ['.'] + fraction;
    assert text == ['-'] + (whole + ['.'] + fraction);
    SplitOnceAt(['-'] + whole, '.', fraction);
    assert text[0] == '-' && IsDigit(text[|text| - 1]);
    TrimIdentity(text);
    assert !IsDigit((['-'] + whole)[0]);
  }

  // ----- Price lists and their context tiers -----

  type TextRates = Rates<string>

  predicate NoRates<T>(r: Rates<T>) {
    && r.input.None? && r.output.None? && r.cacheRead.None? && r.cacheWrite.None?
    && r.reasoning.None? && r.inputAudio.None? && r.outputAudio.None?
  }

  datatype ModelPricing = ModelPricing(rates: TextRates, tiers: seq<Tier<TextRates>>)

  /** A present component must be readable; an absent one stays absent. */
  function OptionalPrice(text: Option<string>): (r: Option<Option<UnitPrice>>)
    ensures r.Some? ==> (r.value.Some? <==> text.Some?) && (r.value.Some? ==> 0 <= r.value.value <= I128_MAX)
  {
    match text
    case None => Some(None)
    case Some(t) => var p := Price(t); if p.None? then None else Some(p)
  }

  /** All components, or None when there is none or one is unreadable. */
  function PricesFrom(r: TextRates): (p: Option<ComponentPrices>) {
    var input, output := OptionalPrice(r.input), OptionalPrice(r.output);
    var read, write := OptionalPrice(r.cacheRead), OptionalPrice(r.cacheWrite);
    var reasoning := OptionalPrice(r.reasoning);
    var inAudio, outAudio := OptionalPrice(r.inputAudio), OptionalPrice(r.outputAudio);
    if NoRates(r) || input.None? || output.None? || read.None? || write.None? || reasoning.None? || inAudio.None? || outAudio.None?
    then None
    else Some(Rates(input.value, output.value, read.value, write.value, reasoning.value, inAudio.value, outAudio.value))
  }

  function TiersFrom(tiers: seq<Tier<TextRates>>): (r: Option<seq<Tier<ComponentPrices>>>) {
    Tiers.Read(PricesFrom, tiers)
  }

  // ----- Canonical price lists -----

  function OptionalText(p: Option<UnitPrice>): (r: Option<string>) {
    if p.None? then None else Some(PriceText(p.value))
  }

  function TextFrom(p: ComponentPrices): (r: TextRates) {
    Rates(OptionalText(p.input), OptionalText(p.output), OptionalText(p.cacheRead), OptionalText(p.cacheWrite),
          OptionalText(p.reasoning), OptionalText(p.inputAudio), OptionalText(p.outputAudio))
  }

  function TextTiers(tiers: seq<Tier<ComponentPrices>>): (r: seq<Tier<TextRates>>) {
    Tiers.Write(TextFrom, tiers)
  }

  /** Parse everything and print it back at the fixed scale. */
  function Canonical(m: ModelPricing): (r: Option<ModelPricing>) {
    var prices, tiers := PricesFrom(m.rates), TiersFrom(m.tiers);
    if prices.None? || tiers.None? then None
    else Some(ModelPricing(TextFrom(prices.value), TextTiers(tiers.value)))
  }

  predicate OptionReparses(p: Option<UnitPrice>) { p.Some? ==> Reparses(p.value) }

  predicate AllReparse(p: ComponentPrices) {
    && OptionReparses(p.input) && OptionReparses(p.output) && OptionReparses(p.cacheRead) && OptionReparses(p.cacheWrite)
    && OptionReparses(p.reasoning) && OptionReparses(p.inputAudio) && OptionReparses(p.outputAudio)
  }

  predicate TiersReparse(tiers: seq<Tier<ComponentPrices>>) {
    Tiers.AllFit(AllReparse, tiers)
  }

  lemma {:induction false} PricesInRange(r: TextRates)
    ensures PricesFrom(r).Some? ==> InRange(PricesFrom(r).value) && !NoRates(PricesFrom(r).value)
  {}

  lemma {:induction false} OptionRoundTrip(p: Option<UnitPrice>)
    requires NonNegative(p)
    ensures OptionalPrice(OptionalText(p)) == if OptionReparses(p) then Some(p) else None
  {
    if p.Some? {
      ParsePrintedPrice(p.value);
    }
  }

  /** Reading a printed price list back: exact if every price is below 10^31, else refused. */
  lemma {:induction false} RatesRoundTrip(p: ComponentPrices)
    requires InRange(p) && !NoRates(p)
    ensures PricesFrom(TextFrom(p)) == if AllReparse(p) then Some(p) else None
  {
    OptionRoundTrip(p.input);
    OptionRoundTrip(p.output);
    OptionRoundTrip(p.cacheRead);
    OptionRoundTrip(p.cacheWrite);
    OptionRoundTrip(p.reasoning);
    OptionRoundTrip(p.inputAudio);
    OptionRoundTrip(p.outputAudio);
  }

  lemma {:induction false} TiersRoundTrip(tiers: seq<Tier<TextRates>>)
    requires TiersFrom(tiers).Some?
    ensures var r := TiersFrom(tiers).value;
            TiersFrom(TextTiers(r)) == if TiersReparse(r) then Some(r) else None
  {
    var r := TiersFrom(tiers).value;
    assert Tiers.ReadsBack(PricesFrom, TextFrom, AllReparse, r) by {
      forall i | 0 <= i < |r|
        ensures PricesFrom(TextFrom(r[i].rates)) == if AllReparse(r[i].rates) then Some(r[i].rates) else None
      {
        Tiers.AcceptedTier(PricesFrom, tiers, i);
        PricesInRange(tiers[i].rates);
        RatesRoundTrip(r[i].rates);
      }
    }
    Tiers.AcceptedIsOrdered(PricesFrom, tiers);
    Tiers.ListReadsBack(PricesFrom, TextFrom, AllReparse, r);
  }

  /** Canonicalising is idempotent, and keeps every component and tier, exactly when every
      price is below 10^31; otherwise the canonical form itself is refused. */
  lemma {:induction false} CanonicalIdempotentIff(m: ModelPricing)
    requires Canonical(m).Some?
    ensures var c := Canonical(m).value;
            var prices, tiers := PricesFrom(m.rates).value, TiersFrom(m.tiers).value;
            if AllReparse(prices) && TiersReparse(tiers)
            then Canonical(c) == Some(c) && PricesFrom(c.rates) == Some(prices) && TiersFrom(c.tiers) == Some(tiers)
            else Canonical(c) == None
  {
    PricesInRange(m.rates);
    RatesRoundTrip(PricesFrom(m.rates).value);
    TiersRoundTrip(m.tiers);
  }

  /** Every integer literal of 24 to 30 digits without a leading zero is accepted, and its
      canonical text is then refused. */
  lemma {:induction false} CanonicalRefused(text: string)
    requires AllDigits(text) && 24 <= |text| <= 30 && text[0] != '0'
    ensures var m := ModelPricing(Rates(Some(text), None, None, None, None, None, None), []);
            Canonical(m).Some? && Canonical(Canonical(m).value) == None
  {
    LongPriceAccepted(text);
    CanonicalIdempotentIff(ModelPricing(Rates(Some(text), None, None, None, None, None, None), []));
  }

  lemma {:induction false} LongPriceAccepted(text: string)
    requires AllDigits(text) && 24 <= |text| <= 30 && text[0] != '0'
    ensures Price(text).Some? && !Reparses(Price(text).value)
  {
    IntegerLiteral(text);
    LongScaledRange(text);
  }

  lemma {:induction false} LongScaledRange(text: string)
    requires AllDigits(text) && 24 <= |text| <= 30 && text[0] != '0'
    ensures PRINTED_LIMIT <= Value(text) * PRICE_UNIT <= I128_MAX
  {
    LongValueRange(text, 24, 30);
    Pow10Of23();
    Pow10Of30();
  }

  lemma {:induction false} IntegerLiteral(text: string)
    requires text != [] && AllDigits(text) && |text| <= MAX_PRICE_LITERAL
    ensures Trim(text) == text && IsPriceLiteral(text)
    ensures ScaledValue(text) == Value(text) * PRICE_UNIT
  {
    assert IsDigit(text[0]) && IsDigit(text[|text| - 1]);
    TrimIdentity(text);
    assert '.' !in text by {
      assert !IsDigit('.');
    }
    assert IntegerAndFraction(text) == (text, "");
    assert Value("") == 0;
  }

  lemma {:induction false} LongValueRange(text: string, lo: nat, hi: nat)
    requires AllDigits(text) && 0 < lo <= |text| <= hi && text[0] != '0'
    ensures Pow10(lo - 1) <= Value(text) < Pow10(hi)
  {
    ValueAtLeast(text);
    Pow10Mono(lo - 1, |text| - 1);
    ValueBound(text);
    Pow10Mono(|text|, hi);
  }

  lemma {:induction false} Pow10Of30()
    ensures Pow10(30) * PRICE_UNIT <= I128_MAX
  {
    assert Pow10(8) == 100_000_000;
    Pow10Add(8, 8);
    assert Pow10(7) == 10_000_000;
    Pow10Add(16, 7);
    Pow10Add(23, 7);
  }
}
