/** The pre-dispatch maximum cost of a text request, and why no run of attempts that keeps to
    the request's bounds can cost more. */
module MaximumCost {
  import opened Wrappers
  import opened Arith
  import opened Money
  import opened Tiers
  import opened PriceSelection
  import opened ObservedCost
  import opened CatalogPrices

  datatype MaximumCostError =
    | InvalidPricing | MissingComponentPrice | UnsupportedPricingMode
    | MaximumOverflow | InvalidAttemptLimit

  type Maximum = Result<int, MaximumCostError>

  /** What the caller promises about each attempt. */
  datatype Bounds = Bounds(input: nat, output: nat)

  predicate CacheReadCanApply(c: Contract) {
    && !c.cacheCapability.CacheUnsupported?
    && !c.cacheEligibility.CacheNotRequested? && !c.cacheEligibility.CacheNotApplicable?
  }

  predicate ReasoningIsSeparate(c: Contract) {
    c.inclusion.reasoningApplicable && !c.inclusion.reasoningIncludedInOutput
  }

  function Max(a: int, b: int): (m: int) { if a >= b then a else b }

  // ----- One price list -----

  /** The dearest rate an input token may be charged at, if every needed rate is present. */
  function InputRate(p: ComponentPrices, c: Contract): (rate: Option<int>) {
    if p.input.None? || (CacheReadCanApply(c) && p.cacheRead.None?) || (c.inclusion.cacheWriteApplicable && p.cacheWrite.None?)
    then None
    else
      var withRead := if CacheReadCanApply(c) then Max(p.input.value, p.cacheRead.value) else p.input.value;
      Some(if c.inclusion.cacheWriteApplicable then Max(withRead, p.cacheWrite.value) else withRead)
  }

  /** Add a charge to a running total: a missing rate or an overflow is an error. */
  function AddCharge(total: Maximum, quantity: nat, rate: Option<int>): (r: Maximum) {
    if total.Err? then total
    else if rate.None? then Err(MissingComponentPrice)
    else if !IsI128(quantity * rate.value) || !IsI128(total.value + quantity * rate.value) then Err(MaximumOverflow)
    else Ok(total.value + quantity * rate.value)
  }

  function MaximumForPrices(p: ComponentPrices, c: Contract, b: Bounds): (r: Maximum) {
    var withInput := if b.input > 0 then AddCharge(Ok(0), b.input, InputRate(p, c)) else Ok(0);
    if b.output == 0 then withInput
    else
      var withOutput := AddCharge(withInput, b.output, p.output);
      if ReasoningIsSeparate(c) then AddCharge(withOutput, b.output, p.reasoning) else withOutput
  }

  method CheckedAddComponent(total: int, quantity: nat, price: int) returns (r: Maximum)
    ensures r == AddCharge(Ok(total), quantity, Some(price))
  {
    var component := ComponentCost(quantity, price);
    if component.None? {
      return Err(MaximumOverflow);
    }
    var sum := Checked(total + component.value);
    return if sum.Some? then Ok(sum.value) else Err(MaximumOverflow);
  }

  method ComputeMaximumForPrices(p: ComponentPrices, c: Contract, b: Bounds) returns (r: Maximum)
    ensures r == MaximumForPrices(p, c, b)
  {
    r := Ok(0);
    if b.input > 0 {
      if p.input.None? {
        return Err(MissingComponentPrice);
      }
      var rate := p.input.value;
      if CacheReadCanApply(c) {
        if p.cacheRead.None? {
          return Err(MissingComponentPrice);
        }
        rate := Max(rate, p.cacheRead.value);
      }
      if c.inclusion.cacheWriteApplicable {
        if p.cacheWrite.None? {
          return Err(MissingComponentPrice);
        }
        rate := Max(rate, p.cacheWrite.value);
      }
      r := CheckedAddComponent(0, b.input, rate);
      if r.Err? {
        return;
      }
    }
    if b.output > 0 {
      if p.output.None? {
        return Err(MissingComponentPrice);
      }
      r := CheckedAddComponent(r.value, b.output, p.output.value);
      if r.Err? {
        return;
      }
      if ReasoningIsSeparate(c) {
        if p.reasoning.None? {
          return Err(MissingComponentPrice);
        }
        r := CheckedAddComponent(r.value, b.output, p.reasoning.value);
      }
    }
  }

  // ----- All tiers and attempts -----

  /** The dearest of the base list and every tier; the first list in order that fails decides. */
  function MaximumOverTiers(base: ComponentPrices, tiers: seq<PriceTier>, c: Contract, b: Bounds): (r: Maximum) {
    if tiers == [] then MaximumForPrices(base, c, b)
    else
      var before := MaximumOverTiers(base, tiers[..|tiers| - 1], c, b);
      if before.Err? then before
      else
        var last := MaximumForPrices(tiers[|tiers| - 1].rates, c, b);
        if last.Err? then last else Ok(Max(before.value, last.value))
  }

  function MaximumForAttempts(base: ComponentPrices, tiers: seq<PriceTier>, c: Contract, b: Bounds, attempts: nat): (r: Maximum) {
    var each := MaximumOverTiers(base, tiers, c, b);
    if each.Err? then each
    else if IsI128(each.value * attempts) then Ok(each.value * attempts)
    else Err(MaximumOverflow)
  }

  function MaximumRequestCost(pricing: ModelPricing, c: Contract, b: Bounds, attempts: nat): (r: Maximum) {
    if attempts == 0 then Err(InvalidAttemptLimit)
    else if c.pricingMode.UnknownMode? then Err(UnsupportedPricingMode)
    else
      var base, tiers := PricesFrom(pricing.rates), TiersFrom(pricing.tiers);
      if base.None? || tiers.None? then Err(InvalidPricing)
      else MaximumForAttempts(base.value, tiers.value, c, b, attempts)
  }

  method ComputeOverTiers(base: ComponentPrices, tiers: seq<PriceTier>, c: Contract, b: Bounds) returns (r: Maximum)
    ensures r == MaximumOverTiers(base, tiers, c, b)
  {
    r := ComputeMaximumForPrices(base, c, b);
    if r.Err? {
      assert tiers[..0] == [];
      ErrorStays(base, tiers, c, b, 0);
      return;
    }
    for i := 0 to |tiers|
      invariant r.Ok? && r == MaximumOverTiers(base, tiers[..i], c, b)
    {
      assert tiers[..i + 1][..i] == tiers[..i];
      var candidate := ComputeMaximumForPrices(tiers[i].rates, c, b);
      if candidate.Err? {
        ErrorStays(base, tiers, c, b, i + 1);
        return candidate;
      }
      r := Ok(Max(r.value, candidate.value));
    }
    assert tiers[..|tiers|] == tiers;
  }

  lemma {:induction false} ErrorStays(base: ComponentPrices, tiers: seq<PriceTier>, c: Contract, b: Bounds, k: nat)
    requires k <= |tiers| && MaximumOverTiers(base, tiers[..k], c, b).Err?
    ensures MaximumOverTiers(base, tiers, c, b) == MaximumOverTiers(base, tiers[..k], c, b)
    decreases |tiers| - k
  {
    if k == |tiers| {
      assert tiers[..k] == tiers;
    } else {
      assert tiers[..k + 1][..k] == tiers[..k];
      ErrorStays(base, tiers, c, b, k + 1);
    }
  }

  method ComputeMaximumTextRequestCost(pricing: ModelPricing, c: Contract, b: Bounds, attempts: nat) returns (r: Maximum)
    ensures r == MaximumRequestCost(pricing, c, b, attempts)
  {
    if attempts == 0 {
      return Err(InvalidAttemptLimit);
    }
    if c.pricingMode.UnknownMode? {
      return Err(UnsupportedPricingMode);
    }
    var base := PricesFrom(pricing.rates);
    if base.None? {
      return Err(InvalidPricing);
    }
    var tiers := Tiers.ReadInOrder(PricesFrom, pricing.tiers);
    if tiers.None? {
      return Err(InvalidPricing);
    }
    r := ComputeOverTiers(base.value, tiers.value, c, b);
    if r.Ok? {
      var product := Checked(r.value * attempts);
      r := if product.Some? then Ok(product.value) else Err(MaximumOverflow);
    }
  }

  // ----- The maximum dominates every observation the contract allows -----

  /** The input categories together stay within the input bound, output and separate reasoning
      each within the output bound, and nothing is counted that does not apply. */
  predicate Respects(o: Observation, c: Contract, b: Bounds) {
    && Count(o.input) + Count(o.cacheRead) + Count(o.cacheWrite) <= b.input
    && (!CacheReadCanApply(c) ==> Count(o.cacheRead) == 0)
    && (!c.inclusion.cacheWriteApplicable ==> Count(o.cacheWrite) == 0)
    && Count(o.output) <= b.output
    && (!c.inclusion.reasoningIncludedInOutput ==> Count(o.reasoning) <= b.output)
    && (!c.inclusion.reasoningApplicable ==> Count(o.reasoning) == 0)
    && Count(o.inputAudio) == 0 && Count(o.outputAudio) == 0
  }

  lemma {:induction false} ChargeWithin(line: Line, rate: nat)
    requires NonNegative(line.price)
    requires Count(line.quantity) > 0 ==> line.price.Some? && line.price.value <= rate
    ensures 0 <= Charge(line) <= Count(line.quantity) * rate
  {
    if Count(line.quantity) > 0 {
      MulMono(line.price.value, rate, Count(line.quantity));
    }
  }

  /** The charges of the three input lines stay within the bound at the dearest rate. */
  lemma {:induction false} InputWithin(o: Observation, c: Contract, b: Bounds, p: ComponentPrices)
    requires InRange(p) && Respects(o, c, b)
    requires b.input > 0 ==> InputRate(p, c).Some?
    ensures Charge(Line(o.input, p.input)) + Charge(Line(o.cacheRead, p.cacheRead)) + Charge(Line(o.cacheWrite, p.cacheWrite))
            <= InputPart(p, c, b)
  {
    var rate: nat := if b.input > 0 then InputRate(p, c).value else 0;
    ChargeWithin(Line(o.input, p.input), rate);
    ChargeWithin(Line(o.cacheRead, p.cacheRead), rate);
    ChargeWithin(Line(o.cacheWrite, p.cacheWrite), rate);
    ThreeParts(Count(o.input), Count(o.cacheRead), Count(o.cacheWrite), b.input, rate);
  }

  lemma {:induction false} ThreeParts(x: nat, y: nat, z: nat, bound: nat, rate: nat)
    requires x + y + z <= bound
    ensures x * rate + y * rate + z * rate <= bound * rate
  {
    MulMono(x + y + z, bound, rate);
    assert (x + y + z) * rate == x * rate + y * rate + z * rate;
  }

  /** A charge whose quantity is within the bound is within the bound's charge. */
  lemma {:induction false} OutputWithin(quantity: TokenMetric, bound: nat, price: Option<UnitPrice>)
    requires NonNegative(price) && Count(quantity) <= bound && (bound > 0 ==> price.Some?)
    ensures Charge(Line(quantity, price)) <= OutputPart(bound, price)
  {
    if bound > 0 {
      MulMono(Count(quantity), bound, price.value);
    }
  }

  function InputPart(p: ComponentPrices, c: Contract, b: Bounds): (atoms: int)
    requires b.input > 0 ==> InputRate(p, c).Some?
  {
    if b.input > 0 then b.input * InputRate(p, c).value else 0
  }

  function OutputPart(bound: nat, price: Option<UnitPrice>): (atoms: int)
    requires bound > 0 ==> price.Some?
  {
    if bound > 0 then bound * price.value else 0
  }

  /** What the maximum of one price list is made of. */
  lemma {:induction false} MaximumParts(p: ComponentPrices, c: Contract, b: Bounds)
    requires MaximumForPrices(p, c, b).Ok?
    ensures b.input > 0 ==> InputRate(p, c).Some?
    ensures b.output > 0 ==> p.output.Some?
    ensures b.output > 0 && ReasoningIsSeparate(c) ==> p.reasoning.Some?
    ensures MaximumForPrices(p, c, b).value ==
            InputPart(p, c, b) + OutputPart(b.output, p.output) +
            (if ReasoningIsSeparate(c) then OutputPart(b.output, p.reasoning) else 0)
    ensures MaximumForPrices(p, c, b).value <= I128_MAX
  {}

  /** One attempt under one price list. */
  lemma {:induction false} ListDominates(p: ComponentPrices, c: Contract, b: Bounds, o: Observation)
    requires InRange(p) && Respects(o, c, b) && MaximumForPrices(p, c, b).Ok?
    ensures TotalCharge(Lines(o, c, p)) <= MaximumForPrices(p, c, b).value
  {
    MaximumParts(p, c, b);
    SevenCharges(Lines(o, c, p));
    InputWithin(o, c, b, p);
    OutputWithin(o.output, b.output, p.output);
    ReasoningWithin(o, c, b, p);
  }

  lemma {:induction false} ReasoningWithin(o: Observation, c: Contract, b: Bounds, p: ComponentPrices)
    requires InRange(p) && Respects(o, c, b)
    requires b.output > 0 && ReasoningIsSeparate(c) ==> p.reasoning.Some?
    ensures Charge(Lines(o, c, p)[4]) <= if ReasoningIsSeparate(c) then OutputPart(b.output, p.reasoning) else 0
  {
    if ReasoningIsSeparate(c) {
      OutputWithin(o.reasoning, b.output, p.reasoning);
    }
  }

  /** The maximum over tiers is at least that of every list and equals that of one. */
  lemma {:induction false} OverTiersMeaning(base: ComponentPrices, tiers: seq<PriceTier>, c: Contract, b: Bounds)
    requires MaximumOverTiers(base, tiers, c, b).Ok?
    ensures var m := MaximumOverTiers(base, tiers, c, b).value;
            && MaximumForPrices(base, c, b).Ok? && MaximumForPrices(base, c, b).value <= m
            && (forall i :: 0 <= i < |tiers| ==> AtMost(MaximumForPrices(tiers[i].rates, c, b), m))
            && (MaximumForPrices(base, c, b).value == m ||
                exists i :: 0 <= i < |tiers| && MaximumForPrices(tiers[i].rates, c, b) == Ok(m))
  {
    if tiers != [] {
      var n := |tiers| - 1;
      OverTiersMeaning(base, tiers[..n], c, b);
      assert forall i :: 0 <= i < n ==> tiers[..n][i] == tiers[i];
    }
  }

  predicate AtMost(r: Maximum, m: int) { r.Ok? && r.value <= m }

  /** All the prices of a list with its tiers are non-negative. */
  predicate AllInRange(base: ComponentPrices, tiers: seq<PriceTier>) {
    InRange(base) && forall i :: 0 <= i < |tiers| ==> InRange(tiers[i].rates)
  }

  /** One attempt, in whatever tier its context selects. */
  lemma {:induction false} AttemptDominated(base: ComponentPrices, tiers: seq<PriceTier>, c: Contract, b: Bounds, o: Observation)
    requires AllInRange(base, tiers) && Respects(o, c, b) && MaximumOverTiers(base, tiers, c, b).Ok?
    ensures var m := MaximumOverTiers(base, tiers, c, b).value;
            var cost := Observed(o, c, Resolved(ModelV2(base, tiers)));
            && 0 <= cost.total <= m
            && !cost.status.Unavailable?
            && ComponentPriceMissing !in cost.reasons
  {
    var record := ModelV2(base, tiers);
    var m := MaximumOverTiers(base, tiers, c, b).value;
    var p := PricesForContext(record, KnownValue(o.pricingContext));
    assert InRange(p) && AtMost(MaximumForPrices(p, c, b), m) by {
      OverTiersMeaning(base, tiers, c, b);
      SelectedFromRecord(record, KnownValue(o.pricingContext));
    }
    ListDominates(p, c, b, o);
    MaximumParts(p, c, b);
    OverflowIff(Lines(o, c, p));
    ObservedMeaning(o, c, record);
    EverythingPriced(p, c, b, o, record);
  }

  /** Every positive quantity has a price once a maximum could be computed. */
  lemma {:induction false} EverythingPriced(p: ComponentPrices, c: Contract, b: Bounds, o: Observation, record: PriceRecord)
    requires Respects(o, c, b) && MaximumForPrices(p, c, b).Ok?
    requires p == PricesForContext(record, KnownValue(o.pricingContext))
    ensures ComponentPriceMissing !in Observed(o, c, Resolved(record)).reasons
  {
    var lines := Lines(o, c, p);
    MaximumParts(p, c, b);
    forall i | 0 <= i < |lines|
      ensures ReasonOf(lines[i]) != Some(ComponentPriceMissing)
    {
      assert Count(lines[i].quantity) > 0 ==> lines[i].price.Some?;
    }
    var further := RecordReasons(o, c, record);
    CollectMeaning(LineReasons(lines) + further, ComponentPriceMissing);
    assert Some(ComponentPriceMissing) !in further;
  }

  /** The observed totals of several attempts, added up. */
  function TotalObserved(run: seq<Observation>, c: Contract, record: PriceRecord): (total: int) {
    if run == [] then 0
    else TotalObserved(run[..|run| - 1], c, record) + Observed(run[|run| - 1], c, Resolved(record)).total
  }

  lemma {:induction false} RunDominated(base: ComponentPrices, tiers: seq<PriceTier>, c: Contract, b: Bounds, run: seq<Observation>)
    requires AllInRange(base, tiers) && MaximumOverTiers(base, tiers, c, b).Ok?
    requires forall i :: 0 <= i < |run| ==> Respects(run[i], c, b)
    ensures TotalObserved(run, c, ModelV2(base, tiers)) <= MaximumOverTiers(base, tiers, c, b).value * |run|
  {
    if run != [] {
      RunDominated(base, tiers, c, b, run[..|run| - 1]);
      AttemptDominated(base, tiers, c, b, run[|run| - 1]);
      OneMore(MaximumOverTiers(base, tiers, c, b).value, |run| - 1);
    }
  }

  lemma {:induction false} OneMore(m: int, n: nat)
    ensures m * n + m == m * (n + 1)
  {}

  lemma {:induction false} MaximumNonNegative(base: ComponentPrices, tiers: seq<PriceTier>, c: Contract, b: Bounds)
    requires AllInRange(base, tiers) && MaximumOverTiers(base, tiers, c, b).Ok?
    ensures MaximumOverTiers(base, tiers, c, b).value >= 0
  {
    var nothing := Observation(NotReported, NotReported, NotReported, NotReported, NotReported,
                               NotReported, NotReported, NotReported, [], {});
    AttemptDominated(base, tiers, c, b, nothing);
  }

  /** The prices an accepted pricing stores with its attempts. */
  function StoredRecord(pricing: ModelPricing): (record: PriceRecord)
    requires PricesFrom(pricing.rates).Some? && TiersFrom(pricing.tiers).Some?
  {
    ModelV2(PricesFrom(pricing.rates).value, TiersFrom(pricing.tiers).value)
  }

  lemma {:induction false} AcceptedInRange(pricing: ModelPricing)
    requires PricesFrom(pricing.rates).Some? && TiersFrom(pricing.tiers).Some?
    ensures AllInRange(PricesFrom(pricing.rates).value, TiersFrom(pricing.tiers).value)
    ensures Increasing(TiersFrom(pricing.tiers).value)
  {
    PricesInRange(pricing.rates);
    var tiers := TiersFrom(pricing.tiers).value;
    forall i | 0 <= i < |tiers|
      ensures InRange(tiers[i].rates)
    {
      AcceptedTier(PricesFrom, pricing.tiers, i);
      PricesInRange(pricing.tiers[i].rates);
    }
    AcceptedIsOrdered(PricesFrom, pricing.tiers);
  }

  /** The pre-dispatch maximum dominates reality: no run of at most `attempts` observations that
      keep to the contract, in whatever context tiers, costs more than the maximum in total. */
  lemma {:induction false} MaximumDominates(pricing: ModelPricing, c: Contract, b: Bounds, attempts: nat, run: seq<Observation>)
    requires MaximumRequestCost(pricing, c, b, attempts).Ok?
    requires |run| <= attempts && forall i :: 0 <= i < |run| ==> Respects(run[i], c, b)
    ensures PricesFrom(pricing.rates).Some? && TiersFrom(pricing.tiers).Some?
    ensures TotalObserved(run, c, StoredRecord(pricing)) <= MaximumRequestCost(pricing, c, b, attempts).value
  {
    AcceptedInRange(pricing);
    var base, tiers := PricesFrom(pricing.rates).value, TiersFrom(pricing.tiers).value;
    RunWithin(base, tiers, c, b, attempts, run);
  }

  lemma {:induction false} RunWithin(base: ComponentPrices, tiers: seq<PriceTier>, c: Contract, b: Bounds, attempts: nat, run: seq<Observation>)
    requires AllInRange(base, tiers) && MaximumForAttempts(base, tiers, c, b, attempts).Ok?
    requires |run| <= attempts && forall i :: 0 <= i < |run| ==> Respects(run[i], c, b)
    ensures TotalObserved(run, c, ModelV2(base, tiers)) <= MaximumForAttempts(base, tiers, c, b, attempts).value
  {
    var m := MaximumOverTiers(base, tiers, c, b).value;
    RunDominated(base, tiers, c, b, run);
    MaximumNonNegative(base, tiers, c, b);
    MoreAttempts(m, |run|, attempts);
  }

  lemma {:induction false} MoreAttempts(m: nat, n: nat, attempts: nat)
    requires n <= attempts
    ensures m * n <= m * attempts
  {
    MulMono(n, attempts, m);
  }
}
