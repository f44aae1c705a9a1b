/** When the pre-dispatch maximum is attained by reports a provider could send. */
module MaximumAttained {
  import opened Wrappers
  import opened Arith
  import opened Money
  import opened Tiers
  import opened PriceSelection
  import opened ObservedCost
  import opened MaximumCost
  import opened UsageNormalization
  import CatalogPrices

  /** An observation within the contract, whose context is within the input bound too. */
  predicate Within(o: Observation, c: Contract, b: Bounds) {
    && Respects(o, c, b)
    && (KnownValue(o.pricingContext).Some? ==> KnownValue(o.pricingContext).value <= b.input)
  }

  /** The rate an input token is bounded by; nothing when there are none. */
  function Rate(p: ComponentPrices, c: Contract, b: Bounds): (rate: int)
    requires b.input > 0 ==> InputRate(p, c).Some?
  {
    if b.input > 0 then InputRate(p, c).value else 0
  }

  /** Counts within the bound that cost as much as the whole bound at the dearest rate. */
  predicate Fills(c: Contract, b: Bounds, p: ComponentPrices, input: nat, read: nat, write: nat)
    requires b.input > 0 ==> InputRate(p, c).Some?
  {
    var rate := Rate(p, c, b);
    && input + read + write <= b.input
    && (read > 0 ==> CacheReadCanApply(c)) && (write > 0 ==> c.inclusion.cacheWriteApplicable)
    && (rate == 0 ||
        (input + read + write == b.input && (input > 0 ==> p.input == Some(rate)) &&
         (read > 0 ==> p.cacheRead == Some(rate)) && (write > 0 ==> p.cacheWrite == Some(rate))))
  }

  /** In the given context, a report can have every input token of the bound charged at the dearest
      rate. */
  ghost predicate FullAt(c: Contract, b: Bounds, p: ComponentPrices, context: Option<nat>)
    requires b.input > 0 ==> InputRate(p, c).Some?
  {
    (context.Some? ==> context.value <= b.input) &&
    exists input, read, write :: Countable(c, context, input, read, write) && Fills(c, b, p, input, read, write)
  }

  /** A single field can hold the bound, unless it costs nothing. */
  predicate Holdable(bound: nat, price: Option<UnitPrice>) { bound <= FIELD_MAX || price == Some(0) }

  predicate OutputHoldable(c: Contract, b: Bounds, p: ComponentPrices) {
    Holdable(b.output, p.output) && (ReasoningIsSeparate(c) ==> Holdable(b.output, p.reasoning))
  }

  /** The context selects a list whose maximum is the overall one, and a report can fill it. */
  ghost predicate AttainableAt(base: ComponentPrices, tiers: seq<PriceTier>, c: Contract, b: Bounds, context: Option<nat>) {
    var p := PricesForContext(ModelV2(base, tiers), context);
    MaximumForPrices(p, c, b).Ok? && MaximumForPrices(p, c, b) == MaximumOverTiers(base, tiers, c, b) &&
    (b.input > 0 ==> InputRate(p, c).Some?) && FullAt(c, b, p, context) && OutputHoldable(c, b, p)
  }

  /** For an input bound that a single field holds, in closed form. Without a charge for input any
      context within the bound will do. Otherwise, if the reported input includes the cached part,
      the context is free only where cached or written tokens are as dear; if the categories exclude
      one another, the context is the bound; and it is unknown where it cannot be known or some
      category can be left unreported. */
  predicate FullInField(c: Contract, b: Bounds, p: ComponentPrices, context: Option<nat>)
    requires b.input > 0 ==> InputRate(p, c).Some?
  {
    var rate := Rate(p, c, b);
    var input, read := p.input == Some(rate), CacheReadCanApply(c) && p.cacheRead == Some(rate);
    var write := c.inclusion.cacheWriteApplicable && CacheReadable(c) && p.cacheWrite == Some(rate);
    match context
    case Some(n) =>
      && ContextKnowable(c) && n <= b.input
      && (rate == 0 || (if c.inclusion.inputIncludesCache then read || write || (input && n == b.input)
                        else n == b.input && (input || read || write)))
    case None =>
      rate == 0 || read || write || (input && (!ContextKnowable(c) || (!c.inclusion.inputIncludesCache && CacheReadable(c))))
  }

  lemma {:induction false} FullIsInField(c: Contract, b: Bounds, p: ComponentPrices, context: Option<nat>, input: nat, read: nat, write: nat)
    requires (b.input > 0 ==> InputRate(p, c).Some?) && b.input <= FIELD_MAX && (context.Some? ==> context.value <= b.input)
    requires Countable(c, context, input, read, write) && Fills(c, b, p, input, read, write)
    ensures FullInField(c, b, p, context)
  {}

  /** Counts that fill the bound, all in one category. */
  function OneCategory(c: Contract, b: Bounds, p: ComponentPrices, context: Option<nat>): (counts: (nat, nat, nat))
    requires b.input > 0 ==> InputRate(p, c).Some?
  {
    var rate := Rate(p, c, b);
    if rate == 0 then (if context.Some? then context.value else 0, 0, 0)
    else if CacheReadCanApply(c) && p.cacheRead == Some(rate) then (0, b.input, 0)
    else if c.inclusion.cacheWriteApplicable && CacheReadable(c) && p.cacheWrite == Some(rate) then (0, 0, b.input)
    else (b.input, 0, 0)
  }

  lemma {:induction false} FullInFieldIff(c: Contract, b: Bounds, p: ComponentPrices, context: Option<nat>)
    requires (b.input > 0 ==> InputRate(p, c).Some?) && b.input <= FIELD_MAX
    ensures FullAt(c, b, p, context) <==> FullInField(c, b, p, context)
  {
    if FullAt(c, b, p, context) {
      var input, read, write :| Countable(c, context, input, read, write) && Fills(c, b, p, input, read, write);
      FullIsInField(c, b, p, context, input, read, write);
    }
    if FullInField(c, b, p, context) {
      var counts := OneCategory(c, b, p, context);
      assert Countable(c, context, counts.0, counts.1, counts.2) && Fills(c, b, p, counts.0, counts.1, counts.2);
    }
  }

  /** Something a caller can work out from the prices, the contract and the bounds: only contexts
      up to the input bound, and the unknown one, need to be tried. */
  ghost predicate Attainable(base: ComponentPrices, tiers: seq<PriceTier>, c: Contract, b: Bounds) {
    exists context :: AttainableAt(base, tiers, c, b, context)
  }

  ghost predicate Attains(report: Option<Raw>, base: ComponentPrices, tiers: seq<PriceTier>, c: Contract, b: Bounds, m: int) {
    var o := Normalized(report, c, [], {});
    (report.Some? ==> Fits(report.value)) && Within(o, c, b) && Observed(o, c, Resolved(ModelV2(base, tiers))).total == m
  }

  // ----- Attained only if attainable -----

  /** Parts that together reach a bound at the dearest rate fill the bound, each at that rate. */
  lemma {:induction false} FullParts(x: nat, y: nat, z: nat, px: nat, py: nat, pz: nat, bound: nat, rate: nat)
    requires x + y + z <= bound && rate > 0
    requires (x > 0 ==> px <= rate) && (y > 0 ==> py <= rate) && (z > 0 ==> pz <= rate)
    requires x * px + y * py + z * pz == bound * rate
    ensures x + y + z == bound && (x > 0 ==> px == rate) && (y > 0 ==> py == rate) && (z > 0 ==> pz == rate)
  {
    PartWithin(x, px, rate);
    PartWithin(y, py, rate);
    PartWithin(z, pz, rate);
    assert (x + y + z) * rate == x * rate + y * rate + z * rate;
    if x + y + z < bound {
      MulMonoStrict(x + y + z, bound, rate);
      assert false;
    }
  }

  lemma {:induction false} PartWithin(x: nat, p: nat, rate: nat)
    requires x > 0 ==> p <= rate
    ensures x * p <= x * rate && (x * p == x * rate && x > 0 ==> p == rate)
  {
    if x > 0 {
      MulMono(p, rate, x);
      if p < rate {
        MulMonoStrict(p, rate, x);
      }
    }
  }

  function PriceOr0(price: Option<UnitPrice>): (p: int) { if price.Some? then price.value else 0 }

  /** If the input lines reach their part of the maximum, the counts fill the bound at the dearest
      rate, unless input is free. */
  lemma {:induction false} FullInput(o: Observation, c: Contract, b: Bounds, p: ComponentPrices)
    requires InRange(p) && Respects(o, c, b) && (b.input > 0 ==> InputRate(p, c).Some?)
    requires Charge(Line(o.input, p.input)) + Charge(Line(o.cacheRead, p.cacheRead)) + Charge(Line(o.cacheWrite, p.cacheWrite)) == InputPart(p, c, b)
    ensures Fills(c, b, p, Count(o.input), Count(o.cacheRead), Count(o.cacheWrite))
  {
    if Rate(p, c, b) != 0 {
      FullParts(Count(o.input), Count(o.cacheRead), Count(o.cacheWrite),
                PriceOr0(p.input), PriceOr0(p.cacheRead), PriceOr0(p.cacheWrite), b.input, Rate(p, c, b));
    }
  }

  /** A line that reaches its part of the maximum has a field that holds the bound, or costs
      nothing. */
  lemma {:induction false} FullLine(quantity: TokenMetric, bound: nat, price: Option<UnitPrice>)
    requires NonNegative(price) && Count(quantity) <= FIELD_MAX && Count(quantity) <= bound && (bound > 0 ==> price.Some?)
    requires Charge(Line(quantity, price)) == OutputPart(bound, price)
    ensures Holdable(bound, price)
  {
    if bound > FIELD_MAX && price.value > 0 {
      MulMonoStrict(Count(quantity), bound, price.value);
    }
  }

  /** Parts that reach the maximum of a list each reach their own bound. */
  lemma {:induction false} ReachedParts(p: ComponentPrices, c: Contract, b: Bounds, o: Observation)
    requires InRange(p) && Respects(o, c, b) && MaximumForPrices(p, c, b).Ok?
    requires TotalCharge(Lines(o, c, p)) == MaximumForPrices(p, c, b).value
    ensures b.input > 0 ==> InputRate(p, c).Some?
    ensures b.output > 0 ==> p.output.Some? && (ReasoningIsSeparate(c) ==> p.reasoning.Some?)
    ensures Charge(Line(o.input, p.input)) + Charge(Line(o.cacheRead, p.cacheRead)) + Charge(Line(o.cacheWrite, p.cacheWrite)) == InputPart(p, c, b)
    ensures Charge(Line(o.output, p.output)) == OutputPart(b.output, p.output)
    ensures ReasoningIsSeparate(c) ==> Charge(Line(o.reasoning, p.reasoning)) == OutputPart(b.output, p.reasoning)
  {
    MaximumParts(p, c, b);
    SevenCharges(Lines(o, c, p));
    InputWithin(o, c, b, p);
    OutputWithin(o.output, b.output, p.output);
    ReasoningWithin(o, c, b, p);
  }

  lemma {:induction false} AttainedIsAttainable(base: ComponentPrices, tiers: seq<PriceTier>, c: Contract, b: Bounds, report: Option<Raw>)
    requires AllInRange(base, tiers) && MaximumOverTiers(base, tiers, c, b).Ok?
    requires Attains(report, base, tiers, c, b, MaximumOverTiers(base, tiers, c, b).value)
    ensures AttainableAt(base, tiers, c, b, KnownValue(Normalized(report, c, [], {}).pricingContext))
  {
    var o := Normalized(report, c, [], {});
    var record, m := ModelV2(base, tiers), MaximumOverTiers(base, tiers, c, b).value;
    var p := PricesForContext(record, KnownValue(o.pricingContext));
    AttemptDominated(base, tiers, c, b, o);
    assert InRange(p) && AtMost(MaximumForPrices(p, c, b), m) by {
      OverTiersMeaning(base, tiers, c, b);
      SelectedFromRecord(record, KnownValue(o.pricingContext));
    }
    ObservedMeaning(o, c, record);
    ListDominates(p, c, b, o);
    ReachedIsFull(report, c, b, p);
  }

  lemma {:induction false} ReachedIsFull(report: Option<Raw>, c: Contract, b: Bounds, p: ComponentPrices)
    requires InRange(p) && (report.Some? ==> Fits(report.value)) && MaximumForPrices(p, c, b).Ok?
    requires var o := Normalized(report, c, [], {});
             Within(o, c, b) && TotalCharge(Lines(o, c, p)) == MaximumForPrices(p, c, b).value
    ensures b.input > 0 ==> InputRate(p, c).Some?
    ensures FullAt(c, b, p, KnownValue(Normalized(report, c, [], {}).pricingContext)) && OutputHoldable(c, b, p)
  {
    var o := Normalized(report, c, [], {});
    ReachedParts(p, c, b, o);
    CountsAreCountable(report, c, [], {});
    FullInput(o, c, b, p);
    FieldsHold(report, c);
    FullLine(o.output, b.output, p.output);
    if ReasoningIsSeparate(c) {
      FullLine(o.reasoning, b.output, p.reasoning);
    }
  }

  lemma {:induction false} FieldsHold(report: Option<Raw>, c: Contract)
    requires report.Some? ==> Fits(report.value)
    ensures var o := Normalized(report, c, [], {}); Count(o.output) <= FIELD_MAX && Count(o.reasoning) <= FIELD_MAX
  {}

  // ----- Attainable, then attained -----

  /** The bound if a field can hold it. */
  function Held(bound: nat): (field: Option<int>) { Some(if bound <= FIELD_MAX then bound else 0) }

  /** A report with the given counts in the given context, and everything else at its bound. */
  function Fill(c: Contract, b: Bounds, context: Option<nat>, input: nat, read: nat, write: nat): (raw: Raw) {
    var fields := FieldsFor(c, context, input, read, write);
    Raw(fields.0, fields.1, fields.2, Held(b.output), Held(b.output), None, None)
  }

  /** An observation with such counts and its output at the bound. */
  ghost predicate Filled(o: Observation, c: Contract, b: Bounds, context: Option<nat>, input: nat, read: nat, write: nat) {
    && Has(o, context, input, read, write)
    && Count(o.output) == Held(b.output).value
    && Count(o.reasoning) == (if c.inclusion.reasoningApplicable then Held(b.output).value else 0)
    && Count(o.inputAudio) == 0 && Count(o.outputAudio) == 0
  }

  lemma {:induction false} FillIsFilled(c: Contract, b: Bounds, context: Option<nat>, input: nat, read: nat, write: nat)
    requires Countable(c, context, input, read, write)
    ensures var raw := Fill(c, b, context, input, read, write);
            Fits(raw) && Filled(Normalized(Some(raw), c, [], {}), c, b, context, input, read, write)
  {
    CountableIsReported(c, context, input, read, write, Fill(c, b, context, input, read, write));
  }

  lemma {:induction false} FilledWithin(o: Observation, c: Contract, b: Bounds, p: ComponentPrices, context: Option<nat>, input: nat, read: nat, write: nat)
    requires Filled(o, c, b, context, input, read, write) && (b.input > 0 ==> InputRate(p, c).Some?) && Fills(c, b, p, input, read, write)
    requires context.Some? ==> context.value <= b.input
    ensures Within(o, c, b)
  {}

  lemma {:induction false} FilledInput(o: Observation, c: Contract, b: Bounds, p: ComponentPrices, input: nat, read: nat, write: nat)
    requires InRange(p) && (b.input > 0 ==> InputRate(p, c).Some?) && Fills(c, b, p, input, read, write)
    requires Count(o.input) == input && Count(o.cacheRead) == read && Count(o.cacheWrite) == write
    ensures Charge(Line(o.input, p.input)) + Charge(Line(o.cacheRead, p.cacheRead)) + Charge(Line(o.cacheWrite, p.cacheWrite)) == InputPart(p, c, b)
  {
    var rate := Rate(p, c, b);
    if rate == 0 {
      assert b.input > 0 ==> p.input == Some(0) && (read > 0 ==> p.cacheRead == Some(0)) && (write > 0 ==> p.cacheWrite == Some(0));
    } else {
      assert (input + read + write) * rate == input * rate + read * rate + write * rate;
    }
  }

  lemma {:induction false} HeldLine(quantity: TokenMetric, bound: nat, price: Option<UnitPrice>)
    requires Holdable(bound, price) && Count(quantity) == Held(bound).value && (bound > 0 ==> price.Some?)
    ensures Charge(Line(quantity, price)) == OutputPart(bound, price)
  {}

  lemma {:induction false} FilledReaches(o: Observation, c: Contract, b: Bounds, p: ComponentPrices, context: Option<nat>, input: nat, read: nat, write: nat)
    requires InRange(p) && MaximumForPrices(p, c, b).Ok? && (b.input > 0 ==> InputRate(p, c).Some?)
    requires Filled(o, c, b, context, input, read, write) && Fills(c, b, p, input, read, write) && OutputHoldable(c, b, p)
    ensures TotalCharge(Lines(o, c, p)) == MaximumForPrices(p, c, b).value
  {
    MaximumParts(p, c, b);
    SevenCharges(Lines(o, c, p));
    FilledInput(o, c, b, p, input, read, write);
    HeldLine(o.output, b.output, p.output);
    if ReasoningIsSeparate(c) {
      HeldLine(o.reasoning, b.output, p.reasoning);
    }
  }

  lemma {:induction false} AttainableIsAttained(base: ComponentPrices, tiers: seq<PriceTier>, c: Contract, b: Bounds, context: Option<nat>)
    returns (report: Option<Raw>)
    requires AllInRange(base, tiers) && AttainableAt(base, tiers, c, b, context)
    ensures Attains(report, base, tiers, c, b, MaximumOverTiers(base, tiers, c, b).value)
  {
    var record := ModelV2(base, tiers);
    var p := PricesForContext(record, context);
    SelectedFromRecord(record, context);
    var input, read, write :| Countable(c, context, input, read, write) && Fills(c, b, p, input, read, write);
    report := Some(Fill(c, b, context, input, read, write));
    var o := Normalized(report, c, [], {});
    FillIsFilled(c, b, context, input, read, write);
    FilledWithin(o, c, b, p, context, input, read, write);
    FilledReaches(o, c, b, p, context, input, read, write);
    MaximumParts(p, c, b);
    ObservedMeaning(o, c, record);
  }

  /** Some report within the bounds costs exactly the maximum of one attempt if and only if the
      maximum is attainable. */
  lemma {:induction false} AttainedIff(base: ComponentPrices, tiers: seq<PriceTier>, c: Contract, b: Bounds)
    requires AllInRange(base, tiers) && MaximumOverTiers(base, tiers, c, b).Ok?
    ensures (exists report :: Attains(report, base, tiers, c, b, MaximumOverTiers(base, tiers, c, b).value)) <==>
            Attainable(base, tiers, c, b)
  {
    var m := MaximumOverTiers(base, tiers, c, b).value;
    if report :| Attains(report, base, tiers, c, b, m) {
      AttainedIsAttainable(base, tiers, c, b, report);
    }
    if context :| AttainableAt(base, tiers, c, b, context) {
      var report := AttainableIsAttained(base, tiers, c, b, context);
    }
  }

  // ----- Over several attempts -----

  /** The observations a run of reports is normalised into. */
  function Observations(reports: seq<Option<Raw>>, c: Contract): (run: seq<Observation>)
    ensures |run| == |reports|
  {
    seq(|reports|, i requires 0 <= i < |reports| => Normalized(reports[i], c, [], {}))
  }

  predicate AllWithin(run: seq<Observation>, c: Contract, b: Bounds) {
    forall i :: 0 <= i < |run| ==> Within(run[i], c, b)
  }

  /** A run of reports within the bounds that costs the given total. */
  ghost predicate RunAttains(reports: seq<Option<Raw>>, base: ComponentPrices, tiers: seq<PriceTier>, c: Contract, b: Bounds, total: int) {
    AllFit(reports) && AllWithin(Observations(reports, c), c, b) && TotalObserved(Observations(reports, c), c, ModelV2(base, tiers)) == total
  }

  predicate AllFit(reports: seq<Option<Raw>>) {
    forall i :: 0 <= i < |reports| && reports[i].Some? ==> Fits(reports[i].value)
  }

  lemma {:induction false} LastAttains(reports: seq<Option<Raw>>, base: ComponentPrices, tiers: seq<PriceTier>, c: Contract, b: Bounds)
    requires AllInRange(base, tiers) && MaximumOverTiers(base, tiers, c, b).Ok? && reports != []
    requires RunAttains(reports, base, tiers, c, b, MaximumOverTiers(base, tiers, c, b).value * |reports|)
    ensures Attains(reports[|reports| - 1], base, tiers, c, b, MaximumOverTiers(base, tiers, c, b).value)
  {
    var last := reports[|reports| - 1];
    var run := Observations(reports, c);
    assert run[|run| - 1] == Normalized(last, c, [], {});
    LastReaches(run, base, tiers, c, b, MaximumOverTiers(base, tiers, c, b).value);
  }

  /** Where a whole run costs the maximum of each attempt, so does its last one. */
  lemma {:induction false} LastReaches(run: seq<Observation>, base: ComponentPrices, tiers: seq<PriceTier>, c: Contract, b: Bounds, m: int)
    requires AllInRange(base, tiers) && MaximumOverTiers(base, tiers, c, b) == Ok(m) && run != [] && AllWithin(run, c, b)
    requires TotalObserved(run, c, ModelV2(base, tiers)) == m * |run|
    ensures Observed(run[|run| - 1], c, Resolved(ModelV2(base, tiers))).total == m
  {
    var n := |run| - 1;
    assert forall i :: 0 <= i < n ==> Within(run[..n][i], c, b);
    RunDominated(base, tiers, c, b, run[..n]);
    AttemptDominated(base, tiers, c, b, run[n]);
    OneMore(m, n);
  }

  lemma {:induction false} RepeatAttains(report: Option<Raw>, base: ComponentPrices, tiers: seq<PriceTier>, c: Contract, b: Bounds, m: int, n: nat)
    returns (reports: seq<Option<Raw>>)
    requires Attains(report, base, tiers, c, b, m)
    ensures |reports| == n && RunAttains(reports, base, tiers, c, b, m * n)
  {
    if n == 0 {
      reports := [];
    } else {
      var before := RepeatAttains(report, base, tiers, c, b, m, n - 1);
      reports := before + [report];
      OneMoreAttains(before, report, base, tiers, c, b, m * (n - 1), m);
      OneMore(m, n - 1);
    }
  }

  lemma {:induction false} OneMoreAttains(reports: seq<Option<Raw>>, report: Option<Raw>, base: ComponentPrices, tiers: seq<PriceTier>,
                                          c: Contract, b: Bounds, total: int, m: int)
    requires RunAttains(reports, base, tiers, c, b, total) && Attains(report, base, tiers, c, b, m)
    ensures RunAttains(reports + [report], base, tiers, c, b, total + m)
  {
    var run, o := Observations(reports, c), Normalized(report, c, [], {});
    assert Observations(reports + [report], c) == run + [o];
    assert (run + [o])[..|run|] == run;
  }

  /** Some run of as many reports as attempts costs exactly the maximum if and only if the maximum
      is attainable; otherwise every such run costs less. */
  lemma {:induction false} MaximumAttainedIff(pricing: CatalogPrices.ModelPricing, c: Contract, b: Bounds, attempts: nat)
    requires MaximumRequestCost(pricing, c, b, attempts).Ok?
    ensures CatalogPrices.PricesFrom(pricing.rates).Some? && CatalogPrices.TiersFrom(pricing.tiers).Some?
    ensures var base, tiers := CatalogPrices.PricesFrom(pricing.rates).value, CatalogPrices.TiersFrom(pricing.tiers).value;
            (exists reports :: |reports| == attempts && RunAttains(reports, base, tiers, c, b, MaximumRequestCost(pricing, c, b, attempts).value)) <==>
            Attainable(base, tiers, c, b)
  {
    AcceptedInRange(pricing);
    RunAttainedIff(CatalogPrices.PricesFrom(pricing.rates).value, CatalogPrices.TiersFrom(pricing.tiers).value, c, b, attempts);
  }

  lemma {:induction false} RunAttainedIff(base: ComponentPrices, tiers: seq<PriceTier>, c: Contract, b: Bounds, attempts: nat)
    requires AllInRange(base, tiers) && attempts > 0 && MaximumForAttempts(base, tiers, c, b, attempts).Ok?
    ensures (exists reports :: |reports| == attempts && RunAttains(reports, base, tiers, c, b, MaximumForAttempts(base, tiers, c, b, attempts).value)) <==>
            Attainable(base, tiers, c, b)
  {
    var m := MaximumOverTiers(base, tiers, c, b).value;
    AttainedIff(base, tiers, c, b);
    if reports :| |reports| == attempts && RunAttains(reports, base, tiers, c, b, m * attempts) {
      LastAttains(reports, base, tiers, c, b);
    }
    if report :| Attains(report, base, tiers, c, b, m) {
      var reports := RepeatAttains(report, base, tiers, c, b, m, attempts);
    }
  }

  // ----- A maximum that no report attains -----

  const PER_MILLION: int := 100_000_000

  /** Input, output and cache-read prices in USD per million tokens. */
  function Prices(input: int, output: int, read: int): (p: ComponentPrices) {
    Rates(Some(input * PER_MILLION), Some(output * PER_MILLION), Some(read * PER_MILLION), None, None, None, None)
  }

  /** Base prices of 2, 10 and 1 with a dearer tier above 100 tokens, a request of 100 input and
      10 output tokens, and two attempts: the maximum is that of the tier, which no context within
      the input bound selects. */
  lemma {:induction false} TierOutOfReach(c: Contract)
    requires c.inclusion == Inclusion(false, true, false, true, true, false, false)
    requires c.cacheCapability.CacheSupported? && c.cacheEligibility.CacheEligible?
    ensures var base, tiers, b := Prices(2, 10, 1), [Tier(100, Prices(4, 20, 6))], Bounds(100, 10);
            MaximumForAttempts(base, tiers, c, b, 2) == Ok(1600 * PER_MILLION) && !Attainable(base, tiers, c, b)
  {
    var base, tiers, b := Prices(2, 10, 1), [Tier(100, Prices(4, 20, 6))], Bounds(100, 10);
    assert MaximumForPrices(base, c, b) == Ok(300 * PER_MILLION);
    assert MaximumForPrices(tiers[0].rates, c, b) == Ok(800 * PER_MILLION);
    assert tiers[..0] == [];
    assert MaximumOverTiers(base, tiers, c, b) == Ok(800 * PER_MILLION);
    forall context
      ensures !AttainableAt(base, tiers, c, b, context)
    {
      if context.Some? && context.value <= 100 {
        assert Reached(tiers, context.value) == 0;
      }
    }
  }
}
