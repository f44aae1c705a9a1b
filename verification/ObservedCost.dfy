/** The observed catalog cost of one attempt: reported quantities priced by the attempt's stored
    record, with checked arithmetic and a stable list of reasons for anything missing. */
module ObservedCost {
  import opened Wrappers
  import opened Money
  import opened PriceSelection

  datatype TokenMetric =
    | ProviderReported(value: nat)
    | DerivedFromReported(value: nat)
    | NotReported
    | NotApplicable
    | Unknown

  function KnownValue(m: TokenMetric): (r: Option<nat>) {
    match m
    case ProviderReported(v) => Some(v)
    case DerivedFromReported(v) => Some(v)
    case _ => None
  }

  /** The known count, or nothing at all. */
  function Count(m: TokenMetric): (n: nat) {
    if KnownValue(m).Some? then KnownValue(m).value else 0
  }

  datatype Warning = ProviderModelMismatch | FieldConflict | OtherWarning

  datatype Observation = Observation(
    input: TokenMetric, cacheRead: TokenMetric, cacheWrite: TokenMetric, output: TokenMetric,
    reasoning: TokenMetric, inputAudio: TokenMetric, outputAudio: TokenMetric,
    pricingContext: TokenMetric, billable: seq<string>, warnings: set<Warning>)

  datatype CacheCapability = CacheSupported | CacheUnsupported | CacheUnknown
  datatype CacheEligibility = CacheEligible | CacheNotRequested | CacheNotApplicable | EligibilityUnknown
  datatype PricingMode = DefaultMode | UnknownMode

  datatype ContextBasis = EffectiveInputBasis | UnknownBasis

  /** How a provider's token fields include one another. */
  datatype Inclusion = Inclusion(
    inputIncludesCache: bool, categoriesExclusive: bool, missingReadMeansZero: bool,
    reasoningIncludedInOutput: bool, reasoningApplicable: bool, audioApplicable: bool, cacheWriteApplicable: bool)

  datatype Contract = Contract(
    inclusion: Inclusion, cacheCapability: CacheCapability, cacheEligibility: CacheEligibility,
    contextBasis: ContextBasis, pricingMode: PricingMode)

  datatype CostReason =
    | CatalogUnavailable | ProviderMappingMissing | ModelMappingMissing | CostMissing
    | CatalogEntryInvalid | PricingRuleUnsupported | PricingRuleConflict | TierBasisUnavailable
    | PriceModeUnknown | UnmodeledBillableComponent | ComponentPriceMissing | UsageComponentMissing
    | UsageFieldConflict | ModelMismatch | ArithmeticOverflow

  datatype PriceResolution = Resolved(record: PriceRecord) | Unresolved(reason: CostReason)

  datatype CostStatus = Complete | Partial | Unavailable

  datatype Cost = Cost(total: int, status: CostStatus, reasons: seq<CostReason>)

  function UnavailableCost(reason: CostReason): (c: Cost) { Cost(0, Unavailable, [reason]) }

  // ----- One component -----

  /** A quantity and the price its component carries, if any. */
  datatype Line = Line(quantity: TokenMetric, price: Option<UnitPrice>)

  datatype Outcome = Priced(atoms: int) | Skip | PartialOutcome(reason: CostReason) | Overflow

  function PriceComponent(line: Line): (o: Outcome) {
    match KnownValue(line.quantity)
    case Some(count) =>
      if count == 0 then Priced(0)
      else if line.price.None? then PartialOutcome(ComponentPriceMissing)
      else
        var cost := ComponentCost(count, line.price.value);
        if cost.Some? then Priced(cost.value) else Overflow
    case None =>
      if line.quantity.NotApplicable? then Skip
      else if line.price.Some? then PartialOutcome(UsageComponentMissing)
      else Skip
  }

  /** What the line is worth: its known quantity at its price, and nothing otherwise. */
  function Charge(line: Line): (atoms: int) {
    if line.price.Some? then Count(line.quantity) * line.price.value else 0
  }

  function Lines(o: Observation, c: Contract, p: ComponentPrices): (lines: seq<Line>)
    ensures |lines| == 7
  {
    [Line(o.input, p.input),
     Line(o.cacheRead, p.cacheRead),
     Line(o.cacheWrite, p.cacheWrite),
     Line(o.output, p.output),
     Line(if c.inclusion.reasoningIncludedInOutput then NotApplicable else o.reasoning, p.reasoning),
     Line(o.inputAudio, p.inputAudio),
     Line(o.outputAudio, p.outputAudio)]
  }

  function TotalCharge(lines: seq<Line>): (atoms: int) {
    if lines == [] then 0 else TotalCharge(lines[..|lines| - 1]) + Charge(lines[|lines| - 1])
  }

  /** One more component: how the checked total moves on. */
  function Advance(total: Option<int>, outcome: Outcome): (r: Option<int>) {
    if total.None? || outcome.Overflow? then None
    else if outcome.Priced? then Checked(total.value + outcome.atoms)
    else total
  }

  /** The running total with every step checked: None once anything has overflowed. */
  function CheckedTotal(lines: seq<Line>): (total: Option<int>) {
    if lines == [] then Some(0)
    else
      Advance(CheckedTotal(lines[..|lines| - 1]), PriceComponent(lines[|lines| - 1]))
  }

  function ReasonOf(line: Line): (r: Option<CostReason>) {
    var o := PriceComponent(line);
    if o.PartialOutcome? then Some(o.reason) else None
  }

  // ----- Reasons -----

  function PushUnique(reasons: seq<CostReason>, reason: Option<CostReason>): (r: seq<CostReason>) {
    if reason.None? || reason.value in reasons then reasons else reasons + [reason.value]
  }

  function Collect(raised: seq<Option<CostReason>>): (r: seq<CostReason>) {
    if raised == [] then [] else PushUnique(Collect(raised[..|raised| - 1]), raised[|raised| - 1])
  }

  function LineReasons(lines: seq<Line>): (raised: seq<Option<CostReason>>) {
    seq(|lines|, i requires 0 <= i < |lines| => ReasonOf(lines[i]))
  }

  function When(b: bool, reason: CostReason): (r: Option<CostReason>) { if b then Some(reason) else None }

  function RecordReasons(o: Observation, c: Contract, record: PriceRecord): (raised: seq<Option<CostReason>>) {
    [When(c.pricingMode.UnknownMode?, PriceModeUnknown),
     When((record.CatalogV1? && record.unmodeledComponent) || o.billable != [], UnmodeledBillableComponent),
     When(record.CatalogV1? && record.unmodeledRule, PricingRuleUnsupported),
     When(HasContextTiers(record) && KnownValue(o.pricingContext).None?, TierBasisUnavailable),
     When(ProviderModelMismatch in o.warnings, ModelMismatch),
     When(FieldConflict in o.warnings, UsageFieldConflict)]
  }

  // ----- The whole attempt -----

  function Settle(lines: seq<Line>, further: seq<Option<CostReason>>): (cost: Cost) {
    var total := CheckedTotal(lines);
    if total.None? then UnavailableCost(ArithmeticOverflow)
    else
      var reasons := Collect(LineReasons(lines) + further);
      Cost(total.value, if reasons == [] then Complete else Partial, reasons)
  }

  function Observed(o: Observation, c: Contract, resolution: PriceResolution): (cost: Cost) {
    match resolution
    case Unresolved(reason) => UnavailableCost(reason)
    case Resolved(record) =>
      var prices := PricesForContext(record, KnownValue(o.pricingContext));
      Settle(Lines(o, c, prices), RecordReasons(o, c, record))
  }

  method ComputeObservedCost(o: Observation, c: Contract, resolution: PriceResolution) returns (cost: Cost)
    ensures cost == Observed(o, c, resolution)
  {
    if resolution.Unresolved? {
      return UnavailableCost(resolution.reason);
    }
    var record := resolution.record;
    var prices := PricesForContext(record, KnownValue(o.pricingContext));
    var lines := Lines(o, c, prices);
    var total, reasons, overflowed := AddComponents(lines);
    if overflowed {
      return UnavailableCost(ArithmeticOverflow);
    }
    reasons := PushFurther(reasons, LineReasons(lines), o, c, record);
    return Cost(total, if reasons == [] then Complete else Partial, reasons);
  }

  method AddComponents(lines: seq<Line>) returns (total: int, reasons: seq<CostReason>, overflowed: bool)
    ensures overflowed <==> CheckedTotal(lines).None?
    ensures !overflowed ==> CheckedTotal(lines) == Some(total) && reasons == Collect(LineReasons(lines))
  {
    total, reasons, overflowed := 0, [], false;
    for i := 0 to |lines|
      invariant CheckedTotal(lines[..i]) == Some(total)
      invariant reasons == Collect(LineReasons(lines[..i]))
    {
      NextComponent(lines, i);
      var outcome := PriceComponent(lines[i]);
      match outcome {
        case Priced(atoms) =>
          var sum := Checked(total + atoms);
          if sum.None? {
            OverflowStays(lines, i + 1);
            return 0, [], true;
          }
          total := sum.value;
        case Skip =>
        case PartialOutcome(reason) =>
          reasons := PushUnique(reasons, Some(reason));
        case Overflow =>
          OverflowStays(lines, i + 1);
          return 0, [], true;
      }
    }
    assert lines[..|lines|] == lines;
  }

  lemma {:induction false} NextComponent(lines: seq<Line>, i: nat)
    requires i < |lines|
    ensures CheckedTotal(lines[..i + 1]) == Advance(CheckedTotal(lines[..i]), PriceComponent(lines[i]))
    ensures Collect(LineReasons(lines[..i + 1])) == PushUnique(Collect(LineReasons(lines[..i])), ReasonOf(lines[i]))
  {
    assert lines[..i + 1][..i] == lines[..i];
    assert LineReasons(lines[..i + 1]) == LineReasons(lines[..i]) + [ReasonOf(lines[i])];
    CollectPush(LineReasons(lines[..i]), ReasonOf(lines[i]));
  }

  lemma {:induction false} OverflowStays(lines: seq<Line>, k: nat)
    requires k <= |lines| && CheckedTotal(lines[..k]).None?
    ensures CheckedTotal(lines).None?
    decreases |lines| - k
  {
    if k == |lines| {
      assert lines[..k] == lines;
    } else {
      assert lines[..k + 1][..k] == lines[..k];
      OverflowStays(lines, k + 1);
    }
  }

  method PushFurther(reasons: seq<CostReason>, ghost raised: seq<Option<CostReason>>,
                     o: Observation, c: Contract, record: PriceRecord) returns (r: seq<CostReason>)
    requires reasons == Collect(raised)
    ensures r == Collect(raised + RecordReasons(o, c, record))
  {
    ghost var f := RecordReasons(o, c, record);
    assert raised + f == raised + [f[0], f[1], f[2]] + [f[3], f[4], f[5]];
    r := PushUnique(reasons, When(c.pricingMode.UnknownMode?, PriceModeUnknown));
    r := PushUnique(r, When((record.CatalogV1? && record.unmodeledComponent) || o.billable != [], UnmodeledBillableComponent));
    r := PushUnique(r, When(record.CatalogV1? && record.unmodeledRule, PricingRuleUnsupported));
    CollectThree(raised, f[0], f[1], f[2]);
    r := PushUnique(r, When(HasContextTiers(record) && KnownValue(o.pricingContext).None?, TierBasisUnavailable));
    r := PushUnique(r, When(ProviderModelMismatch in o.warnings, ModelMismatch));
    r := PushUnique(r, When(FieldConflict in o.warnings, UsageFieldConflict));
    CollectThree(raised + [f[0], f[1], f[2]], f[3], f[4], f[5]);
  }

  type Raised = Option<CostReason>

  lemma {:induction false} CollectThree(raised: seq<Raised>, x: Raised, y: Raised, z: Raised)
    ensures Collect(raised + [x, y, z]) == PushUnique(PushUnique(PushUnique(Collect(raised), x), y), z)
  {
    assert raised + [x, y, z] == raised + [x] + [y] + [z];
    CollectPush(raised, x);
    CollectPush(raised + [x], y);
    CollectPush(raised + [x] + [y], z);
  }

  lemma {:induction false} CollectPush(raised: seq<Option<CostReason>>, next: Option<CostReason>)
    ensures Collect(raised + [next]) == PushUnique(Collect(raised), next)
  {
    assert (raised + [next])[..|raised|] == raised;
  }

  // ----- What the cost means -----

  /** The reasons are exactly those raised, each once. */
  lemma {:induction false} CollectMeaning(raised: seq<Option<CostReason>>, r: CostReason)
    ensures r in Collect(raised) <==> Some(r) in raised
    ensures forall i, j :: 0 <= i < j < |Collect(raised)| ==> Collect(raised)[i] != Collect(raised)[j]
  {
    if raised != [] {
      var n := |raised| - 1;
      CollectMeaning(raised[..n], r);
      assert raised == raised[..n] + [raised[n]];
    }
  }

  lemma {:induction false} CollectEmpty(raised: seq<Option<CostReason>>)
    ensures Collect(raised) == [] <==> forall i :: 0 <= i < |raised| ==> raised[i].None?
  {
    if raised != [] {
      CollectEmpty(raised[..|raised| - 1]);
    }
  }

  /** Unless something overflowed, the checked total is the sum of the charges. */
  lemma {:induction false} TotalIsSum(lines: seq<Line>)
    requires CheckedTotal(lines).Some?
    ensures CheckedTotal(lines).value == TotalCharge(lines)
  {
    if lines != [] {
      TotalIsSum(lines[..|lines| - 1]);
    }
  }

  /** The seven lines, added up. */
  lemma {:induction false} SevenCharges(lines: seq<Line>)
    requires |lines| == 7
    ensures TotalCharge(lines) ==
            Charge(lines[0]) + Charge(lines[1]) + Charge(lines[2]) + Charge(lines[3]) +
            Charge(lines[4]) + Charge(lines[5]) + Charge(lines[6])
  {
    ChargesUpTo(lines, 3);
    ChargesUpTo(lines, 2);
    ChargesUpTo(lines, 1);
    ChargesUpTo(lines, 0);
    ChargesUpTo(lines, 4);
    ChargesUpTo(lines, 5);
    ChargesUpTo(lines, 6);
    assert lines[..7] == lines;
  }

  lemma {:induction false} ChargesUpTo(lines: seq<Line>, k: nat)
    requires k < |lines|
    ensures TotalCharge(lines[..k + 1]) == TotalCharge(lines[..k]) + Charge(lines[k])
  {
    assert lines[..k + 1][..k] == lines[..k];
  }

  predicate LinesInRange(lines: seq<Line>) {
    forall i :: 0 <= i < |lines| ==> NonNegative(lines[i].price)
  }

  lemma {:induction false} ChargeNonNegative(line: Line)
    requires NonNegative(line.price)
    ensures 0 <= Charge(line)
  {}

  /** With non-negative prices, overflow means that the exact sum exceeds 128 bits. */
  lemma {:induction false} OverflowIff(lines: seq<Line>)
    requires LinesInRange(lines)
    ensures CheckedTotal(lines).Some? <==> TotalCharge(lines) <= I128_MAX
    ensures 0 <= TotalCharge(lines)
  {
    if lines != [] {
      var n := |lines| - 1;
      OverflowIff(lines[..n]);
      ChargeNonNegative(lines[n]);
      if CheckedTotal(lines[..n]).Some? {
        TotalIsSum(lines[..n]);
        LastStep(lines[n], TotalCharge(lines[..n]));
      }
    }
  }

  lemma {:induction false} LastStep(line: Line, before: nat)
    requires NonNegative(line.price) && before <= I128_MAX
    ensures var o := PriceComponent(line);
            before + Charge(line) <= I128_MAX <==> !o.Overflow? && (o.Priced? ==> before + o.atoms <= I128_MAX)
    ensures PriceComponent(line).Priced? ==> PriceComponent(line).atoms == Charge(line)
    ensures !PriceComponent(line).Priced? && !PriceComponent(line).Overflow? ==> Charge(line) == 0
  {
    ChargeNonNegative(line);
  }

  /** A positive quantity has a price, and a priced component has a known quantity or does not
      apply. */
  predicate Settled(line: Line) {
    && (Count(line.quantity) > 0 ==> line.price.Some?)
    && (line.price.Some? ==> KnownValue(line.quantity).Some? || line.quantity.NotApplicable?)
  }

  lemma {:induction false} SettledIff(line: Line)
    ensures ReasonOf(line).None? <==> Settled(line)
  {}

  /** Nothing about the record or the observation leaves the amount in doubt. */
  predicate Undoubted(o: Observation, c: Contract, record: PriceRecord) {
    && c.pricingMode.DefaultMode?
    && (record.CatalogV1? ==> !record.unmodeledComponent && !record.unmodeledRule)
    && o.billable == []
    && (HasContextTiers(record) ==> KnownValue(o.pricingContext).Some?)
    && ProviderModelMismatch !in o.warnings && FieldConflict !in o.warnings
  }

  lemma {:induction false} UndoubtedIff(o: Observation, c: Contract, record: PriceRecord)
    ensures (forall i :: 0 <= i < 6 ==> RecordReasons(o, c, record)[i].None?) <==> Undoubted(o, c, record)
  {
    var r := RecordReasons(o, c, record);
    assert (forall i :: 0 <= i < 6 ==> r[i].None?) <==>
           r[0].None? && r[1].None? && r[2].None? && r[3].None? && r[4].None? && r[5].None?;
  }

  /** The cost of a resolved attempt with non-negative prices: unavailable exactly when the exact
      sum exceeds 128 bits, otherwise the exact sum of the charges; and complete exactly when
      every line is settled and nothing else leaves the amount in doubt. */
  lemma {:induction false} ObservedMeaning(o: Observation, c: Contract, record: PriceRecord)
    requires InRange(PricesForContext(record, KnownValue(o.pricingContext)))
    ensures var lines := Lines(o, c, PricesForContext(record, KnownValue(o.pricingContext)));
            var cost := Observed(o, c, Resolved(record));
            && (cost.status.Unavailable? <==> TotalCharge(lines) > I128_MAX)
            && cost.total == (if cost.status.Unavailable? then 0 else TotalCharge(lines))
            && (cost.status.Complete? <==>
                  && TotalCharge(lines) <= I128_MAX
                  && (forall i :: 0 <= i < |lines| ==> Settled(lines[i]))
                  && Undoubted(o, c, record))
  {
    var lines := Lines(o, c, PricesForContext(record, KnownValue(o.pricingContext)));
    var further := RecordReasons(o, c, record);
    OverflowIff(lines);
    if CheckedTotal(lines).Some? {
      TotalIsSum(lines);
    }
    assert Collect(LineReasons(lines) + further) == [] <==> (forall i :: 0 <= i < |lines| ==> Settled(lines[i])) && Undoubted(o, c, record) by {
      UndoubtedIff(o, c, record);
      NoReasonIff(lines, further);
    }
  }

  lemma {:induction false} NoReasonIff(lines: seq<Line>, further: seq<Option<CostReason>>)
    ensures Collect(LineReasons(lines) + further) == [] <==>
            && (forall i :: 0 <= i < |lines| ==> Settled(lines[i]))
            && (forall i :: 0 <= i < |further| ==> further[i].None?)
  {
    var raised := LineReasons(lines) + further;
    CollectEmpty(raised);
    forall i | 0 <= i < |lines|
      ensures raised[i].None? <==> Settled(lines[i])
    {
      SettledIff(lines[i]);
    }
    assert forall i :: 0 <= i < |further| ==> further[i] == raised[|lines| + i];
    assert forall i :: |lines| <= i < |raised| ==> raised[i] == further[i - |lines|];
  }
}
