/** How the counts a provider reports become the quantities that are priced, under the contract
    fixed for the attempt. */
module UsageNormalization {
  import opened Wrappers
  import opened ObservedCost

  /** The token fields of a usage report, as the provider sent them. */
  datatype Raw = Raw(
    input: Option<int>, cacheRead: Option<int>, cacheWrite: Option<int>, output: Option<int>,
    reasoning: Option<int>, inputAudio: Option<int>, outputAudio: Option<int>)

  /** Reported fields are signed 64-bit, and sums of counts unsigned 64-bit. */
  const FIELD_MAX: int := 0x7fff_ffff_ffff_ffff
  const COUNT_MODULUS: int := 0x1_0000_0000_0000_0000

  predicate FieldFits(field: Option<int>) {
    field.Some? ==> -FIELD_MAX - 1 <= field.value <= FIELD_MAX
  }

  predicate Fits(raw: Raw) {
    && FieldFits(raw.input) && FieldFits(raw.cacheRead) && FieldFits(raw.cacheWrite) && FieldFits(raw.output)
    && FieldFits(raw.reasoning) && FieldFits(raw.inputAudio) && FieldFits(raw.outputAudio)
  }

  function Classify(raw: Option<int>, applicable: bool): (m: TokenMetric) {
    if !applicable then NotApplicable
    else match raw
      case None => NotReported
      case Some(v) => if v < 0 then Unknown else ProviderReported(v)
  }

  predicate CacheReadable(c: Contract) { !c.cacheCapability.CacheUnsupported? }

  function ReportedInput(raw: Raw): (m: TokenMetric) { Classify(raw.input, true) }

  function CacheRead(raw: Raw, c: Contract): (m: TokenMetric) {
    if CacheReadable(c) && raw.cacheRead.None? && KnownValue(ReportedInput(raw)).Some? && c.inclusion.missingReadMeansZero
    then DerivedFromReported(0)
    else Classify(raw.cacheRead, CacheReadable(c))
  }

  function CacheWrite(raw: Raw, c: Contract): (m: TokenMetric) {
    Classify(raw.cacheWrite, CacheReadable(c) && c.inclusion.cacheWriteApplicable)
  }

  /** What is left of the reported input without its cached part, if the two can be told apart. */
  function Uncached(raw: Raw, c: Contract): (m: TokenMetric) {
    var reported, read := ReportedInput(raw), CacheRead(raw, c);
    if !c.inclusion.inputIncludesCache || KnownValue(reported).None? then reported
    else if read.NotApplicable? then ProviderReported(KnownValue(reported).value)
    else match KnownValue(read)
      case None => Unknown
      case Some(cached) =>
        if cached <= KnownValue(reported).value then DerivedFromReported(KnownValue(reported).value - cached) else Unknown
  }

  /** A field that does not apply adds nothing; an unknown one makes a sum impossible. */
  function Contribution(m: TokenMetric): (n: Option<nat>) {
    if m.NotApplicable? then Some(0) else KnownValue(m)
  }

  function EffectiveInput(raw: Raw, c: Contract): (m: TokenMetric) {
    var reported := ReportedInput(raw);
    if c.inclusion.inputIncludesCache then reported
    else if c.inclusion.categoriesExclusive then
      var read, write := Contribution(CacheRead(raw, c)), Contribution(CacheWrite(raw, c));
      if Contribution(reported).Some? && read.Some? && write.Some? &&
         Contribution(reported).value + read.value + write.value < COUNT_MODULUS
      then DerivedFromReported(Contribution(reported).value + read.value + write.value) else Unknown
    else Unknown
  }

  function PricingContext(raw: Raw, c: Contract): (m: TokenMetric) {
    if c.contextBasis.EffectiveInputBasis? then EffectiveInput(raw, c) else Unknown
  }

  /** The observation made of a report, or of its absence. Separately billed components and
      warnings, which no amount depends on, are handed in. */
  function Normalized(report: Option<Raw>, c: Contract, billable: seq<string>, warnings: set<Warning>): (o: Observation) {
    match report
    case None => Observation(Unknown, Unknown, Unknown, Unknown, Unknown, Unknown, Unknown, Unknown, billable, warnings)
    case Some(raw) =>
      Observation(Uncached(raw, c), CacheRead(raw, c), CacheWrite(raw, c), Classify(raw.output, true),
                  Classify(raw.reasoning, c.inclusion.reasoningApplicable),
                  Classify(raw.inputAudio, c.inclusion.audioApplicable), Classify(raw.outputAudio, c.inclusion.audioApplicable),
                  PricingContext(raw, c), billable, warnings)
  }

  /** A context can be known at all. */
  predicate ContextKnowable(c: Contract) {
    c.contextBasis.EffectiveInputBasis? && (c.inclusion.inputIncludesCache || c.inclusion.categoriesExclusive)
  }

  /** The context and the counts of uncached, cached and written input that some report can have.
      Where the reported input includes the cached part, it is the context: all of it is split into
      uncached and cached input, unless the split is unknown or contradictory, and then none is
      uncached. Where the categories exclude one another, their sum is the context, unless one of
      them is unknown or the sum does not fit. */
  predicate Countable(c: Contract, context: Option<nat>, input: nat, read: nat, write: nat) {
    var readable, writable := CacheReadable(c), CacheReadable(c) && c.inclusion.cacheWriteApplicable;
    && input <= FIELD_MAX && read <= FIELD_MAX && write <= FIELD_MAX
    && (read > 0 ==> readable) && (write > 0 ==> writable)
    && match context
       case Some(n) =>
         ContextKnowable(c) &&
         if c.inclusion.inputIncludesCache
         then n <= FIELD_MAX && (input + read == n || (input == 0 && readable && (read == 0 || read > n)))
         else n < COUNT_MODULUS && input + read + write == n
       case None =>
         if !ContextKnowable(c) then c.inclusion.inputIncludesCache && input > 0 ==> input + read <= FIELD_MAX
         else input == 0 ||
              (!c.inclusion.inputIncludesCache &&
               ((read == 0 && readable) || (write == 0 && writable) || input + read + write >= COUNT_MODULUS))
  }

  ghost predicate Has(o: Observation, context: Option<nat>, input: nat, read: nat, write: nat) {
    KnownValue(o.pricingContext) == context && Count(o.input) == input && Count(o.cacheRead) == read && Count(o.cacheWrite) == write
  }

  lemma {:induction false} CountsAreCountable(report: Option<Raw>, c: Contract, billable: seq<string>, warnings: set<Warning>)
    requires report.Some? ==> Fits(report.value)
    ensures var o := Normalized(report, c, billable, warnings);
            Countable(c, KnownValue(o.pricingContext), Count(o.input), Count(o.cacheRead), Count(o.cacheWrite))
  {}

  const UNREADABLE: Option<int> := Some(-1)

  /** Input, cached and written fields with the given context and counts. */
  function FieldsFor(c: Contract, context: Option<nat>, input: nat, read: nat, write: nat): (fields: (Option<int>, Option<int>, Option<int>)) {
    match context
    case Some(n) =>
      if !c.inclusion.inputIncludesCache then (Some(input), Some(read), Some(write))
      else (Some(n), if input + read == n || read > n then Some(read) else UNREADABLE, Some(write))
    case None =>
      if input == 0 then (None, Some(read), Some(write))
      else if !ContextKnowable(c) then (Some(if c.inclusion.inputIncludesCache then input + read else input), Some(read), Some(write))
      else if input + read + write >= COUNT_MODULUS then (Some(input), Some(read), Some(write))
      else if read == 0 && CacheReadable(c) then (Some(input), UNREADABLE, Some(write))
      else (Some(input), Some(read), UNREADABLE)
  }

  lemma {:induction false} CountableIsReported(c: Contract, context: Option<nat>, input: nat, read: nat, write: nat, raw: Raw)
    requires Countable(c, context, input, read, write)
    requires (raw.input, raw.cacheRead, raw.cacheWrite) == FieldsFor(c, context, input, read, write)
    ensures FieldFits(raw.input) && FieldFits(raw.cacheRead) && FieldFits(raw.cacheWrite)
    ensures Has(Normalized(Some(raw), c, [], {}), context, input, read, write)
  {}

  /** Exactly these contexts and counts occur. */
  lemma {:induction false} CountableIff(c: Contract, context: Option<nat>, input: nat, read: nat, write: nat)
    ensures Countable(c, context, input, read, write) <==>
            exists raw :: Fits(raw) && Has(Normalized(Some(raw), c, [], {}), context, input, read, write)
  {
    if Countable(c, context, input, read, write) {
      var fields := FieldsFor(c, context, input, read, write);
      var raw := Raw(fields.0, fields.1, fields.2, None, None, None, None);
      CountableIsReported(c, context, input, read, write, raw);
      assert Fits(raw);
    }
    if raw :| Fits(raw) && Has(Normalized(Some(raw), c, [], {}), context, input, read, write) {
      CountsAreCountable(Some(raw), c, [], {});
    }
  }
}
