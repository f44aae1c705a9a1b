/** The price record stored with an attempt, the context tier it selects, and how a catalog's
    own tier list is ordered before it is stored. */
module PriceSelection {
  import opened Wrappers
  import opened Money
  import opened Tiers

  type PriceTier = Tier<ComponentPrices>

  datatype PriceRecord =
    | CatalogV1(prices: ComponentPrices, contextTier: Option<PriceTier>,
                unmodeledComponent: bool, unmodeledRule: bool)
    | ModelV2(prices: ComponentPrices, tiers: seq<PriceTier>)

  predicate HasContextTiers(record: PriceRecord) {
    match record
    case CatalogV1(_, tier, _, _) => tier.Some?
    case ModelV2(_, tiers) => tiers != []
  }

  /** How many leading tiers have a threshold strictly below the context. */
  function Reached<T>(tiers: seq<Tier<T>>, context: nat): (n: nat)
    ensures n <= |tiers|
    ensures n > 0 ==> tiers[n - 1].threshold < context
    ensures n < |tiers| ==> context <= tiers[n].threshold
  {
    if tiers == [] || context <= tiers[0].threshold then 0 else 1 + Reached(tiers[1..], context)
  }

  function PricesForContext(record: PriceRecord, context: Option<nat>): (p: ComponentPrices) {
    match context
    case None => record.prices
    case Some(tokens) =>
      match record
      case CatalogV1(prices, tier, _, _) =>
        if tier.Some? && tokens > tier.value.threshold then tier.value.rates else prices
      case ModelV2(prices, tiers) =>
        var n := Reached(tiers, tokens);
        if n == 0 then prices else tiers[n - 1].rates
  }

  function SelectedTierThreshold(record: PriceRecord, context: Option<nat>): (t: Option<nat>) {
    match context
    case None => None
    case Some(tokens) =>
      match record
      case CatalogV1(_, tier, _, _) =>
        if tier.Some? && tokens > tier.value.threshold then Some(tier.value.threshold) else None
      case ModelV2(_, tiers) =>
        var n := Reached(tiers, tokens);
        if n == 0 then None else Some(tiers[n - 1].threshold)
  }

  /** The tiers of a record, whatever its version. */
  function TiersOf(record: PriceRecord): (tiers: seq<PriceTier>) {
    match record
    case CatalogV1(_, tier, _, _) => if tier.Some? then [tier.value] else []
    case ModelV2(_, tiers) => tiers
  }

  /** Tier `i` has the greatest threshold strictly below the context. */
  predicate Governs<T>(tiers: seq<Tier<T>>, i: nat, context: nat) {
    && i < |tiers| && tiers[i].threshold < context
    && forall j :: 0 <= j < |tiers| && tiers[j].threshold < context ==> tiers[j].threshold <= tiers[i].threshold
  }

  predicate NoneBelow<T>(tiers: seq<Tier<T>>, context: nat) {
    forall j :: 0 <= j < |tiers| ==> context <= tiers[j].threshold
  }

  /** In an increasing list at most one tier governs. */
  lemma {:induction false} GovernsUnique<T>(tiers: seq<Tier<T>>, i: nat, j: nat, context: nat)
    requires Increasing(tiers) && Governs(tiers, i, context) && Governs(tiers, j, context)
    ensures i == j
  {
    assert tiers[i].threshold == tiers[j].threshold;
  }

  /** In an increasing list the last reached tier is the governing one. */
  lemma {:induction false} ReachedGoverns<T>(tiers: seq<Tier<T>>, context: nat)
    requires Increasing(tiers)
    ensures var n := Reached(tiers, context);
            if n == 0 then NoneBelow(tiers, context) else Governs(tiers, n - 1, context)
  {
    var n := Reached(tiers, context);
    forall j | 0 <= j < |tiers|
      ensures n <= j ==> context <= tiers[j].threshold
      ensures j < n ==> tiers[j].threshold <= tiers[n - 1].threshold
    {}
  }

  /** The price used is that of the greatest threshold strictly below the context, the base if
      there is none, and the reported threshold names that same tier. */
  lemma {:induction false} SelectsGreatestThreshold(record: PriceRecord, context: nat, i: nat)
    requires Increasing(TiersOf(record))
    ensures NoneBelow(TiersOf(record), context) ==>
              && PricesForContext(record, Some(context)) == record.prices
              && SelectedTierThreshold(record, Some(context)) == None
    ensures Governs(TiersOf(record), i, context) ==>
              && PricesForContext(record, Some(context)) == TiersOf(record)[i].rates
              && SelectedTierThreshold(record, Some(context)) == Some(TiersOf(record)[i].threshold)
  {
    if record.ModelV2? {
      var tiers := record.tiers;
      ReachedGoverns(tiers, context);
      var n := Reached(tiers, context);
      if n > 0 && Governs(tiers, i, context) {
        GovernsUnique(tiers, i, n - 1, context);
      }
    }
  }

  /** Whatever the context, the prices used are the base or those of one tier. */
  lemma {:induction false} SelectedFromRecord(record: PriceRecord, context: Option<nat>)
    ensures var p := PricesForContext(record, context);
            p == record.prices || exists i :: 0 <= i < |TiersOf(record)| && p == TiersOf(record)[i].rates
  {
    var tiers := TiersOf(record);
    match record
    case CatalogV1(_, tier, _, _) =>
      assert tier.Some? ==> tiers[0] == tier.value;
    case ModelV2(_, _) =>
      if context.Some? {
        var n := Reached(tiers, context.value);
        assert n > 0 ==> PricesForContext(record, context) == tiers[n - 1].rates;
      }
  }

  // ----- Ordering a catalog's tiers -----

  function InsertTier<T>(tier: Tier<T>, tiers: seq<Tier<T>>): (r: seq<Tier<T>>) {
    if tiers == [] || tier.threshold < tiers[0].threshold then [tier] + tiers
    else [tiers[0]] + InsertTier(tier, tiers[1..])
  }

  /** Stable ascending sort by threshold. */
  function SortTiers<T>(tiers: seq<Tier<T>>): (r: seq<Tier<T>>) {
    if tiers == [] then []
    else InsertTier(tiers[|tiers| - 1], SortTiers(tiers[..|tiers| - 1]))
  }

  predicate Ascending<T>(tiers: seq<Tier<T>>) {
    forall i, j :: 0 <= i < j < |tiers| ==> tiers[i].threshold <= tiers[j].threshold
  }

  predicate AdjacentEqual<T>(tiers: seq<Tier<T>>) {
    exists i :: 0 <= i < |tiers| - 1 && tiers[i].threshold == tiers[i + 1].threshold
  }

  predicate Distinct<T>(tiers: seq<Tier<T>>) {
    forall i, j :: 0 <= i < j < |tiers| ==> tiers[i].threshold != tiers[j].threshold
  }

  /** The catalog's explicit tiers: sorted, or refused when two thresholds coincide. */
  function CatalogTiers<T>(tiers: seq<Tier<T>>): (r: Option<seq<Tier<T>>>) {
    var sorted := SortTiers(tiers);
    if AdjacentEqual(sorted) then None else Some(sorted)
  }

  predicate AtLeast<T>(low: nat, tiers: seq<Tier<T>>) {
    forall i :: 0 <= i < |tiers| ==> low <= tiers[i].threshold
  }

  lemma {:induction false} InsertTierAtLeast<T>(tier: Tier<T>, tiers: seq<Tier<T>>, low: nat)
    requires AtLeast(low, tiers) && low <= tier.threshold
    ensures AtLeast(low, InsertTier(tier, tiers))
  {
    if !(tiers == [] || tier.threshold < tiers[0].threshold) {
      InsertTierAtLeast(tier, tiers[1..], low);
    }
  }

  lemma {:induction false} InsertTierAscending<T>(tier: Tier<T>, tiers: seq<Tier<T>>)
    requires Ascending(tiers)
    ensures Ascending(InsertTier(tier, tiers))
  {
    if !(tiers == [] || tier.threshold < tiers[0].threshold) {
      InsertTierAscending(tier, tiers[1..]);
      InsertTierAtLeast(tier, tiers[1..], tiers[0].threshold);
    }
  }

  lemma {:induction false} InsertTierKeeps<T>(tier: Tier<T>, tiers: seq<Tier<T>>)
    ensures multiset(InsertTier(tier, tiers)) == multiset(tiers) + multiset{tier}
  {
    if !(tiers == [] || tier.threshold < tiers[0].threshold) {
      InsertTierKeeps(tier, tiers[1..]);
      assert tiers == [tiers[0]] + tiers[1..];
    }
  }

  lemma {:induction false} SortTiersMeaning<T>(tiers: seq<Tier<T>>)
    ensures Ascending(SortTiers(tiers)) && multiset(SortTiers(tiers)) == multiset(tiers)
  {
    if tiers != [] {
      var init, last := tiers[..|tiers| - 1], tiers[|tiers| - 1];
      SortTiersMeaning(init);
      InsertTierAscending(last, SortTiers(init));
      InsertTierKeeps(last, SortTiers(init));
      assert tiers == init + [last];
    }
  }

  /** An accepted catalog list is the given tiers, rearranged into strictly increasing order. */
  lemma {:induction false} CatalogTiersAccepted<T>(tiers: seq<Tier<T>>)
    requires CatalogTiers(tiers).Some?
    ensures multiset(CatalogTiers(tiers).value) == multiset(tiers) && Increasing(CatalogTiers(tiers).value)
  {
    SortTiersMeaning(tiers);
    var s := SortTiers(tiers);
    forall i, j | 0 <= i < j < |s|
      ensures s[i].threshold < s[j].threshold
    {
      assert s[i].threshold != s[i + 1].threshold;
    }
  }

  /** It is refused exactly when two of the given thresholds coincide. */
  lemma {:induction false} CatalogTiersRefusedIff<T(!new)>(tiers: seq<Tier<T>>)
    ensures CatalogTiers(tiers).Some? <==> Distinct(tiers)
  {
    SortTiersMeaning(tiers);
    var s := SortTiers(tiers);
    if CatalogTiers(tiers).Some? {
      CatalogTiersAccepted(tiers);
      DistinctTransfers(s, tiers);
    } else if Distinct(tiers) {
      DistinctTransfers(tiers, s);
      assert false;
    }
  }

  lemma {:induction false} DistinctTransfers<T>(a: seq<Tier<T>>, b: seq<Tier<T>>)
    requires multiset(a) == multiset(b) && Distinct(a)
    ensures Distinct(b)
  {
    forall i, j | 0 <= i < j < |b|
      ensures b[i].threshold != b[j].threshold
    {
      assert b[i] in multiset(b) && b[j] in multiset(b);
      var k: nat :| k < |a| && a[k] == b[i];
      var l: nat :| l < |a| && a[l] == b[j];
      if k == l {
        OnlyOnce(a, k);
        TwiceCounts(b, i, j);
        assert false;
      }
    }
  }

  lemma {:induction false} OnlyOnce<T>(a: seq<Tier<T>>, k: nat)
    requires Distinct(a) && k < |a|
    ensures multiset(a)[a[k]] == 1
  {
    assert a == a[..k] + ([a[k]] + a[k + 1..]);
    assert a[k] !in a[..k] && a[k] !in a[k + 1..];
  }

  lemma {:induction false} TwiceCounts<T>(b: seq<T>, i: nat, j: nat)
    requires i < j < |b| && b[i] == b[j]
    ensures multiset(b)[b[i]] >= 2
  {
    assert b == b[..j] + ([b[j]] + b[j + 1..]);
    assert b[..j][i] == b[i];
    assert b[i] in multiset(b[..j]);
  }
}
