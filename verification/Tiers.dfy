/** Lists of context tiers: how a list is read, tier by tier, and written back. What a tier
    holds (texts or prices) is a parameter. */
module Tiers {
  import opened Wrappers

  const MAX_SAFE_INTEGER: nat := 9_007_199_254_740_991

  datatype Tier<+T> = Tier(threshold: nat, rates: T)

  /** Thresholds must be representable and strictly increasing, and every tier readable. */
  function Read<S, T>(read: S -> Option<T>, tiers: seq<Tier<S>>): (r: Option<seq<Tier<T>>>)
    ensures r.Some? ==> |r.value| == |tiers|
  {
    if tiers == [] then Some([])
    else
      var n := |tiers| - 1;
      var before, last := Read(read, tiers[..n]), tiers[n];
      var rates := read(last.rates);
      if before.None? || last.threshold > MAX_SAFE_INTEGER || (n > 0 && last.threshold <= tiers[n - 1].threshold) || rates.None?
      then None
      else Some(before.value + [Tier(last.threshold, rates.value)])
  }

  function Write<S, T>(write: T -> S, tiers: seq<Tier<T>>): (r: seq<Tier<S>>) {
    seq(|tiers|, i requires 0 <= i < |tiers| => Tier(tiers[i].threshold, write(tiers[i].rates)))
  }

  predicate Increasing<T>(tiers: seq<Tier<T>>) {
    forall i, j :: 0 <= i < j < |tiers| ==> tiers[i].threshold < tiers[j].threshold
  }

  predicate Representable<T>(tiers: seq<Tier<T>>) {
    forall i :: 0 <= i < |tiers| ==> tiers[i].threshold <= MAX_SAFE_INTEGER
  }

  /** An accepted list keeps its thresholds, in range, and reads every tier. */
  lemma {:induction false} AcceptedTier<S, T>(read: S -> Option<T>, tiers: seq<Tier<S>>, i: nat)
    requires Read(read, tiers).Some? && i < |tiers|
    ensures var r := Read(read, tiers).value;
            && r[i].threshold == tiers[i].threshold <= MAX_SAFE_INTEGER
            && read(tiers[i].rates) == Some(r[i].rates)
            && (i > 0 ==> tiers[i - 1].threshold < tiers[i].threshold)
  {
    var n := |tiers| - 1;
    if i < n {
      AcceptedTier(read, tiers[..n], i);
    }
  }

  lemma {:induction false} AcceptedIncreasingBetween<S, T>(read: S -> Option<T>, tiers: seq<Tier<S>>, i: nat, j: nat)
    requires Read(read, tiers).Some? && i < j < |tiers|
    ensures Read(read, tiers).value[i].threshold < Read(read, tiers).value[j].threshold
    decreases j
  {
    AcceptedTier(read, tiers, i);
    AcceptedTier(read, tiers, j);
    AcceptedTier(read, tiers, j - 1);
    if i < j - 1 {
      AcceptedIncreasingBetween(read, tiers, i, j - 1);
    }
  }

  /** An accepted list has strictly increasing, representable thresholds. */
  lemma {:induction false} AcceptedIsOrdered<S, T>(read: S -> Option<T>, tiers: seq<Tier<S>>)
    requires Read(read, tiers).Some?
    ensures Increasing(Read(read, tiers).value) && Representable(Read(read, tiers).value)
  {
    var r := Read(read, tiers).value;
    forall i, j | 0 <= i < j < |r|
      ensures r[i].threshold < r[j].threshold
    {
      AcceptedIncreasingBetween(read, tiers, i, j);
    }
    forall i | 0 <= i < |r|
      ensures r[i].threshold <= MAX_SAFE_INTEGER
    {
      AcceptedTier(read, tiers, i);
    }
  }

  /** Reading stops at the first tier that is out of order, out of range or unreadable. */
  method ReadInOrder<S, T>(read: S -> Option<T>, tiers: seq<Tier<S>>) returns (r: Option<seq<Tier<T>>>)
    ensures r == Read(read, tiers)
  {
    var previous: Option<nat> := None;
    var out: seq<Tier<T>> := [];
    for i := 0 to |tiers|
      invariant Read(read, tiers[..i]) == Some(out)
      invariant previous == if i == 0 then None else Some(tiers[i - 1].threshold)
    {
      var tier := tiers[i];
      assert tiers[..i + 1][..i] == tiers[..i];
      var rates := read(tier.rates);
      if tier.threshold > MAX_SAFE_INTEGER || (previous.Some? && tier.threshold <= previous.value) || rates.None? {
        RefusedPrefix(read, tiers, i + 1);
        return None;
      }
      out := out + [Tier(tier.threshold, rates.value)];
      previous := Some(tier.threshold);
    }
    assert tiers[..|tiers|] == tiers;
    return Some(out);
  }

  lemma {:induction false} RefusedPrefix<S, T>(read: S -> Option<T>, tiers: seq<Tier<S>>, k: nat)
    requires k <= |tiers| && Read(read, tiers[..k]).None?
    ensures Read(read, tiers).None?
    decreases |tiers| - k
  {
    if k < |tiers| {
      assert tiers[..k + 1][..k] == tiers[..k];
      RefusedPrefix(read, tiers, k + 1);
    } else {
      assert tiers[..k] == tiers;
    }
  }

  predicate AllFit<T>(fits: T -> bool, tiers: seq<Tier<T>>) {
    forall i :: 0 <= i < |tiers| ==> fits(tiers[i].rates)
  }

  /** Whatever was written reads back exactly where `fits` says, and is refused elsewhere. */
  predicate ReadsBack<S(==), T(==)>(read: S -> Option<T>, write: T -> S, fits: T -> bool, tiers: seq<Tier<T>>) {
    forall i :: 0 <= i < |tiers| ==>
      read(write(tiers[i].rates)) == if fits(tiers[i].rates) then Some(tiers[i].rates) else None
  }

  /** A round trip of the rates is a round trip of the ordered list that holds them. */
  lemma {:induction false} ListReadsBack<S, T>(read: S -> Option<T>, write: T -> S, fits: T -> bool, tiers: seq<Tier<T>>)
    requires ReadsBack(read, write, fits, tiers) && Increasing(tiers) && Representable(tiers)
    ensures Read(read, Write(write, tiers)) == if AllFit(fits, tiers) then Some(tiers) else None
  {
    if tiers != [] {
      var n := |tiers| - 1;
      ListReadsBack(read, write, fits, tiers[..n]);
      assert Write(write, tiers)[..n] == Write(write, tiers[..n]);
      assert tiers == tiers[..n] + [tiers[n]];
      assert AllFit(fits, tiers) <==> AllFit(fits, tiers[..n]) && fits(tiers[n].rates);
    }
  }
}
