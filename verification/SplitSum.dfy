/** Cost totals that the database sums in two 64-bit halves and the service puts back together. */
module SplitSum {
  import opened Wrappers

  const ATOM_SPLIT: nat := 1_000_000
  const I64_MAX: nat := 9_223_372_036_854_775_807
  const MAX_ROWS: nat := 1_000_000

  /** One attempt: its stored cost, and whether that cost is complete. */
  datatype Row = Row(atoms: nat, complete: bool)

  /** Stored costs are non-negative 64-bit integers. */
  predicate Storable(rows: seq<Row>) {
    forall i :: 0 <= i < |rows| ==> rows[i].atoms <= I64_MAX
  }

  function Counted(row: Row): (atoms: nat) { if row.complete then row.atoms else 0 }

  function CompleteHigh(rows: seq<Row>): (sum: nat) {
    if rows == [] then 0
    else CompleteHigh(rows[..|rows| - 1]) + Counted(rows[|rows| - 1]) / ATOM_SPLIT
  }

  function CompleteLow(rows: seq<Row>): (sum: nat) {
    if rows == [] then 0
    else CompleteLow(rows[..|rows| - 1]) + Counted(rows[|rows| - 1]) % ATOM_SPLIT
  }

  function CompleteAttempts(rows: seq<Row>): (n: nat) {
    if rows == [] then 0
    else CompleteAttempts(rows[..|rows| - 1]) + if rows[|rows| - 1].complete then 1 else 0
  }

  function Recombine(high: nat, low: nat): (atoms: nat) { high * ATOM_SPLIT + low }

  /** The reported total: absent when no attempt has a complete cost. */
  function CostTotal(rows: seq<Row>): (atoms: Option<nat>) {
    if CompleteAttempts(rows) > 0 then Some(Recombine(CompleteHigh(rows), CompleteLow(rows))) else None
  }

  /** The plain sum of the complete costs. */
  function PlainSum(rows: seq<Row>): (sum: nat) {
    if rows == [] then 0 else PlainSum(rows[..|rows| - 1]) + Counted(rows[|rows| - 1])
  }

  /** Splitting, summing and recombining loses nothing, for any list. */
  lemma {:induction false} SplitIsExact(rows: seq<Row>)
    ensures Recombine(CompleteHigh(rows), CompleteLow(rows)) == PlainSum(rows)
  {
    if rows != [] {
      SplitIsExact(rows[..|rows| - 1]);
    }
  }

  /** The total is the plain sum, and absent exactly when no row is complete. */
  lemma {:induction false} TotalIsPlainSum(rows: seq<Row>)
    ensures CostTotal(rows) == if (exists i :: 0 <= i < |rows| && rows[i].complete) then Some(PlainSum(rows)) else None
  {
    SplitIsExact(rows);
    AttemptsPositiveIff(rows);
  }

  lemma {:induction false} AttemptsPositiveIff(rows: seq<Row>)
    ensures CompleteAttempts(rows) > 0 <==> exists i :: 0 <= i < |rows| && rows[i].complete
  {
    if rows != [] {
      var n := |rows| - 1;
      AttemptsPositiveIff(rows[..n]);
      if rows[n].complete {
        assert rows[n].complete;
      } else if i :| 0 <= i < |rows| && rows[i].complete {
        assert rows[..n][i].complete;
      }
    }
  }

  /** The 64-bit accumulators hold every running total. */
  predicate Fits(rows: seq<Row>) {
    forall k :: 0 <= k <= |rows| ==> CompleteHigh(rows[..k]) <= I64_MAX && CompleteLow(rows[..k]) <= I64_MAX
  }

  lemma {:induction false} SumsBounded(rows: seq<Row>)
    requires Storable(rows)
    ensures CompleteHigh(rows) <= |rows| * (I64_MAX / ATOM_SPLIT)
    ensures CompleteLow(rows) <= |rows| * (ATOM_SPLIT - 1)
  {
    if rows != [] {
      SumsBounded(rows[..|rows| - 1]);
    }
  }

  lemma {:induction false} UpToAMillionFit(rows: seq<Row>)
    requires Storable(rows) && |rows| <= MAX_ROWS
    ensures Fits(rows)
  {
    forall k | 0 <= k <= |rows|
      ensures CompleteHigh(rows[..k]) <= I64_MAX && CompleteLow(rows[..k]) <= I64_MAX
    {
      SumsBounded(rows[..k]);
    }
  }

  function Largest(n: nat): (rows: seq<Row>)
    ensures |rows| == n && Storable(rows)
  {
    seq(n, _ => Row(I64_MAX, true))
  }

  lemma {:induction false} LargestHigh(n: nat)
    ensures CompleteHigh(Largest(n)) == n * (I64_MAX / ATOM_SPLIT)
  {
    if n > 0 {
      LargestHigh(n - 1);
      assert Largest(n)[..n - 1] == Largest(n - 1);
    }
  }

  /** Every list of n storable rows stays within 64 bits exactly when n is at most one million. */
  lemma {:induction false} FitsIff(n: nat)
    ensures (forall rows: seq<Row> :: |rows| == n && Storable(rows) ==> Fits(rows)) <==> n <= MAX_ROWS
  {
    if n <= MAX_ROWS {
      forall rows: seq<Row> | |rows| == n && Storable(rows)
        ensures Fits(rows)
      {
        UpToAMillionFit(rows);
      }
    } else {
      var rows := Largest(n);
      LargestHigh(n);
      assert rows[..n] == rows;
      assert !Fits(rows);
    }
  }

  /** Unsplit, two rows already overflow. */
  lemma {:induction false} PlainSumNeedsSplitting()
    ensures Storable(Largest(2)) && PlainSum(Largest(2)) > I64_MAX
  {
    assert Largest(2)[..1] == Largest(1) && Largest(1)[..0] == [];
    assert PlainSum(Largest(1)) == I64_MAX;
  }
}
