/** Facts about built-in collections, each proved once. */
module Collections {
  lemma {:induction false} Assoc<T>(a: seq<T>, b: seq<T>, c: seq<T>)
    ensures (a + b) + c == a + (b + c)
  {}

  lemma {:induction false} LastApart<T>(a: seq<T>, b: seq<T>)
    requires b != []
    ensures a + b == (a + b[..|b| - 1]) + [b[|b| - 1]]
  {}

  lemma {:induction false} SubsetSize<T>(a: set<T>, b: set<T>)
    requires a <= b
    ensures |a| <= |b|
  {
    if a != {} {
      var x :| x in a;
      SubsetSize(a - {x}, b - {x});
    }
  }

  /** Some number is above every member of a finite set. */
  lemma {:induction false} NumberAbove(s: set<nat>) returns (n: nat)
    ensures forall x :: x in s ==> x < n
  {
    n := 0;
    if s != {} {
      var x :| x in s;
      var m := NumberAbove(s - {x});
      n := if x < m then m else x + 1;
      assert forall y :: y in s ==> y == x || y in s - {x};
    }
  }

  /** What each element yields, one after another. */
  function Gather<T, U>(f: T -> seq<U>, s: seq<T>): (r: seq<U>) {
    if s == [] then [] else Gather(f, s[..|s| - 1]) + f(s[|s| - 1])
  }

  lemma {:induction false} GatherAppend<T, U>(f: T -> seq<U>, a: seq<T>, b: seq<T>)
    ensures Gather(f, a + b) == Gather(f, a) + Gather(f, b)
  {
    if b == [] {
      assert a + b == a;
    } else {
      GatherAppend(f, a, b[..|b| - 1]);
      assert (a + b)[..|a + b| - 1] == a + b[..|b| - 1];
    }
  }

  lemma {:induction false} GatherOne<T, U>(f: T -> seq<U>, x: T)
    ensures Gather(f, [x]) == f(x)
  {
    assert [x][..0] == [];
    assert Gather(f, []) + f(x) == f(x);
  }

  lemma {:induction false} GatherMember<T, U>(f: T -> seq<U>, s: seq<T>, i: nat, u: U)
    requires i < |s| && u in f(s[i])
    ensures u in Gather(f, s)
  {
    if i < |s| - 1 {
      GatherMember(f, s[..|s| - 1], i, u);
    }
  }

  lemma {:induction false} GatherEmptyIff<T, U>(f: T -> seq<U>, s: seq<T>)
    ensures Gather(f, s) == [] <==> forall i :: 0 <= i < |s| ==> f(s[i]) == []
  {
    if s != [] {
      GatherEmptyIff(f, s[..|s| - 1]);
    }
  }

  lemma {:induction false} GatherSame<T, U>(f: T -> seq<U>, g: T -> seq<U>, s: seq<T>)
    requires forall i :: 0 <= i < |s| ==> f(s[i]) == g(s[i])
    ensures Gather(f, s) == Gather(g, s)
  {
    if s != [] {
      GatherSame(f, g, s[..|s| - 1]);
    }
  }

  lemma {:induction false} GatherLonger<T, U>(f: T -> seq<U>, g: T -> seq<U>, s: seq<T>)
    requires forall i :: 0 <= i < |s| ==> |f(s[i])| >= |g(s[i])|
    ensures |Gather(f, s)| >= |Gather(g, s)|
    ensures (exists i :: 0 <= i < |s| && |f(s[i])| > |g(s[i])|) ==> |Gather(f, s)| > |Gather(g, s)|
  {
    if s != [] {
      GatherLonger(f, g, s[..|s| - 1]);
      if i :| 0 <= i < |s| && |f(s[i])| > |g(s[i])| {
        assert i < |s| - 1 ==> s[..|s| - 1][i] == s[i];
      }
    }
  }
}
