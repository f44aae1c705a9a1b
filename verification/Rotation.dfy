/** Ordering of route candidates: a stable sort by priority and account, then a round-robin
    rotation of each priority tier by a persistent 64-bit cursor. */
module Rotation {
  import opened Arith
  import opened Text

  type AccountId = string

  /** Cursors are unsigned 64-bit and wrap. */
  const CURSOR_MODULUS: nat := 0x1_0000_0000_0000_0000

  datatype Candidate = Candidate(accountId: AccountId, priority: nat, upstreamModel: string, stateful: bool)

  datatype SelectionKey = SelectionKey(routingScope: string, model: string, priority: nat)

  type Selections = map<SelectionKey, nat>

  // ----- Sorting -----

  predicate Before(a: Candidate, b: Candidate) {
    a.priority < b.priority || (a.priority == b.priority && Less(a.accountId, b.accountId))
  }

  predicate Ordered(s: seq<Candidate>) {
    forall i, j :: 0 <= i < j < |s| ==> !Before(s[j], s[i])
  }

  /** Insert after every element that does not come later, so equal elements keep their order. */
  function InsertSorted(s: seq<Candidate>, c: Candidate): (r: seq<Candidate>)
    ensures multiset(r) == multiset(s) + multiset{c}
  {
    if s == [] || !Before(c, s[|s| - 1]) then s + [c]
    else
      assert s == s[..|s| - 1] + [s[|s| - 1]];
      InsertSorted(s[..|s| - 1], c) + [s[|s| - 1]]
  }

  function Sort(s: seq<Candidate>): (r: seq<Candidate>)
    ensures multiset(r) == multiset(s)
  {
    if s == [] then []
    else
      assert s == s[..|s| - 1] + [s[|s| - 1]];
      InsertSorted(Sort(s[..|s| - 1]), s[|s| - 1])
  }

  lemma {:induction false} BeforeTransitive(a: Candidate, b: Candidate, c: Candidate)
    requires !Before(b, a) && !Before(c, b)
    ensures !Before(c, a)
  {
    if Before(c, a) {
      LessTotal(a.accountId, b.accountId);
      LessTotal(b.accountId, c.accountId);
      if Less(a.accountId, b.accountId) && Less(b.accountId, c.accountId) {
        LessTransitive(a.accountId, b.accountId, c.accountId);
      }
      LessTotal(a.accountId, c.accountId);
    }
  }

  lemma {:induction false} InsertKeepsOrder(s: seq<Candidate>, c: Candidate)
    requires Ordered(s)
    ensures Ordered(InsertSorted(s, c))
  {
    if s == [] {
    } else {
      var last := s[|s| - 1];
      if !Before(c, last) {
        forall i | 0 <= i < |s|
          ensures !Before(c, s[i])
        {
          if i < |s| - 1 {
            BeforeTransitive(s[i], last, c);
          }
        }
      } else {
        var init := s[..|s| - 1];
        InsertKeepsOrder(init, c);
        var r := InsertSorted(init, c);
        forall i | 0 <= i < |r|
          ensures !Before(last, r[i])
        {
          assert r[i] in multiset(r);
          assert r[i] in init || r[i] == c;
          LessTotal(c.accountId, last.accountId);
        }
      }
    }
  }

  lemma {:induction false} SortOrders(s: seq<Candidate>)
    ensures Ordered(Sort(s))
  {
    if s != [] {
      SortOrders(s[..|s| - 1]);
      InsertKeepsOrder(Sort(s[..|s| - 1]), s[|s| - 1]);
    }
  }

  // ----- Rotating tiers -----

  predicate PriorityOrdered(s: seq<Candidate>) {
    forall i, j :: 0 <= i < j < |s| ==> s[i].priority <= s[j].priority
  }

  /** How many leading candidates share the first one's priority. */
  function TierLength(s: seq<Candidate>, priority: nat): (n: nat)
    ensures n <= |s|
    ensures forall i :: 0 <= i < n ==> s[i].priority == priority
    ensures n < |s| ==> s[n].priority != priority
  {
    if s != [] && s[0].priority == priority then 1 + TierLength(s[1..], priority) else 0
  }

  function RotateLeft<T>(s: seq<T>, n: nat): (r: seq<T>)
    requires n <= |s|
    ensures |r| == |s| && multiset(r) == multiset(s)
    ensures n < |s| ==> r[0] == s[n]
    ensures forall x :: x in r ==> x in s
  {
    assert s == s[..n] + s[n..];
    s[n..] + s[..n]
  }

  function Cursor(selections: Selections, key: SelectionKey): (c: nat) {
    if key in selections then selections[key] else 0
  }

  /** Which candidate of a tier a cursor points at. */
  function HeadIndex(cursor: nat, length: nat): (i: nat)
    requires length > 0
    ensures i < length
  {
    if cursor < length then cursor else HeadIndex(cursor - length, length)
  }

  lemma {:induction false} HeadIndexIsRemainder(cursor: nat, length: nat)
    requires length > 0
    ensures HeadIndex(cursor, length) == cursor % length
  {
    if cursor < length {
      DivModUnique(cursor, length, 0, cursor);
    } else {
      HeadIndexIsRemainder(cursor - length, length);
      var q, r := (cursor - length) / length, (cursor - length) % length;
      assert (q + 1) * length == q * length + length;
      DivModUnique(cursor, length, q + 1, r);
    }
  }

  /** One tier, turned by its cursor. */
  function TurnTier(cursor: nat, tier: seq<Candidate>): (r: seq<Candidate>)
    ensures |r| == |tier| && multiset(r) == multiset(tier)
    ensures forall x :: x in r ==> x in tier
  {
    if |tier| > 1 then RotateLeft(tier, HeadIndex(cursor, |tier|)) else tier
  }

  /** Adding one to a 64-bit cursor. */
  function WrappingNext(c: nat): (r: nat) {
    if c + 1 >= CURSOR_MODULUS then 0 else c + 1
  }

  function Advance(selections: Selections, key: SelectionKey, tierLength: nat): (r: Selections) {
    if tierLength > 1 then selections[key := WrappingNext(Cursor(selections, key))] else selections
  }

  /** The candidates with every tier turned, tier by tier, each reading its cursor as the
      tiers before it left the cursors. */
  function Rotate(selections: Selections, scope: string, model: string, s: seq<Candidate>): (r: seq<Candidate>)
    ensures |r| == |s|
    decreases |s|
  {
    if s == [] then []
    else
      var n, key := TierLength(s, s[0].priority), SelectionKey(scope, model, s[0].priority);
      TurnTier(Cursor(selections, key), s[..n]) + Rotate(Advance(selections, key, n), scope, model, s[n..])
  }

  /** The cursors after rotating. */
  function Rotated(selections: Selections, scope: string, model: string, s: seq<Candidate>): (r: Selections)
    decreases |s|
  {
    if s == [] then selections
    else
      var n, key := TierLength(s, s[0].priority), SelectionKey(scope, model, s[0].priority);
      Rotated(Advance(selections, key, n), scope, model, s[n..])
  }

  lemma {:induction false} SamePieces(s: seq<Candidate>, n: nat, a: seq<Candidate>, b: seq<Candidate>)
    requires n <= |s| && multiset(a) == multiset(s[..n]) && multiset(b) == multiset(s[n..])
    ensures multiset(a + b) == multiset(s)
  {
    assert s == s[..n] + s[n..];
  }

  /** Rotation permutes the candidates. */
  lemma {:induction false} RotationPermutes(selections: Selections, scope: string, model: string, s: seq<Candidate>)
    ensures multiset(Rotate(selections, scope, model, s)) == multiset(s)
    decreases |s|
  {
    if s != [] {
      var n, key := TierLength(s, s[0].priority), SelectionKey(scope, model, s[0].priority);
      var next := Advance(selections, key, n);
      RotationPermutes(next, scope, model, s[n..]);
      SamePieces(s, n, TurnTier(Cursor(selections, key), s[..n]), Rotate(next, scope, model, s[n..]));
    }
  }

  lemma {:induction false} TurnKeepsPriority(cursor: nat, tier: seq<Candidate>, priority: nat)
    requires forall i :: 0 <= i < |tier| ==> tier[i].priority == priority
    ensures forall i :: 0 <= i < |tier| ==> TurnTier(cursor, tier)[i].priority == priority
  {}

  /** Rotation leaves every position at its priority, so priorities stay non-decreasing. */
  lemma {:induction false} RotationKeepsPriority(selections: Selections, scope: string, model: string, s: seq<Candidate>, i: nat)
    requires i < |s|
    ensures Rotate(selections, scope, model, s)[i].priority == s[i].priority
    decreases |s|
  {
    var n, key := TierLength(s, s[0].priority), SelectionKey(scope, model, s[0].priority);
    if i < n {
      TurnKeepsPriority(Cursor(selections, key), s[..n], s[0].priority);
    } else {
      RotationKeepsPriority(Advance(selections, key, n), scope, model, s[n..], i - n);
    }
  }

  // ----- Who heads a tier -----

  predicate NoneAt(s: seq<Candidate>, priority: nat) {
    forall c :: c in s ==> c.priority != priority
  }

  predicate AllAt(s: seq<Candidate>, priority: nat) {
    forall c :: c in s ==> c.priority == priority
  }

  /** `tier` holds all candidates of one priority, with the others around it. */
  predicate IsTier(before: seq<Candidate>, tier: seq<Candidate>, after: seq<Candidate>, priority: nat) {
    tier != [] && NoneAt(before, priority) && AllAt(tier, priority) && NoneAt(after, priority)
  }

  lemma {:induction false} FirstTierEnds(before: seq<Candidate>, tier: seq<Candidate>, after: seq<Candidate>, priority: nat)
    requires IsTier(before, tier, after, priority)
    ensures var s := before + tier + after;
            var n := TierLength(s, s[0].priority);
            if before == [] then n == |tier| && s[..n] == tier && s[n..] == after
            else 0 < n <= |before| && s[n..] == before[n..] + tier + after && s[0].priority != priority
  {
    var s := before + tier + after;
    var n := TierLength(s, s[0].priority);
    assert s[|before|] == tier[0];
    if before == [] {
      assert forall i | 0 <= i < |tier| :: s[i] == tier[i];
      assert after != [] ==> s[|tier|] == after[0];
    } else {
      assert s[0] == before[0];
    }
  }

  /** One rotation puts the candidate its cursor points at first in its tier, and moves
      the cursor of a tier with a choice by one. */
  lemma {:induction false} TierHead(selections: Selections, scope: string, model: string,
                                    before: seq<Candidate>, tier: seq<Candidate>, after: seq<Candidate>, priority: nat)
    requires IsTier(before, tier, after, priority)
    ensures var s := before + tier + after;
            var key := SelectionKey(scope, model, priority);
            var c := Cursor(selections, key);
            && Rotate(selections, scope, model, s)[|before|] == tier[HeadIndex(c, |tier|)]
            && Cursor(Rotated(selections, scope, model, s), key) ==
               if |tier| > 1 then WrappingNext(c) else c
    decreases |before|
  {
    if before == [] {
      FirstTierHead(selections, scope, model, before + tier + after, tier, after, priority) by {
        FirstTierEnds(before, tier, after, priority);
      }
    } else {
      var s := before + tier + after;
      var n := TierLength(s, s[0].priority);
      FirstTierEnds(before, tier, after, priority);
      TierHead(Advance(selections, SelectionKey(scope, model, s[0].priority), n), scope, model, before[n..], tier, after, priority);
    }
  }

  lemma {:induction false} FirstTierHead(selections: Selections, scope: string, model: string,
                                         s: seq<Candidate>, tier: seq<Candidate>, after: seq<Candidate>, priority: nat)
    requires IsTier([], tier, after, priority) && s != [] && s[0].priority == priority
    requires var n := TierLength(s, priority); n == |tier| && s[..n] == tier && s[n..] == after
    ensures var key := SelectionKey(scope, model, priority);
            var c := Cursor(selections, key);
            && Rotate(selections, scope, model, s)[0] == tier[HeadIndex(c, |tier|)]
            && Cursor(Rotated(selections, scope, model, s), key) == if |tier| > 1 then WrappingNext(c) else c
  {
    var key := SelectionKey(scope, model, priority);
    OtherTiersLeaveCursor(Advance(selections, key, |tier|), scope, model, after, key);
  }

  lemma {:induction false} OtherTiersLeaveCursor(selections: Selections, scope: string, model: string, s: seq<Candidate>, key: SelectionKey)
    requires NoneAt(s, key.priority)
    ensures Cursor(Rotated(selections, scope, model, s), key) == Cursor(selections, key)
    decreases |s|
  {
    if s != [] {
      var n, first := TierLength(s, s[0].priority), SelectionKey(scope, model, s[0].priority);
      OtherTiersLeaveCursor(Advance(selections, first, n), scope, model, s[n..], key);
    }
  }

  // ----- Fairness over consecutive rotations -----

  /** One rotation, for a scope and a model. */
  datatype Call = Call(scope: string, model: string, routes: seq<Candidate>)

  /** The cursors after a run of rotations, of any scopes and models. */
  function After(selections: Selections, calls: seq<Call>): (r: Selections) {
    if calls == [] then selections
    else
      var last := calls[|calls| - 1];
      Rotated(After(selections, calls[..|calls| - 1]), last.scope, last.model, last.routes)
  }

  /** Where the candidates of a priority start; the length if there are none. */
  function FirstAt(s: seq<Candidate>, priority: nat): (i: nat)
    ensures i <= |s| && NoneAt(s[..i], priority)
    ensures if NoneAt(s, priority) then i == |s| else i < |s| && s[i].priority == priority
  {
    if s == [] || s[0].priority == priority then 0
    else
      var i := FirstAt(s[1..], priority);
      assert s == [s[0]] + s[1..] && s[..i + 1] == [s[0]] + s[1..][..i];
      i + 1
  }

  /** The candidates of a priority are exactly the tier, in its order, wherever they start. */
  predicate HasTier(s: seq<Candidate>, tier: seq<Candidate>, priority: nat) {
    var i := FirstAt(s, priority);
    i + |tier| <= |s| && s[i..i + |tier|] == tier && NoneAt(s[i + |tier|..], priority)
  }

  /** The call turns the tier of the key. */
  predicate TurnsTier(call: Call, key: SelectionKey) {
    call.scope == key.routingScope && call.model == key.model && !NoneAt(call.routes, key.priority)
  }

  /** Every call that turns the tier of the key finds the same candidates in it, whoever comes
      before or after them in the other tiers. */
  predicate Steady(calls: seq<Call>, key: SelectionKey, tier: seq<Candidate>) {
    && tier != [] && AllAt(tier, key.priority)
    && (forall i :: 0 <= i < |calls| && TurnsTier(calls[i], key) ==> HasTier(calls[i].routes, tier, key.priority))
  }

  /** Who the calls that turn the tier of the key show first in it, in order. */
  function Shown(selections: Selections, calls: seq<Call>, key: SelectionKey): (heads: seq<Candidate>) {
    if calls == [] then []
    else
      var init, last := calls[..|calls| - 1], calls[|calls| - 1];
      var sofar := Shown(selections, init, key);
      if TurnsTier(last, key)
      then sofar + [Rotate(After(selections, init), last.scope, last.model, last.routes)[FirstAt(last.routes, key.priority)]]
      else sofar
  }

  function CursorAfter(c: nat, k: nat): (r: nat)
    requires c < CURSOR_MODULUS && k <= CURSOR_MODULUS
  {
    if c + k < CURSOR_MODULUS then c + k else c + k - CURSOR_MODULUS
  }

  /** Which candidate of a tier of `length` heads it in round `k`, from cursor `c`. */
  function HeadInRound(c: nat, length: nat, k: nat): (i: nat)
    requires c < CURSOR_MODULUS && 0 < length && k <= CURSOR_MODULUS
  {
    HeadIndex(CursorAfter(c, k), length)
  }

  ghost predicate HeadsSomeRound(c: nat, length: nat, i: nat)
    requires c < CURSOR_MODULUS && 0 < length <= CURSOR_MODULUS
  {
    exists k :: 0 <= k < length && HeadInRound(c, length, k) == i
  }

  /** Over `length` rounds every candidate of the tier heads it, and none twice. */
  ghost predicate EachHeadsOnce(c: nat, length: nat)
    requires c < CURSOR_MODULUS && 0 < length <= CURSOR_MODULUS
  {
    && (forall i :: 0 <= i < length ==> HeadsSomeRound(c, length, i))
    && (forall j, k :: 0 <= j < k < length ==> HeadInRound(c, length, j) != HeadInRound(c, length, k))
  }

  lemma {:induction false} OtherCallLeavesCursor(selections: Selections, scope: string, model: string, s: seq<Candidate>, key: SelectionKey)
    requires key.routingScope != scope || key.model != model
    ensures Cursor(Rotated(selections, scope, model, s), key) == Cursor(selections, key)
    decreases |s|
  {
    if s != [] {
      var n, first := TierLength(s, s[0].priority), SelectionKey(scope, model, s[0].priority);
      OtherCallLeavesCursor(Advance(selections, first, n), scope, model, s[n..], key);
    }
  }

  lemma {:induction false} CallLeavesCursor(selections: Selections, call: Call, key: SelectionKey)
    requires !TurnsTier(call, key)
    ensures Cursor(Rotated(selections, call.scope, call.model, call.routes), key) == Cursor(selections, key)
  {
    if call.scope == key.routingScope && call.model == key.model {
      OtherTiersLeaveCursor(selections, call.scope, call.model, call.routes, key);
    } else {
      OtherCallLeavesCursor(selections, call.scope, call.model, call.routes, key);
    }
  }

  lemma {:induction false} TierHeadAt(now: Selections, call: Call, key: SelectionKey, tier: seq<Candidate>, before: seq<Candidate>, after: seq<Candidate>)
    requires TurnsTier(call, key) && call.routes == before + tier + after && IsTier(before, tier, after, key.priority)
    ensures Rotate(now, call.scope, call.model, call.routes)[|before|] == tier[HeadIndex(Cursor(now, key), |tier|)]
    ensures Cursor(Rotated(now, call.scope, call.model, call.routes), key) ==
            if |tier| > 1 then WrappingNext(Cursor(now, key)) else Cursor(now, key)
  {
    TierHead(now, call.scope, call.model, before, tier, after, key.priority);
  }

  /** In a list ordered by priority, nothing after the first tier has its priority. */
  lemma {:induction false} NoneAfterFirstTier(s: seq<Candidate>)
    requires PriorityOrdered(s) && s != []
    ensures var n := TierLength(s, s[0].priority); n > 0 && AllAt(s[..n], s[0].priority) && NoneAt(s[n..], s[0].priority)
  {
    var n := TierLength(s, s[0].priority);
    forall j | n <= j < |s|
      ensures s[j].priority != s[0].priority
    {
      assert s[0].priority <= s[n].priority <= s[j].priority;
    }
  }

  lemma {:induction false} ThreeParts(s: seq<Candidate>, i: nat, n: nat)
    requires i + n <= |s|
    ensures s == s[..i] + s[i..][..n] + s[i..][n..]
  {}

  /** So the candidates of one priority are a tier. */
  lemma {:induction false} OrderedHasTier(s: seq<Candidate>, priority: nat) returns (before: seq<Candidate>, tier: seq<Candidate>, after: seq<Candidate>)
    requires PriorityOrdered(s) && !NoneAt(s, priority)
    ensures s == before + tier + after && IsTier(before, tier, after, priority)
  {
    var i := FirstAt(s, priority);
    var rest := s[i..];
    var n := TierLength(rest, priority);
    before, tier, after := s[..i], rest[..n], rest[n..];
    ThreeParts(s, i, n);
    NoneAfterFirstTier(rest);
  }

  /** So a rotation moves a cursor by at most one. */
  lemma {:induction false} CallMovesCursor(selections: Selections, call: Call, key: SelectionKey)
    requires PriorityOrdered(call.routes)
    ensures Cursor(Rotated(selections, call.scope, call.model, call.routes), key) in
            {Cursor(selections, key), WrappingNext(Cursor(selections, key))}
  {
    if TurnsTier(call, key) {
      var before, tier, after := OrderedHasTier(call.routes, key.priority);
      TierHeadAt(selections, call, key, tier, before, after);
    } else {
      CallLeavesCursor(selections, call, key);
    }
  }

  /** The rotations of an unchanged tier move its cursor on, one by one, whatever happens to the
      other tiers and whatever other scopes and models are rotated in between. */
  lemma {:induction false} ShownCursor(selections: Selections, calls: seq<Call>, key: SelectionKey, tier: seq<Candidate>)
    requires |tier| > 1 && Steady(calls, key, tier)
    requires Cursor(selections, key) < CURSOR_MODULUS && |Shown(selections, calls, key)| <= CURSOR_MODULUS
    ensures Cursor(After(selections, calls), key) == CursorAfter(Cursor(selections, key), |Shown(selections, calls, key)|)
  {
    if calls != [] {
      var init, last := calls[..|calls| - 1], calls[|calls| - 1];
      ShownCursor(selections, init, key, tier);
      if TurnsTier(last, key) {
        OneMoreHead(After(selections, init), last, key, tier, Cursor(selections, key), |Shown(selections, init, key)|);
      } else {
        CallLeavesCursor(After(selections, init), last, key);
      }
    }
  }

  /** So the k-th of them shows the candidate k places on from the cursor first. */
  lemma {:induction false} ShownHead(selections: Selections, calls: seq<Call>, key: SelectionKey, tier: seq<Candidate>, k: nat)
    requires Steady(calls, key, tier)
    requires Cursor(selections, key) < CURSOR_MODULUS && k < |Shown(selections, calls, key)| <= CURSOR_MODULUS
    ensures Shown(selections, calls, key)[k] == tier[HeadInRound(Cursor(selections, key), |tier|, k)]
  {
    var init, last := calls[..|calls| - 1], calls[|calls| - 1];
    var sofar := Shown(selections, init, key);
    if k < |sofar| {
      ShownHead(selections, init, key, tier, k);
    } else {
      if |tier| > 1 {
        ShownCursor(selections, init, key, tier);
      }
      OneMoreHead(After(selections, init), last, key, tier, Cursor(selections, key), k);
    }
  }

  lemma {:induction false} OneMoreHead(now: Selections, call: Call, key: SelectionKey, tier: seq<Candidate>, c: nat, k: nat)
    requires TurnsTier(call, key) && tier != [] && AllAt(tier, key.priority) && HasTier(call.routes, tier, key.priority)
    requires c < CURSOR_MODULUS && k < CURSOR_MODULUS && (|tier| > 1 ==> Cursor(now, key) == CursorAfter(c, k))
    ensures Rotate(now, call.scope, call.model, call.routes)[FirstAt(call.routes, key.priority)] == tier[HeadInRound(c, |tier|, k)]
    ensures |tier| > 1 ==> Cursor(Rotated(now, call.scope, call.model, call.routes), key) == CursorAfter(c, k + 1)
  {
    var i := FirstAt(call.routes, key.priority);
    TierHeadAt(now, call, key, tier, call.routes[..i], call.routes[i + |tier|..]);
    SoleHead(c, Cursor(now, key), |tier|, k);
  }

  lemma {:induction false} SoleHead(c: nat, now: nat, length: nat, k: nat)
    requires c < CURSOR_MODULUS && 0 < length && k <= CURSOR_MODULUS
    requires length > 1 ==> now == CursorAfter(c, k)
    ensures HeadIndex(now, length) == HeadInRound(c, length, k)
  {}

  /** Over as many rotations as the tier has candidates, each candidate heads the tier
      exactly once, precisely when the cursor does not wrap in between or the tier length
      divides the cursor range. */
  lemma {:induction false} EachHeadsOnceIff(c: nat, length: nat)
    requires c < CURSOR_MODULUS && 0 < length <= CURSOR_MODULUS
    ensures EachHeadsOnce(c, length) <==> c + length <= CURSOR_MODULUS || CURSOR_MODULUS % length == 0
  {
    HeadIndexIsRemainder(CURSOR_MODULUS, length);
    if c + length <= CURSOR_MODULUS || HeadIndex(CURSOR_MODULUS, length) == 0 {
      FairWithoutBreak(c, length);
    } else {
      UnfairAcrossWrap(c, length);
    }
  }

  lemma {:induction false} HeadIndexAdd(c: nat, k: nat, length: nat)
    requires 0 < length && k < length
    ensures var r := HeadIndex(c, length);
            HeadIndex(c + k, length) == if r + k < length then r + k else r + k - length
    decreases c
  {
    if c >= length {
      HeadIndexAdd(c - length, k, length);
    }
  }

  lemma {:induction false} HeadIndexShift(x: nat, m: nat, length: nat)
    requires 0 < length && HeadIndex(m, length) == 0
    ensures HeadIndex(x + m, length) == HeadIndex(x, length)
    decreases m
  {
    if m >= length {
      HeadIndexShift(x, m - length, length);
    }
  }

  lemma {:induction false} HeadIndexSub(x: nat, t: nat, length: nat)
    requires 0 < length && t <= HeadIndex(x, length) && t <= x
    ensures HeadIndex(x - t, length) == HeadIndex(x, length) - t
    decreases x
  {
    if x >= length {
      HeadIndexSmall(x - length, length);
      HeadIndexSub(x - length, t, length);
    }
  }

  lemma {:induction false} HeadIndexSmall(x: nat, length: nat)
    requires 0 < length
    ensures HeadIndex(x, length) <= x
  {
    if x >= length {
      HeadIndexSmall(x - length, length);
    }
  }

  lemma {:induction false} FairWithoutBreak(c: nat, length: nat)
    requires c < CURSOR_MODULUS && 0 < length <= CURSOR_MODULUS
    requires c + length <= CURSOR_MODULUS || HeadIndex(CURSOR_MODULUS, length) == 0
    ensures EachHeadsOnce(c, length)
  {
    var r := HeadIndex(c, length);
    forall k | 0 <= k < length
      ensures HeadInRound(c, length, k) == if r + k < length then r + k else r + k - length
    {
      HeadIndexAdd(c, k, length);
      if c + k >= CURSOR_MODULUS {
        HeadIndexShift(c + k - CURSOR_MODULUS, CURSOR_MODULUS, length);
      }
    }
    forall i | 0 <= i < length
      ensures HeadsSomeRound(c, length, i)
    {
      var k := if i >= r then i - r else i - r + length;
      assert HeadInRound(c, length, k) == i;
    }
  }

  lemma {:induction false} UnfairAcrossWrap(c: nat, length: nat)
    requires c < CURSOR_MODULUS && 0 < length <= CURSOR_MODULUS
    requires c + length > CURSOR_MODULUS && HeadIndex(CURSOR_MODULUS, length) > 0
    ensures !EachHeadsOnce(c, length)
  {
    var left, r := CURSOR_MODULUS - c, HeadIndex(CURSOR_MODULUS, length);
    if r < left {
      HeadIndexSub(CURSOR_MODULUS, r, length);
      assert HeadInRound(c, length, left - r) == HeadInRound(c, length, left);
    } else {
      forall k | 0 <= k < length
        ensures HeadInRound(c, length, k) != length - 1
      {
        if k < left {
          HeadIndexSub(CURSOR_MODULUS, left - k, length);
        }
      }
      assert !HeadsSomeRound(c, length, length - 1);
    }
  }

  /** Every candidate is shown, and none twice. */
  ghost predicate EachShownOnce(heads: seq<Candidate>, tier: seq<Candidate>) {
    && (forall i :: 0 <= i < |tier| ==> tier[i] in heads)
    && (forall j, k :: 0 <= j < k < |heads| ==> heads[j] != heads[k])
  }

  predicate Distinct(tier: seq<Candidate>) {
    forall i, j :: 0 <= i < j < |tier| ==> tier[i] != tier[j]
  }

  /** Over as many rotations of an unchanged tier as it has candidates, whatever happens to the
      other tiers and with rotations of other scopes and models in between, each candidate heads
      the tier exactly once, precisely when its cursor does not wrap in between or the tier length
      divides the cursor range. */
  lemma {:induction false} EachCandidateHeadsOnceIff(selections: Selections, calls: seq<Call>, key: SelectionKey, tier: seq<Candidate>)
    requires Steady(calls, key, tier) && Distinct(tier) && Cursor(selections, key) < CURSOR_MODULUS
    requires |Shown(selections, calls, key)| == |tier| <= CURSOR_MODULUS
    ensures EachShownOnce(Shown(selections, calls, key), tier) <==>
            Cursor(selections, key) + |tier| <= CURSOR_MODULUS || CURSOR_MODULUS % |tier| == 0
  {
    var c, heads := Cursor(selections, key), Shown(selections, calls, key);
    forall k | 0 <= k < |heads|
      ensures heads[k] == tier[HeadInRound(c, |tier|, k)]
    {
      ShownHead(selections, calls, key, tier, k);
    }
    ShownOnceIff(heads, tier, c);
    EachHeadsOnceIff(c, |tier|);
  }

  lemma {:induction false} ShownOnceIff(heads: seq<Candidate>, tier: seq<Candidate>, c: nat)
    requires c < CURSOR_MODULUS && 0 < |tier| <= CURSOR_MODULUS && |heads| == |tier| && Distinct(tier)
    requires forall k :: 0 <= k < |heads| ==> heads[k] == tier[HeadInRound(c, |tier|, k)]
    ensures EachShownOnce(heads, tier) <==> EachHeadsOnce(c, |tier|)
  {
    var n := |tier|;
    forall i | 0 <= i < n
      ensures tier[i] in heads <==> HeadsSomeRound(c, n, i)
    {
      if tier[i] in heads {
        var k :| 0 <= k < n && heads[k] == tier[i];
        assert HeadInRound(c, n, k) == i;
      }
      if HeadsSomeRound(c, n, i) {
        var k :| 0 <= k < n && HeadInRound(c, n, k) == i;
        assert heads[k] == tier[i];
      }
    }
    forall j, k | 0 <= j < k < n
      ensures heads[j] != heads[k] <==> HeadInRound(c, n, j) != HeadInRound(c, n, k)
    {}
  }

  lemma {:induction false} WrapIndices()
    ensures HeadInRound(CURSOR_MODULUS - 1, 3, 0) == 0
    ensures HeadInRound(CURSOR_MODULUS - 1, 3, 1) == 0
    ensures HeadInRound(CURSOR_MODULUS - 1, 3, 2) == 1
  {
    HeadIndexIsRemainder(CURSOR_MODULUS - 1, 3);
  }

  predicate AllCall(calls: seq<Call>, call: Call) { forall i :: 0 <= i < |calls| ==> calls[i] == call }

  lemma {:induction false} AllShow(selections: Selections, calls: seq<Call>, key: SelectionKey, tier: seq<Candidate>)
    requires tier != [] && AllAt(tier, key.priority) && AllCall(calls, Call(key.routingScope, key.model, tier))
    ensures |Shown(selections, calls, key)| == |calls| && Steady(calls, key, tier)
  {
    assert tier[0] in tier && FirstAt(tier, key.priority) == 0 && tier[0..0 + |tier|] == tier;
    if calls != [] {
      AllShow(selections, calls[..|calls| - 1], key, tier);
    }
  }

  /** Across a wrap, three rotations of a tier of three show its first candidate twice and its
      last not at all. */
  lemma {:induction false} WrapRepeatsCandidate(selections: Selections, calls: seq<Call>, key: SelectionKey, tier: seq<Candidate>)
    requires |tier| == 3 && AllAt(tier, key.priority) && |calls| == 3 && AllCall(calls, Call(key.routingScope, key.model, tier))
    requires Cursor(selections, key) == CURSOR_MODULUS - 1
    ensures Shown(selections, calls, key) == [tier[0], tier[0], tier[1]]
  {
    AllShow(selections, calls, key, tier);
    var heads := Shown(selections, calls, key);
    forall k | 0 <= k < 3
      ensures heads[k] == tier[HeadInRound(CURSOR_MODULUS - 1, 3, k)]
    {
      ShownHead(selections, calls, key, tier, k);
    }
    ThreeHeads(heads, tier);
  }

  lemma {:induction false} ThreeHeads(heads: seq<Candidate>, tier: seq<Candidate>)
    requires |heads| == |tier| == 3
    requires forall k :: 0 <= k < 3 ==> heads[k] == tier[HeadInRound(CURSOR_MODULUS - 1, 3, k)]
    ensures heads == [tier[0], tier[0], tier[1]]
  {
    WrapIndices();
  }
}
