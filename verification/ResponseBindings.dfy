/** Response bindings: which account produced a response id, kept in a map with a FIFO
    queue beside it, bounded in age and in number. */
module ResponseBindings {
  type Instant = nat
  type AccountId = string

  /** One hour, in nanoseconds. */
  const RESPONSE_BINDING_TTL: nat := 3_600_000_000_000
  const MAX_RESPONSE_BINDINGS: nat := 100_000

  datatype Key = Key(routingScope: string, responseId: string)
  datatype Binding = Binding(accountId: AccountId, boundAt: Instant)

  datatype Table = Table(entries: map<Key, Binding>, oldestFirst: seq<(Instant, Key)>)

  const EMPTY: Table := Table(map[], [])

  predicate Expired(boundAt: Instant, now: Instant) {
    now >= boundAt + RESPONSE_BINDING_TTL
  }

  /** Map and queue are in bijection: each queue entry names its own binding, no key is
      queued twice, and every binding is queued. */
  ghost predicate Agree(t: Table) {
    && (forall i :: 0 <= i < |t.oldestFirst| ==> Names(t, i))
    && (forall i, j :: 0 <= i < j < |t.oldestFirst| ==> t.oldestFirst[i].1 != t.oldestFirst[j].1)
    && (forall k :: k in t.entries ==> Queued(t, k))
  }

  ghost predicate Names(t: Table, i: nat)
    requires i < |t.oldestFirst|
  {
    var (boundAt, k) := t.oldestFirst[i];
    k in t.entries && t.entries[k].boundAt == boundAt
  }

  ghost predicate Queued(t: Table, k: Key) {
    exists i :: 0 <= i < |t.oldestFirst| && t.oldestFirst[i].1 == k
  }

  // ----- The operations, as the source performs them -----

  function RemoveOldest(t: Table): (r: Table) {
    if t.oldestFirst == [] then t
    else
      var (boundAt, k) := t.oldestFirst[0];
      Table(if k in t.entries && t.entries[k].boundAt == boundAt then t.entries - {k} else t.entries,
            t.oldestFirst[1..])
  }

  /** The front of the queue may go: stale, or old enough. */
  predicate FrontGoes(t: Table, now: Instant) {
    t.oldestFirst != [] &&
    var (boundAt, k) := t.oldestFirst[0];
    k !in t.entries || t.entries[k].boundAt != boundAt || Expired(boundAt, now)
  }

  function RemoveExpired(t: Table, now: Instant): (r: Table)
    decreases |t.oldestFirst|
  {
    if FrontGoes(t, now) then RemoveExpired(RemoveOldest(t), now) else t
  }

  /** Evict until there is room. Only the agreement of map and queue makes this end. */
  function MakeRoom(t: Table): (r: Table)
    requires Agree(t)
    decreases |t.oldestFirst|
  {
    if |t.entries| < MAX_RESPONSE_BINDINGS then t
    else
      OldestExists(t);
      RemoveOldestAgrees(t);
      MakeRoom(RemoveOldest(t))
  }

  function Insert(t: Table, now: Instant, k: Key, accountId: AccountId): (r: Table)
    requires Agree(t)
  {
    RemoveExpiredAgrees(t, now);
    var t := RemoveExpired(t, now);
    if k in t.entries then t
    else
      var t := MakeRoom(t);
      Table(t.entries[k := Binding(accountId, now)], t.oldestFirst + [(now, k)])
  }

  // ----- Agreement is kept -----

  lemma {:induction false} OldestExists(t: Table)
    requires Agree(t) && |t.entries| > 0
    ensures t.oldestFirst != []
  {
    var k :| k in t.entries;
    assert Queued(t, k);
  }

  lemma {:induction false} RemoveOldestAgrees(t: Table)
    requires Agree(t) && t.oldestFirst != []
    ensures Agree(RemoveOldest(t))
    ensures RemoveOldest(t).entries == t.entries - {t.oldestFirst[0].1}
    ensures |RemoveOldest(t).entries| == |t.entries| - 1
  {
    var r, front := RemoveOldest(t), t.oldestFirst[0].1;
    assert Names(t, 0);
    assert r.entries.Keys == t.entries.Keys - {front};
    forall i | 0 <= i < |r.oldestFirst|
      ensures Names(r, i)
    {
      assert Names(t, i + 1);
    }
    forall k | k in r.entries
      ensures Queued(r, k)
    {
      assert Queued(t, k);
      var i :| 0 <= i < |t.oldestFirst| && t.oldestFirst[i].1 == k;
      assert r.oldestFirst[i - 1].1 == k;
    }
  }

  lemma {:induction false} RemoveExpiredAgrees(t: Table, now: Instant)
    requires Agree(t)
    ensures Agree(RemoveExpired(t, now))
    ensures |RemoveExpired(t, now).entries| <= |t.entries|
    decreases |t.oldestFirst|
  {
    if FrontGoes(t, now) {
      RemoveOldestAgrees(t);
      RemoveExpiredAgrees(RemoveOldest(t), now);
    }
  }

  lemma {:induction false} MakeRoomAgrees(t: Table)
    requires Agree(t)
    ensures Agree(MakeRoom(t)) && |MakeRoom(t).entries| < MAX_RESPONSE_BINDINGS
    ensures MakeRoom(t).entries.Keys <= t.entries.Keys
    ensures |t.entries| == MAX_RESPONSE_BINDINGS ==> MakeRoom(t) == RemoveOldest(t)
    decreases |t.oldestFirst|
  {
    if |t.entries| >= MAX_RESPONSE_BINDINGS {
      OldestExists(t);
      RemoveOldestAgrees(t);
      MakeRoomAgrees(RemoveOldest(t));
    }
  }

  /** Inserting keeps the agreement and the bound; a new key is bound to its account. */
  lemma {:induction false} InsertAgrees(t: Table, now: Instant, k: Key, accountId: AccountId)
    requires Agree(t)
    ensures Agree(Insert(t, now, k, accountId))
    ensures |t.entries| <= MAX_RESPONSE_BINDINGS ==>
              |Insert(t, now, k, accountId).entries| <= MAX_RESPONSE_BINDINGS
  {
    RemoveExpiredAgrees(t, now);
    var live := RemoveExpired(t, now);
    if k !in live.entries {
      MakeRoomAgrees(live);
      AppendAgrees(MakeRoom(live), k, Binding(accountId, now));
    }
  }

  lemma {:induction false} AppendAgrees(t: Table, k: Key, b: Binding)
    requires Agree(t) && k !in t.entries
    ensures Agree(Table(t.entries[k := b], t.oldestFirst + [(b.boundAt, k)]))
    ensures |t.entries[k := b]| == |t.entries| + 1
  {
    var r := Table(t.entries[k := b], t.oldestFirst + [(b.boundAt, k)]);
    assert r.entries.Keys == t.entries.Keys + {k};
    forall i | 0 <= i < |t.oldestFirst|
      ensures Names(r, i) && r.oldestFirst[i] == t.oldestFirst[i] && t.oldestFirst[i].1 != k
    {
      assert Names(t, i);
    }
    assert Names(r, |t.oldestFirst|);
    forall x | x in r.entries
      ensures Queued(r, x)
    {
      AppendQueues(t, r, x);
    }
  }

  lemma {:induction false} AppendQueues(t: Table, r: Table, x: Key)
    requires Agree(t) && |r.oldestFirst| == |t.oldestFirst| + 1 && r.oldestFirst[..|t.oldestFirst|] == t.oldestFirst
    requires x in t.entries || r.oldestFirst[|t.oldestFirst|].1 == x
    ensures Queued(r, x)
  {
    if r.oldestFirst[|t.oldestFirst|].1 != x {
      assert Queued(t, x);
      var i :| 0 <= i < |t.oldestFirst| && t.oldestFirst[i].1 == x;
      assert r.oldestFirst[i] == t.oldestFirst[i];
    }
  }

  // ----- What expiry removes -----

  /** Length of the run of expired entries at the front of the queue. */
  function ExpiredInFront(q: seq<(Instant, Key)>, now: Instant): (n: nat)
    ensures n <= |q|
    ensures forall i :: 0 <= i < n ==> Expired(q[i].0, now)
    ensures n < |q| ==> !Expired(q[n].0, now)
  {
    if q != [] && Expired(q[0].0, now) then 1 + ExpiredInFront(q[1..], now) else 0
  }

  function QueuedKeys(q: seq<(Instant, Key)>): (r: set<Key>) {
    set i | 0 <= i < |q| :: q[i].1
  }

  /** The table without its `n` oldest bindings. */
  function DropFirst(t: Table, n: nat): (r: Table)
    requires n <= |t.oldestFirst|
  {
    Table(t.entries - QueuedKeys(t.oldestFirst[..n]), t.oldestFirst[n..])
  }

  lemma {:induction false} DropFirstStep(t: Table, n: nat)
    requires Agree(t) && n < |t.oldestFirst|
    ensures DropFirst(RemoveOldest(t), n) == DropFirst(t, n + 1)
  {
    var front, rest := t.oldestFirst[0], t.oldestFirst[1..];
    assert RemoveOldest(t) == Table(t.entries - {front.1}, rest) by {
      RemoveOldestAgrees(t);
    }
    assert t.oldestFirst[..n + 1] == [front] + rest[..n] && rest[n..] == t.oldestFirst[n + 1..];
    QueuedKeysCons(front, rest[..n]);
    RemoveTwice(t.entries, {front.1}, QueuedKeys(rest[..n]));
  }

  /** In an agreeing table the front goes exactly when it has expired. */
  lemma {:induction false} FrontExpires(t: Table, now: Instant)
    requires Agree(t)
    ensures FrontGoes(t, now) <==> ExpiredInFront(t.oldestFirst, now) > 0
    ensures FrontGoes(t, now) ==> ExpiredInFront(RemoveOldest(t).oldestFirst, now) + 1 == ExpiredInFront(t.oldestFirst, now)
  {
    if t.oldestFirst != [] {
      assert Names(t, 0);
    }
  }

  lemma {:induction false} DropNothing(t: Table)
    ensures DropFirst(t, 0) == t
  {
    assert QueuedKeys(t.oldestFirst[..0]) == {};
    assert t.entries - {} == t.entries;
  }

  lemma {:induction false} ExpireFront(t: Table, r: Table, now: Instant, n: nat)
    requires FrontGoes(t, now) && r == RemoveOldest(t) && n < |t.oldestFirst|
    requires RemoveExpired(r, now) == DropFirst(r, n) && DropFirst(r, n) == DropFirst(t, n + 1)
    ensures RemoveExpired(t, now) == DropFirst(t, n + 1)
  {}

  /** So expiry drops exactly the expired front of the queue. */
  lemma {:induction false} RemoveExpiredDropsFront(t: Table, now: Instant)
    requires Agree(t)
    ensures RemoveExpired(t, now) == DropFirst(t, ExpiredInFront(t.oldestFirst, now))
    decreases |t.oldestFirst|
  {
    FrontExpires(t, now);
    if FrontGoes(t, now) {
      var r := RemoveOldest(t);
      var n := ExpiredInFront(r.oldestFirst, now);
      ExpireFront(t, r, now, n) by {
        RemoveOldestAgrees(t);
        RemoveExpiredDropsFront(r, now);
        DropFirstStep(t, n);
      }
    } else {
      DropNothing(t);
    }
  }

  lemma {:induction false} RemoveTwice(m: map<Key, Binding>, a: set<Key>, b: set<Key>)
    ensures m - a - b == m - (a + b)
  {}

  lemma {:induction false} QueuedKeysCons(x: (Instant, Key), q: seq<(Instant, Key)>)
    ensures QueuedKeys([x] + q) == {x.1} + QueuedKeys(q)
  {
    var all := [x] + q;
    assert all[0].1 in QueuedKeys(all);
    assert forall i | 0 <= i < |q| :: q[i] == all[i + 1];
    forall k | k in QueuedKeys(q)
      ensures k in QueuedKeys(all)
    {
      var i :| 0 <= i < |q| && q[i].1 == k;
      assert all[i + 1].1 == k;
    }
    forall k | k in QueuedKeys(all)
      ensures k == x.1 || k in QueuedKeys(q)
    {
      var i :| 0 <= i < |all| && all[i].1 == k;
      assert i > 0 ==> q[i - 1].1 == k;
    }
  }

  /** A binding survives expiry iff it is queued behind the expired front; in particular
      nothing younger than the TTL is ever removed. */
  lemma {:induction false} SurvivesExpiry(t: Table, now: Instant, k: Key, i: nat)
    requires Agree(t) && k in t.entries && i < |t.oldestFirst| && t.oldestFirst[i].1 == k
    ensures k in RemoveExpired(t, now).entries <==> i >= ExpiredInFront(t.oldestFirst, now)
    ensures k in RemoveExpired(t, now).entries ==> RemoveExpired(t, now).entries[k] == t.entries[k]
    ensures !Expired(t.entries[k].boundAt, now) ==> k in RemoveExpired(t, now).entries
  {
    RemoveExpiredDropsFront(t, now);
    var n := ExpiredInFront(t.oldestFirst, now);
    assert Names(t, i);
    if i < n {
      assert t.oldestFirst[..n][i].1 == k;
    }
  }

  /** The expired entries are all at the front of the queue. */
  predicate ExpiredAreInFront(q: seq<(Instant, Key)>, now: Instant) {
    forall i, j :: 0 <= i < j < |q| && Expired(q[j].0, now) ==> Expired(q[i].0, now)
  }

  ghost predicate AllLive(t: Table, now: Instant) {
    forall k :: k in t.entries ==> !Expired(t.entries[k].boundAt, now)
  }

  /** Expiry leaves no expired binding exactly when the expired ones were all in front. */
  lemma {:induction false} ExpiryIsExactIff(t: Table, now: Instant)
    requires Agree(t)
    ensures AllLive(RemoveExpired(t, now), now) <==> ExpiredAreInFront(t.oldestFirst, now)
  {
    var q, n := t.oldestFirst, ExpiredInFront(t.oldestFirst, now);
    if ExpiredAreInFront(q, now) {
      forall k | k in RemoveExpired(t, now).entries
        ensures !Expired(RemoveExpired(t, now).entries[k].boundAt, now)
      {
        RemoveExpiredDropsFront(t, now);
        assert Queued(t, k);
        var i :| 0 <= i < |q| && q[i].1 == k;
        SurvivesExpiry(t, now, k, i);
        assert Names(t, i);
      }
    } else {
      var i, j :| 0 <= i < j < |q| && Expired(q[j].0, now) && !Expired(q[i].0, now);
      assert Names(t, j);
      SurvivesExpiry(t, now, q[j].1, j);
    }
  }

  // ----- Whole histories -----

  /** A binding call, or a lookup (which expires first). */
  datatype Op = Bind(now: Instant, key: Key, accountId: AccountId) | Look(now: Instant)

  function Apply(t: Table, op: Op): (r: Table)
    requires Agree(t)
    ensures Agree(r)
    ensures |t.entries| <= MAX_RESPONSE_BINDINGS ==> |r.entries| <= MAX_RESPONSE_BINDINGS
  {
    match op
    case Bind(now, k, a) => InsertAgrees(t, now, k, a); Insert(t, now, k, a)
    case Look(now) => RemoveExpiredAgrees(t, now); RemoveExpired(t, now)
  }

  /** Every history keeps map and queue in bijection and the number of bindings bounded. */
  function History(ops: seq<Op>): (t: Table)
    ensures Agree(t) && |t.entries| <= MAX_RESPONSE_BINDINGS
  {
    if ops == [] then EMPTY else Apply(History(ops[..|ops| - 1]), ops[|ops| - 1])
  }

  predicate Sorted(q: seq<(Instant, Key)>) {
    forall i, j :: 0 <= i < j < |q| ==> q[i].0 <= q[j].0
  }

  /** Bindings arrive in the order of their times. Lookups may carry any time. */
  predicate BindsInOrder(ops: seq<Op>) {
    forall i, j :: 0 <= i < j < |ops| && ops[i].Bind? && ops[j].Bind? ==> ops[i].now <= ops[j].now
  }

  /** The time of the last binding call. */
  function LastBind(ops: seq<Op>): (t: Instant) {
    if ops == [] then 0
    else if ops[|ops| - 1].Bind? then ops[|ops| - 1].now
    else LastBind(ops[..|ops| - 1])
  }

  lemma {:induction false} LastBindAtMost(ops: seq<Op>, t: Instant)
    requires forall i :: 0 <= i < |ops| && ops[i].Bind? ==> ops[i].now <= t
    ensures LastBind(ops) <= t
  {
    if ops != [] && !ops[|ops| - 1].Bind? {
      LastBindAtMost(ops[..|ops| - 1], t);
    }
  }

  lemma {:induction false} MakeRoomDropsPrefix(t: Table) returns (n: nat)
    requires Agree(t)
    ensures n <= |t.oldestFirst| && MakeRoom(t).oldestFirst == t.oldestFirst[n..]
    decreases |t.oldestFirst|
  {
    n := 0;
    if |t.entries| >= MAX_RESPONSE_BINDINGS {
      OldestExists(t);
      RemoveOldestAgrees(t);
      var m := MakeRoomDropsPrefix(RemoveOldest(t));
      n := m + 1;
    }
  }

  /** Bound in queue order, and none bound later than `now`. */
  ghost predicate SortedUpTo(q: seq<(Instant, Key)>, now: Instant) {
    Sorted(q) && forall i :: 0 <= i < |q| ==> q[i].0 <= now
  }

  lemma {:induction false} BindSorted(t: Table, now: Instant, k: Key, a: AccountId)
    requires Agree(t) && SortedUpTo(t.oldestFirst, now)
    ensures SortedUpTo(Insert(t, now, k, a).oldestFirst, now)
  {
    LookSorted(t, now, now);
    RemoveExpiredAgrees(t, now);
    var live := RemoveExpired(t, now);
    if k !in live.entries {
      var n := MakeRoomDropsPrefix(live);
      SortedRest(live.oldestFirst, n, now);
      SortedAppend(MakeRoom(live).oldestFirst, k, now);
    }
  }

  lemma {:induction false} LookSorted(t: Table, now: Instant, latest: Instant)
    requires Agree(t) && SortedUpTo(t.oldestFirst, latest)
    ensures SortedUpTo(RemoveExpired(t, now).oldestFirst, latest)
  {
    RemoveExpiredDropsFront(t, now);
    SortedRest(t.oldestFirst, ExpiredInFront(t.oldestFirst, now), latest);
  }

  lemma {:induction false} SortedRest(q: seq<(Instant, Key)>, n: nat, now: Instant)
    requires SortedUpTo(q, now) && n <= |q|
    ensures SortedUpTo(q[n..], now)
  {}

  lemma {:induction false} SortedAppend(q: seq<(Instant, Key)>, k: Key, now: Instant)
    requires SortedUpTo(q, now)
    ensures SortedUpTo(q + [(now, k)], now)
  {}

  lemma {:induction false} HistorySorted(ops: seq<Op>)
    requires BindsInOrder(ops)
    ensures SortedUpTo(History(ops).oldestFirst, LastBind(ops))
  {
    if ops != [] {
      var init, op := ops[..|ops| - 1], ops[|ops| - 1];
      HistorySorted(init);
      if op.Bind? {
        LastBindAtMost(init, op.now);
        BindSorted(History(init), op.now, op.key, op.accountId);
      } else {
        LookSorted(History(init), op.now, LastBind(init));
      }
    }
  }

  /** When bindings arrive in the order of their times, a lookup at any time, even one read
      before some of them, leaves exactly the bindings not expired at its time. */
  lemma {:induction false} ExpiryExactWhenBindsInOrder(ops: seq<Op>, now: Instant)
    requires BindsInOrder(ops)
    ensures var t := History(ops);
            forall k :: k in RemoveExpired(t, now).entries <==> k in t.entries && !Expired(t.entries[k].boundAt, now)
  {
    var t := History(ops);
    HistorySorted(ops);
    ExpiryIsExactIff(t, now);
    RemoveExpiredDropsFront(t, now);
    forall k | k in t.entries && !Expired(t.entries[k].boundAt, now)
      ensures k in RemoveExpired(t, now).entries
    {
      assert Queued(t, k);
      var i :| 0 <= i < |t.oldestFirst| && t.oldestFirst[i].1 == k;
      SurvivesExpiry(t, now, k, i);
    }
    assert forall k | k in RemoveExpired(t, now).entries :: RemoveExpired(t, now).entries[k] == t.entries[k];
  }

  // ----- A binding held through a history -----

  /** The key holds this binding, with at most `behind` entries queued after it. */
  ghost predicate Held(t: Table, k: Key, b: Binding, behind: nat) {
    k in t.entries && t.entries[k] == b &&
    exists i :: 0 <= i < |t.oldestFirst| && QueuedAt(t, k, i) && |t.oldestFirst| - 1 - i <= behind
  }

  predicate QueuedAt(t: Table, k: Key, i: nat) {
    i < |t.oldestFirst| && t.oldestFirst[i].1 == k
  }

  lemma {:induction false} QueueHasEveryKey(t: Table)
    requires Agree(t)
    ensures QueuedKeys(t.oldestFirst) == t.entries.Keys
  {
    forall k | k in t.entries
      ensures k in QueuedKeys(t.oldestFirst)
    {
      assert Queued(t, k);
    }
    forall i | 0 <= i < |t.oldestFirst|
      ensures t.oldestFirst[i].1 in t.entries
    {
      assert Names(t, i);
    }
  }

  lemma {:induction false} FewerKeysThanEntries(q: seq<(Instant, Key)>)
    ensures |QueuedKeys(q)| <= |q|
  {
    if q != [] {
      FewerKeysThanEntries(q[1..]);
      assert q == [q[0]] + q[1..];
      QueuedKeysCons(q[0], q[1..]);
    }
  }

  /** The map is never larger than the queue. */
  lemma {:induction false} QueueIsAsLong(t: Table)
    requires Agree(t)
    ensures |t.entries| <= |t.oldestFirst|
  {
    QueueHasEveryKey(t);
    FewerKeysThanEntries(t.oldestFirst);
    assert |t.entries| == |t.entries.Keys|;
  }

  lemma {:induction false} LookHolds(t: Table, now: Instant, k: Key, b: Binding, behind: nat)
    requires Agree(t) && Held(t, k, b, behind) && !Expired(b.boundAt, now)
    ensures Held(RemoveExpired(t, now), k, b, behind)
  {
    var i :| 0 <= i < |t.oldestFirst| && QueuedAt(t, k, i) && |t.oldestFirst| - 1 - i <= behind;
    HeldAmongRest(RemoveExpired(t, now), t.oldestFirst, ExpiredInFront(t.oldestFirst, now), k, b, i, behind) by {
      SurvivesExpiry(t, now, k, i);
      RemoveExpiredDropsFront(t, now);
    }
  }

  lemma {:induction false} HeldAmongRest(r: Table, q: seq<(Instant, Key)>, n: nat, k: Key, b: Binding, i: nat, behind: nat)
    requires n <= i < |q| && r.oldestFirst == q[n..] && q[i].1 == k && |q| - 1 - i <= behind
    requires k in r.entries && r.entries[k] == b
    ensures Held(r, k, b, behind)
  {
    assert QueuedAt(r, k, i - n);
  }

  lemma {:induction false} BindHolds(t: Table, now: Instant, other: Key, a: AccountId, k: Key, b: Binding, behind: nat)
    requires Agree(t) && |t.entries| <= MAX_RESPONSE_BINDINGS && Held(t, k, b, behind)
    requires !Expired(b.boundAt, now) && behind + 1 < MAX_RESPONSE_BINDINGS
    ensures Held(Insert(t, now, other, a), k, b, behind + 1)
  {
    LookHolds(t, now, k, b, behind);
    RemoveExpiredAgrees(t, now);
    var live := RemoveExpired(t, now);
    if other !in live.entries {
      RoomKeeps(live, k, b, behind);
      var room := MakeRoom(live);
      MakeRoomAgrees(live);
      var i :| 0 <= i < |room.oldestFirst| && QueuedAt(room, k, i) && |room.oldestFirst| - 1 - i <= behind;
      assert QueuedAt(Insert(t, now, other, a), k, i);
    }
  }

  /** Room is made at the cost of the oldest entry, which the key is not. */
  lemma {:induction false} RoomKeeps(t: Table, k: Key, b: Binding, behind: nat)
    requires Agree(t) && |t.entries| <= MAX_RESPONSE_BINDINGS && Held(t, k, b, behind) && behind + 1 < MAX_RESPONSE_BINDINGS
    ensures Held(MakeRoom(t), k, b, behind)
  {
    if |t.entries| == MAX_RESPONSE_BINDINGS {
      var i :| 0 <= i < |t.oldestFirst| && QueuedAt(t, k, i) && |t.oldestFirst| - 1 - i <= behind;
      QueueIsAsLong(t);
      RemoveOldestAgrees(t);
      var r := RemoveOldest(t);
      assert t.oldestFirst[0].1 != t.oldestFirst[i].1;
      assert QueuedAt(r, k, i - 1);
      assert MakeRoom(t) == r;
    }
  }

  predicate NeverBinds(ops: seq<Op>, k: Key) {
    forall i :: 0 <= i < |ops| ==> !(ops[i].Bind? && ops[i].key == k)
  }

  lemma {:induction false} UnboundIsAbsent(ops: seq<Op>, k: Key)
    requires NeverBinds(ops, k)
    ensures k !in History(ops).entries
  {
    if ops != [] {
      var init, op := ops[..|ops| - 1], ops[|ops| - 1];
      UnboundIsAbsent(init, k);
      RemoveExpiredDropsFront(History(init), op.now);
      if op.Bind? {
        RemoveExpiredAgrees(History(init), op.now);
        RoomAddsNothing(RemoveExpired(History(init), op.now), k);
      }
    }
  }

  lemma {:induction false} RoomAddsNothing(t: Table, k: Key)
    requires Agree(t) && k !in t.entries
    ensures k !in MakeRoom(t).entries
    decreases |t.oldestFirst|
  {
    if |t.entries| >= MAX_RESPONSE_BINDINGS {
      OldestExists(t);
      RemoveOldestAgrees(t);
      RoomAddsNothing(RemoveOldest(t), k);
    }
  }

  lemma {:induction false} HistoryPush(ops: seq<Op>, op: Op)
    ensures History(ops + [op]) == Apply(History(ops), op)
  {
    assert (ops + [op])[..|ops|] == ops;
  }

  /** A bind at this time finds no binding of the key: none is stored, or it expires first. */
  predicate Unbound(t: Table, k: Key, now: Instant)
    requires Agree(t)
  {
    k !in RemoveExpired(t, now).entries
  }

  lemma {:induction false} FreshBindHolds(t: Table, now: Instant, k: Key, a: AccountId)
    requires Agree(t) && Unbound(t, k, now)
    ensures Held(Insert(t, now, k, a), k, Binding(a, now), 0)
  {
    RemoveExpiredDropsFront(t, now);
    RemoveExpiredAgrees(t, now);
    var r := Insert(t, now, k, a);
    assert QueuedAt(r, k, |r.oldestFirst| - 1);
  }

  lemma {:induction false} ApplyHolds(t: Table, op: Op, k: Key, b: Binding, behind: nat)
    requires Agree(t) && |t.entries| <= MAX_RESPONSE_BINDINGS && Held(t, k, b, behind) && !Expired(b.boundAt, op.now)
    requires op.Bind? ==> behind + 1 < MAX_RESPONSE_BINDINGS
    ensures Held(Apply(t, op), k, b, if op.Bind? then behind + 1 else behind)
  {
    if op.Bind? {
      BindHolds(t, op.now, op.key, op.accountId, k, b, behind);
    } else {
      LookHolds(t, op.now, k, b, behind);
    }
  }

  /** The clock is read before the lock is taken, so inserts may arrive out of order; then
      an expired binding can stay behind a younger one. */
  lemma {:induction false} OutOfOrderBindingOutlivesTtl(k: Key, k': Key, a: AccountId)
    requires k != k'
    ensures var t := History([Bind(10, k, a), Bind(5, k', a)]);
            var now := 5 + RESPONSE_BINDING_TTL;
            && k' in RemoveExpired(t, now).entries
            && Expired(RemoveExpired(t, now).entries[k'].boundAt, now)
  {
    var ops := [Bind(10, k, a), Bind(5, k', a)];
    var first := Table(map[k := Binding(a, 10)], [(10, k)]);
    assert ops[..1] == [Bind(10, k, a)] && ops[..1][..0] == [];
    assert History(ops[..1]) == first;
    SecondBehindFirst(first, k, k', a);
  }

  lemma {:induction false} SecondBehindFirst(first: Table, k: Key, k': Key, a: AccountId)
    requires k != k' && first == Table(map[k := Binding(a, 10)], [(10, k)]) && Agree(first)
    ensures var t := Insert(first, 5, k', a);
            && k' in t.entries && t.entries[k'].boundAt == 5
            && RemoveExpired(t, 5 + RESPONSE_BINDING_TTL) == t
  {
    assert RemoveExpired(first, 5) == first;
    assert |first.entries| == 1;
    assert MakeRoom(first) == first;
    var t := Insert(first, 5, k', a);
    assert t == Table(map[k := Binding(a, 10), k' := Binding(a, 5)], [(10, k), (5, k')]);
    assert !FrontGoes(t, 5 + RESPONSE_BINDING_TTL);
  }

  /** The first live binding of a key wins: binding it again before it expires changes
      nothing about it. */
  lemma {:induction false} FirstLiveBindingWins(t: Table, now: Instant, k: Key, a: AccountId)
    requires Agree(t) && k in t.entries && !Expired(t.entries[k].boundAt, now)
    ensures k in Insert(t, now, k, a).entries && Insert(t, now, k, a).entries[k] == t.entries[k]
    ensures Insert(t, now, k, a) == RemoveExpired(t, now)
  {
    assert Queued(t, k);
    var i :| 0 <= i < |t.oldestFirst| && t.oldestFirst[i].1 == k;
    SurvivesExpiry(t, now, k, i);
  }

  /** Binding a key costs another live key its binding only when the table is full, and
      then only the oldest one. */
  lemma {:induction false} BindingAnotherKey(t: Table, now: Instant, k: Key, a: AccountId, other: Key)
    requires Agree(t) && |t.entries| <= MAX_RESPONSE_BINDINGS
    requires other != k && other in t.entries && !Expired(t.entries[other].boundAt, now)
    ensures other !in Insert(t, now, k, a).entries ==>
              var live := RemoveExpired(t, now);
              |live.entries| == MAX_RESPONSE_BINDINGS && live.oldestFirst != [] && live.oldestFirst[0].1 == other
    ensures other in Insert(t, now, k, a).entries ==> Insert(t, now, k, a).entries[other] == t.entries[other]
  {
    assert Queued(t, other);
    var i :| 0 <= i < |t.oldestFirst| && t.oldestFirst[i].1 == other;
    SurvivesExpiry(t, now, other, i);
    RemoveExpiredAgrees(t, now);
    var live := RemoveExpired(t, now);
    if k !in live.entries {
      MakeRoomAgrees(live);
      if |live.entries| == MAX_RESPONSE_BINDINGS {
        OldestExists(live);
        RemoveOldestAgrees(live);
      }
    }
  }

  // ----- The mutable store -----

  class BindingStore {
    var entries: map<Key, Binding>
    var oldestFirst: seq<(Instant, Key)>

    ghost function View(): (t: Table)
      reads this
    {
      Table(entries, oldestFirst)
    }

    constructor ()
      ensures View() == EMPTY
    {
      entries, oldestFirst := map[], [];
    }

    method InsertBinding(now: Instant, k: Key, accountId: AccountId)
      requires Agree(View())
      modifies this
      ensures View() == Insert(old(View()), now, k, accountId)
      ensures Agree(View())
    {
      InsertAgrees(View(), now, k, accountId);
      ExpireFront(now);
      if k in entries {
        return;
      }
      ghost var live := View();
      while |entries| >= MAX_RESPONSE_BINDINGS
        invariant Agree(View()) && MakeRoom(View()) == MakeRoom(live)
        decreases |oldestFirst|
      {
        OldestExists(View());
        RemoveOldestAgrees(View());
        PopOldest();
      }
      entries := entries[k := Binding(accountId, now)];
      oldestFirst := oldestFirst + [(now, k)];
    }

    method ExpireFront(now: Instant)
      requires Agree(View())
      modifies this
      ensures View() == RemoveExpired(old(View()), now)
      ensures Agree(View())
    {
      ghost var before := View();
      while oldestFirst != [] &&
            (oldestFirst[0].1 !in entries || entries[oldestFirst[0].1].boundAt != oldestFirst[0].0 ||
             Expired(oldestFirst[0].0, now))
        invariant Agree(View()) && RemoveExpired(View(), now) == RemoveExpired(before, now)
        decreases |oldestFirst|
      {
        RemoveOldestAgrees(View());
        PopOldest();
      }
    }

    method PopOldest()
      modifies this
      ensures View() == RemoveOldest(old(View()))
    {
      if oldestFirst == [] {
        return;
      }
      var (boundAt, k) := oldestFirst[0];
      oldestFirst := oldestFirst[1..];
      if k in entries && entries[k].boundAt == boundAt {
        entries := entries - {k};
      }
    }
  }
}
