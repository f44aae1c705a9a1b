/** The in-memory map of active API keys beside the durable key store. Mutations run one at a time
    under a lock but await the repository; authentication reads the map at any moment; a mutation's
    future may be dropped at any await. */
module KeyCache {
  import opened Wrappers

  type KeyId = nat
  type UserId = nat
  type Secret = nat
  type Digest = nat

  datatype StoredKey = StoredKey(
    owner: UserId, secret: Secret, enabled: bool, name: string, groups: seq<string>,
    quota: Option<string>, expiresAt: Option<int>)

  datatype ActiveKey = ActiveKey(
    id: KeyId, owner: UserId, name: string, groups: seq<string>, quota: Option<string>, expiresAt: Option<int>)

  type Store = map<KeyId, StoredKey>
  type Active = map<Digest, ActiveKey>

  function Project(id: KeyId, key: StoredKey): (a: ActiveKey) {
    ActiveKey(id, key.owner, key.name, key.groups, key.quota, key.expiresAt)
  }

  /** Distinct secrets have distinct digests. */
  ghost predicate Injective(digest: Secret -> Digest) {
    forall a, b :: digest(a) == digest(b) ==> a == b
  }

  /** The store holds no secret twice. */
  predicate UniqueSecrets(store: Store) {
    forall i, j :: i in store && j in store && store[i].secret == store[j].secret ==> i == j
  }

  // ----- Operations on the two maps -----

  datatype Change = Change(name: string, groups: seq<string>, enabled: bool, expiresAt: Option<int>, quota: Option<Option<string>>)

  function Changed(key: StoredKey, c: Change): (k: StoredKey) {
    key.(name := c.name, groups := c.groups, enabled := c.enabled, expiresAt := c.expiresAt,
         quota := if c.quota.Some? then c.quota.value else key.quota)
  }

  datatype Operation =
    | Create(id: KeyId, key: StoredKey)
    | Update(owner: UserId, id: KeyId, change: Change)
    | Delete(owner: UserId, id: KeyId)

  predicate Owned(store: Store, owner: UserId, id: KeyId) {
    id in store && store[id].owner == owner
  }

  predicate SecretTaken(store: Store, secret: Secret) {
    exists i :: i in store && store[i].secret == secret
  }

  /** Whether the repository's statement would touch a row, and the store if it does. */
  predicate Applies(store: Store, op: Operation) {
    match op
    case Create(id, key) => id !in store && !SecretTaken(store, key.secret)
    case Update(owner, id, _) => Owned(store, owner, id)
    case Delete(owner, id) => Owned(store, owner, id)
  }

  function Written(store: Store, op: Operation): (s: Store) {
    if !Applies(store, op) then store
    else match op
      case Create(id, key) => store[id := key]
      case Update(_, id, change) => store[id := Changed(store[id], change)]
      case Delete(_, id) => store - {id}
  }

  datatype Removed = Nothing | Entry(digest: Digest, key: ActiveKey)

  predicate Names(key: ActiveKey, owner: UserId, id: KeyId) { key.id == id && key.owner == owner }

  function Without(active: Active, removed: Removed): (a: Active) {
    if removed.Entry? then active - {removed.digest} else active
  }

  function Restored(active: Active, removed: Removed): (a: Active) {
    if removed.Entry? then active[removed.digest := removed.key] else active
  }

  /** The entry a mutation takes out first: the one that carries the owner and id, if any. */
  ghost predicate IsRemoval(active: Active, owner: UserId, id: KeyId, removed: Removed) {
    match removed
    case Entry(d, key) => d in active && active[d] == key && Names(key, owner, id)
    case Nothing => forall d :: d in active ==> !Names(active[d], owner, id)
  }

  /** What the map looks like after the repository reported success. */
  function Published(active: Active, store: Store, op: Operation, digest: Secret -> Digest): (a: Active) {
    if op.Delete? || op.id !in store || !store[op.id].enabled then active
    else active[digest(store[op.id].secret) := Project(op.id, store[op.id])]
  }

  // ----- The class -----

  datatype Reply = Succeeded | Missed | Broke

  class ApiKeyAuthenticator {
    const digest: Secret -> Digest
    var active: Active

    /** `load`: every enabled stored key becomes active, one stored row after another. */
    constructor (digest: Secret -> Digest, store: Store)
      requires Injective(digest) && UniqueSecrets(store)
      ensures this.digest == digest && active == Projection(store, {}, digest)
    {
      var loaded: Active := map[];
      var pending := store.Keys;
      while pending != {}
        invariant pending <= store.Keys && loaded == Projection(store, pending, digest)
        decreases |pending|
      {
        var id :| id in pending;
        if store[id].enabled {
          loaded := loaded[digest(store[id].secret) := Project(id, store[id])];
        }
        OneLessLeftOut(store, pending, id, digest);
        pending := pending - {id};
      }
      this.digest := digest;
      active := loaded;
    }

    method Authenticate(secret: Secret, now: int) returns (r: Option<ActiveKey>)
      ensures r == Admitted(active, digest(secret), now)
    {
      var d := digest(secret);
      if d !in active {
        return None;
      }
      var key := active[d];
      if key.expiresAt.Some? && key.expiresAt.value <= now {
        return None;
      }
      return Some(key);
    }

    method RemoveActive(owner: UserId, id: KeyId) returns (removed: Removed)
      modifies this
      ensures IsRemoval(old(active), owner, id, removed)
      ensures active == Without(old(active), removed)
    {
      var pending := active.Keys;
      while pending != {}
        invariant pending <= active.Keys && active == old(active)
        invariant forall d :: d in active && d !in pending ==> !Names(active[d], owner, id)
        decreases |pending|
      {
        var d :| d in pending;
        if Names(active[d], owner, id) {
          removed := Entry(d, active[d]);
          active := active - {d};
          return;
        }
        pending := pending - {d};
      }
      return Nothing;
    }

    method RestoreActive(removed: Removed)
      modifies this
      ensures active == Restored(old(active), removed)
    {
      if removed.Entry? {
        active := active[removed.digest := removed.key];
      }
    }

    method Publish(store: Store, op: Operation)
      modifies this
      ensures active == Published(old(active), store, op, digest)
    {
      if !op.Delete? && op.id in store && store[op.id].enabled {
        active := active[digest(store[op.id].secret) := Project(op.id, store[op.id])];
      }
    }

    /** A whole mutation that is not interrupted, against a repository that answers `reply`. */
    method Mutate(store: Store, op: Operation, broken: bool) returns (reply: Reply, after: Store)
      modifies this
      ensures reply == if broken then Broke else if Applies(store, op) then Succeeded else Missed
      ensures after == if reply.Succeeded? then Written(store, op) else store
      ensures !reply.Succeeded? ==> active == old(active)
      ensures reply.Succeeded? ==>
                exists removed :: (if op.Create? then removed == Nothing else IsRemoval(old(active), op.owner, op.id, removed))
                               && active == Published(Without(old(active), removed), after, op, digest)
    {
      var removed := Nothing;
      if !op.Create? {
        removed := RemoveActive(op.owner, op.id);
      }
      RestoreUndoes(old(active), removed);
      if broken {
        RestoreActive(removed);
        return Broke, store;
      }
      if !Applies(store, op) {
        RestoreActive(removed);
        return Missed, store;
      }
      after := Written(store, op);
      Publish(after, op);
      return Succeeded, after;
    }
  }

  lemma {:induction false} RestoreUndoes(active: Active, removed: Removed)
    requires removed.Entry? ==> removed.digest in active && active[removed.digest] == removed.key
    ensures Restored(Without(active, removed), removed) == active
  {}

  function Admitted(active: Active, d: Digest, now: int): (r: Option<ActiveKey>) {
    if d in active && !(active[d].expiresAt.Some? && active[d].expiresAt.value <= now) then Some(active[d]) else None
  }

  // ----- What the map should hold -----

  /** The projection of the enabled keys, less some. */
  function Projection(store: Store, less: set<KeyId>, digest: Secret -> Digest): (a: Active)
    requires Injective(digest) && UniqueSecrets(store)
  {
    map id | id in store && store[id].enabled && id !in less :: digest(store[id].secret) := Project(id, store[id])
  }

  lemma {:induction false} OneLessLeftOut(store: Store, less: set<KeyId>, id: KeyId, digest: Secret -> Digest)
    requires Injective(digest) && UniqueSecrets(store) && id in store && id in less
    ensures Projection(store, less - {id}, digest) ==
            if store[id].enabled then Projection(store, less, digest)[digest(store[id].secret) := Project(id, store[id])]
            else Projection(store, less, digest)
  {}

  /** The same, said entry by entry. */
  ghost predicate Sound(active: Active, store: Store, digest: Secret -> Digest) {
    forall d :: d in active ==> IsProjected(d, active[d], store, digest)
  }

  predicate IsProjected(d: Digest, a: ActiveKey, store: Store, digest: Secret -> Digest) {
    a.id in store && store[a.id].enabled && a == Project(a.id, store[a.id]) && d == digest(store[a.id].secret)
  }

  ghost predicate Exact(active: Active, store: Store, less: set<KeyId>, digest: Secret -> Digest) {
    forall id :: id in store && store[id].enabled ==> (digest(store[id].secret) in active <==> id !in less)
  }

  lemma {:induction false} ExactIsProjection(active: Active, store: Store, less: set<KeyId>, digest: Secret -> Digest)
    requires Injective(digest) && UniqueSecrets(store) && Sound(active, store, digest) && Exact(active, store, less, digest)
    ensures active == Projection(store, less, digest)
  {
    var p := Projection(store, less, digest);
    forall d | d in active
      ensures d in p && p[d] == active[d]
    {
      assert IsProjected(d, active[d], store, digest);
    }
    forall d | d in p
      ensures d in active
    {}
  }

  // ----- Interleavings -----

  datatype Progress =
    | Idle
    | Pending(op: Operation, removed: Removed, written: Outcome)

  /** How far the repository call has come: no effect yet, no row matched, or written. */
  datatype Outcome = InFlight | NoRow | Durable

  datatype World = World(store: Store, active: Active, progress: Progress)

  datatype Event =
    | Begin(op: Operation, removed: Removed)
    | Write
    | Fail
    | Finish
    | Cancel

  /** Keys the mutation in progress currently withholds from the map. */
  function Withheld(p: Progress): (s: set<KeyId>) {
    if p.Idle? then {}
    else
      var withholds :=
        match p.op
        case Create(_, _) => p.written.Durable?
        case Update(_, _, _) => p.removed.Entry? || p.written.Durable?
        case Delete(_, _) => p.removed.Entry? && !p.written.Durable?;
      if withholds then {p.op.id} else {}
  }

  ghost predicate Possible(w: World, e: Event) {
    match e
    case Begin(op, removed) =>
      && w.progress.Idle?
      && (match op
          case Create(_, key) => removed.Nothing? && key.enabled
          case Update(owner, id, _) => Owned(w.store, owner, id) && IsRemoval(w.active, owner, id, removed)
          case Delete(owner, id) => IsRemoval(w.active, owner, id, removed))
    case Write => w.progress.Pending? && w.progress.written.InFlight?
    case Fail => w.progress.Pending? && w.progress.written.InFlight?
    case Finish => w.progress.Pending? && !w.progress.written.InFlight?
    case Cancel => w.progress.Pending?
  }

  function Step(w: World, e: Event, digest: Secret -> Digest): (v: World)
    requires !e.Begin? ==> w.progress.Pending?
  {
    match e
    case Begin(op, removed) => w.(active := Without(w.active, removed), progress := Pending(op, removed, InFlight))
    case Write =>
      w.(store := Written(w.store, w.progress.op), progress := w.progress.(written := if Applies(w.store, w.progress.op) then Durable else NoRow))
    case Fail => w.(active := Restored(w.active, w.progress.removed), progress := Idle)
    case Finish =>
      if w.progress.written.Durable?
      then w.(active := Published(w.active, w.store, w.progress.op, digest), progress := Idle)
      else w.(active := Restored(w.active, w.progress.removed), progress := Idle)
    case Cancel => w.(progress := Idle)
  }

  /** The keys left out of the map, as an event changes them: a cancelled mutation adds the key it
      was withholding, a successful one takes its key off. */
  ghost function LeftOutAfter(leftOut: set<KeyId>, w: World, e: Event): (s: set<KeyId>) {
    if !Possible(w, e) then leftOut
    else if e.Cancel? then leftOut + Withheld(w.progress)
    else if e.Finish? && w.progress.written.Durable? then leftOut - {w.progress.op.id}
    else leftOut
  }

  // ----- What every step keeps -----

  /** No active entry carries the id. */
  ghost predicate Clear(active: Active, id: KeyId) {
    forall d :: d in active ==> active[d].id != id
  }

  /** What the mutation in progress knows about its key. */
  ghost predicate PendingOk(w: World, leftOut: set<KeyId>, digest: Secret -> Digest) {
    w.progress.Pending? ==>
      var p := w.progress;
      && (p.op.Update? || (p.op.Delete? && Owned(w.store, p.op.owner, p.op.id)) || p.written.Durable? ==>
            Clear(w.active, p.op.id))
      && (p.op.Update? ==> Owned(w.store, p.op.owner, p.op.id) && !p.written.NoRow?)
      && (p.op.Create? ==> p.removed.Nothing? && p.op.key.enabled)
      && (p.written.Durable? ==> (p.op.Delete? <==> p.op.id !in w.store))
      && (p.removed.Entry? ==>
            && p.removed.key.id == p.op.id && p.op.id !in leftOut && !p.written.NoRow?
            && (p.written.InFlight? ==> IsProjected(p.removed.digest, p.removed.key, w.store, digest) && Owned(w.store, p.op.owner, p.op.id)))
  }

  ghost predicate Inv(w: World, leftOut: set<KeyId>, digest: Secret -> Digest) {
    && UniqueSecrets(w.store)
    && Sound(w.active, w.store, digest)
    && Exact(w.active, w.store, leftOut + Withheld(w.progress), digest)
    && PendingOk(w, leftOut, digest)
  }

  /** In a sound map a stored key's digest can only carry that key. */
  lemma {:induction false} DigestNames(active: Active, store: Store, digest: Secret -> Digest, id: KeyId)
    requires Injective(digest) && UniqueSecrets(store) && Sound(active, store, digest)
    requires id in store && digest(store[id].secret) in active
    ensures active[digest(store[id].secret)].id == id
  {
    var d := digest(store[id].secret);
    assert IsProjected(d, active[d], store, digest);
  }

  lemma {:induction false} BeginKeeps(w: World, leftOut: set<KeyId>, op: Operation, removed: Removed, digest: Secret -> Digest)
    requires Injective(digest) && Inv(w, leftOut, digest) && Possible(w, Begin(op, removed))
    ensures Inv(Step(w, Begin(op, removed), digest), leftOut, digest)
  {
    var v := Step(w, Begin(op, removed), digest);
    if removed.Entry? {
      var id := op.id;
      assert IsProjected(removed.digest, removed.key, w.store, digest);
      RemovalClears(w, op.owner, id, removed, digest);
      forall i | i in v.store && v.store[i].enabled
        ensures digest(v.store[i].secret) in v.active <==> i !in leftOut + Withheld(v.progress)
      {
        assert digest(v.store[i].secret) == removed.digest ==> i == id;
      }
    } else if !op.Create? && Owned(w.store, op.owner, op.id) {
      NothingMeansClear(w, op.owner, op.id, digest);
    }
  }

  lemma {:induction false} RemovalClears(w: World, owner: UserId, id: KeyId, removed: Removed, digest: Secret -> Digest)
    requires Sound(w.active, w.store, digest) && removed.Entry? && IsRemoval(w.active, owner, id, removed)
    ensures Clear(Without(w.active, removed), id)
  {
    assert IsProjected(removed.digest, removed.key, w.store, digest);
    forall d | d in Without(w.active, removed)
      ensures w.active[d].id != id
    {
      assert IsProjected(d, w.active[d], w.store, digest);
    }
  }

  lemma {:induction false} NothingMeansClear(w: World, owner: UserId, id: KeyId, digest: Secret -> Digest)
    requires Sound(w.active, w.store, digest) && Owned(w.store, owner, id) && IsRemoval(w.active, owner, id, Nothing)
    ensures Clear(w.active, id)
  {
    forall d | d in w.active
      ensures w.active[d].id != id
    {
      assert IsProjected(d, w.active[d], w.store, digest);
    }
  }

  /** A write to a key without an active entry leaves the map sound. */
  lemma {:induction false} WriteKeepsSound(active: Active, store: Store, op: Operation, digest: Secret -> Digest)
    requires Sound(active, store, digest) && Clear(active, op.id)
    ensures Sound(active, Written(store, op), digest)
  {
    forall d | d in active
      ensures IsProjected(d, active[d], Written(store, op), digest)
    {
      assert IsProjected(d, active[d], store, digest);
    }
  }

  lemma {:induction false} WriteKeepsUnique(store: Store, op: Operation)
    requires UniqueSecrets(store)
    ensures UniqueSecrets(Written(store, op))
  {}

  lemma {:induction false} WriteKeeps(w: World, leftOut: set<KeyId>, digest: Secret -> Digest)
    requires Injective(digest) && Inv(w, leftOut, digest) && Possible(w, Write)
    ensures Inv(Step(w, Write, digest), leftOut, digest)
  {
    var op := w.progress.op;
    var v := Step(w, Write, digest);
    if Applies(w.store, op) {
      if op.Create? {
        forall d | d in w.active
          ensures w.active[d].id != op.id
        {
          assert IsProjected(d, w.active[d], w.store, digest);
        }
      }
      WriteKeepsSound(w.active, w.store, op, digest);
      WriteKeepsUnique(w.store, op);
      forall i | i in v.store && v.store[i].enabled
        ensures digest(v.store[i].secret) in v.active <==> i !in leftOut + Withheld(v.progress)
      {
        if i == op.id && digest(v.store[i].secret) in v.active {
          DigestNames(v.active, v.store, digest, i);
          assert false;
        }
      }
    }
  }

  lemma {:induction false} RestoreKeeps(w: World, leftOut: set<KeyId>, digest: Secret -> Digest)
    requires Injective(digest) && Inv(w, leftOut, digest) && w.progress.Pending? && !w.progress.written.Durable?
    ensures Inv(w.(active := Restored(w.active, w.progress.removed), progress := Idle), leftOut, digest)
  {
    var v := w.(active := Restored(w.active, w.progress.removed), progress := Idle);
    var removed := w.progress.removed;
    if removed.Entry? {
      forall i | i in v.store && v.store[i].enabled
        ensures digest(v.store[i].secret) in v.active <==> i !in leftOut
      {
        assert digest(v.store[i].secret) == removed.digest ==> i == w.progress.op.id;
      }
    }
  }

  lemma {:induction false} PublishKeeps(w: World, leftOut: set<KeyId>, digest: Secret -> Digest)
    requires Injective(digest) && Inv(w, leftOut, digest) && w.progress.Pending? && w.progress.written.Durable?
    ensures Inv(Step(w, Finish, digest), leftOut - {w.progress.op.id}, digest)
  {
    var op := w.progress.op;
    var v := Step(w, Finish, digest);
    forall i | i in v.store && v.store[i].enabled
      ensures digest(v.store[i].secret) in v.active <==> i !in leftOut - {op.id}
    {
      if op.id in v.store && digest(v.store[i].secret) == digest(v.store[op.id].secret) {
        assert i == op.id;
      }
    }
  }

  lemma {:induction false} CancelKeeps(w: World, leftOut: set<KeyId>, digest: Secret -> Digest)
    requires Inv(w, leftOut, digest) && w.progress.Pending?
    ensures Inv(Step(w, Cancel, digest), leftOut + Withheld(w.progress), digest)
  {
    assert leftOut + Withheld(w.progress) == (leftOut + Withheld(w.progress)) + Withheld(Idle);
  }

  lemma {:induction false} StepKeeps(w: World, leftOut: set<KeyId>, e: Event, digest: Secret -> Digest)
    requires Injective(digest) && Inv(w, leftOut, digest) && Possible(w, e)
    ensures Inv(Step(w, e, digest), LeftOutAfter(leftOut, w, e), digest)
  {
    match e
    case Begin(op, removed) => BeginKeeps(w, leftOut, op, removed, digest);
    case Write => WriteKeeps(w, leftOut, digest);
    case Fail => RestoreKeeps(w, leftOut, digest);
    case Finish =>
      if w.progress.written.Durable? {
        PublishKeeps(w, leftOut, digest);
      } else {
        RestoreKeeps(w, leftOut, digest);
      }
    case Cancel => CancelKeeps(w, leftOut, digest);
  }

  // ----- Whole runs -----

  function Loaded(store: Store, digest: Secret -> Digest): (w: World)
    requires Injective(digest) && UniqueSecrets(store)
  {
    World(store, Projection(store, {}, digest), Idle)
  }

  lemma {:induction false} LoadedInv(store: Store, digest: Secret -> Digest)
    requires Injective(digest) && UniqueSecrets(store)
    ensures Inv(Loaded(store, digest), {}, digest)
  {}

  /** An event that is not possible where it stands does nothing. */
  ghost function Run(events: seq<Event>, store: Store, digest: Secret -> Digest): (w: World)
    requires Injective(digest) && UniqueSecrets(store)
  {
    if events == [] then Loaded(store, digest)
    else Next(Run(events[..|events| - 1], store, digest), events[|events| - 1], digest)
  }

  ghost function Next(w: World, e: Event, digest: Secret -> Digest): (v: World) {
    if Possible(w, e) then Step(w, e, digest) else w
  }

  /** The keys that cancelled mutations of a run left out of the map. */
  ghost function LeftOut(events: seq<Event>, store: Store, digest: Secret -> Digest): (s: set<KeyId>)
    requires Injective(digest) && UniqueSecrets(store)
  {
    if events == [] then {}
    else
      var before := events[..|events| - 1];
      LeftOutAfter(LeftOut(before, store, digest), Run(before, store, digest), events[|events| - 1])
  }

  lemma {:induction false} NextKeeps(w: World, leftOut: set<KeyId>, e: Event, digest: Secret -> Digest)
    requires Injective(digest) && Inv(w, leftOut, digest)
    ensures Inv(Next(w, e, digest), LeftOutAfter(leftOut, w, e), digest)
  {
    if Possible(w, e) {
      StepKeeps(w, leftOut, e, digest);
    }
  }

  lemma {:induction false} RunKeeps(events: seq<Event>, store: Store, digest: Secret -> Digest)
    requires Injective(digest) && UniqueSecrets(store)
    ensures Inv(Run(events, store, digest), LeftOut(events, store, digest), digest)
  {
    if events == [] {
      LoadedInv(store, digest);
    } else {
      RunKeeps(events[..|events| - 1], store, digest);
      NextKeeps(Run(events[..|events| - 1], store, digest), LeftOut(events[..|events| - 1], store, digest), events[|events| - 1], digest);
    }
  }

  /** At every step of every interleaving the map is exactly the projection of the enabled keys
      in the store, less the key of the mutation in progress and the keys that cancelled mutations
      left out; so every active entry is the projection of a currently enabled stored key. */
  lemma {:induction false} MapIsProjection(events: seq<Event>, store: Store, digest: Secret -> Digest)
    requires Injective(digest) && UniqueSecrets(store)
    ensures var w, leftOut := Run(events, store, digest), LeftOut(events, store, digest);
            && UniqueSecrets(w.store)
            && w.active == Projection(w.store, leftOut + Withheld(w.progress), digest)
            && Sound(w.active, w.store, digest)
  {
    var w, leftOut := Run(events, store, digest), LeftOut(events, store, digest);
    RunKeeps(events, store, digest);
    ExactIsProjection(w.active, w.store, leftOut + Withheld(w.progress), digest);
  }

  /** Every key that was left out is no longer stored or not enabled. */
  predicate NoneStranded(leftOut: set<KeyId>, store: Store) {
    forall id :: id in leftOut && id in store ==> !store[id].enabled
  }

  lemma {:induction false} FullIff(w: World, leftOut: set<KeyId>, digest: Secret -> Digest)
    requires Injective(digest) && UniqueSecrets(w.store) && Sound(w.active, w.store, digest)
    requires Exact(w.active, w.store, leftOut, digest)
    ensures w.active == Projection(w.store, {}, digest) <==> NoneStranded(leftOut, w.store)
  {
    if NoneStranded(leftOut, w.store) {
      ExactIsProjection(w.active, w.store, {}, digest);
    } else {
      var id :| id in leftOut && id in w.store && w.store[id].enabled;
      assert digest(w.store[id].secret) in Projection(w.store, {}, digest);
    }
  }

  /** With no mutation in progress the map is the full projection exactly when no key that a
      cancelled mutation left out is still stored and enabled. */
  lemma {:induction false} QuiescentIff(events: seq<Event>, store: Store, digest: Secret -> Digest)
    requires Injective(digest) && UniqueSecrets(store)
    requires Run(events, store, digest).progress.Idle?
    ensures var w, leftOut := Run(events, store, digest), LeftOut(events, store, digest);
            && UniqueSecrets(w.store)
            && (w.active == Projection(w.store, {}, digest) <==> NoneStranded(leftOut, w.store))
  {
    var w, leftOut := Run(events, store, digest), LeftOut(events, store, digest);
    RunKeeps(events, store, digest);
    assert leftOut + Withheld(w.progress) == leftOut;
    FullIff(w, leftOut, digest);
  }

  /** Nothing is left out unless a mutation is cancelled at an await. */
  lemma {:induction false} NoCancelNothingLeftOut(events: seq<Event>, store: Store, digest: Secret -> Digest)
    requires Injective(digest) && UniqueSecrets(store) && Cancel !in events
    ensures LeftOut(events, store, digest) == {}
  {
    if events != [] {
      var before := events[..|events| - 1];
      assert forall e :: e in before ==> e in events;
      NoCancelNothingLeftOut(before, store, digest);
      assert events[|events| - 1] in events;
    }
  }

  /** A mutation that fails, or that the store does not accept, leaves the map and the store
      exactly as they were. */
  lemma {:induction false} FailureRestores(w: World, leftOut: set<KeyId>, op: Operation, removed: Removed, digest: Secret -> Digest)
    requires Injective(digest) && Inv(w, leftOut, digest) && Possible(w, Begin(op, removed))
    ensures Step(Step(w, Begin(op, removed), digest), Fail, digest) == w
    ensures !Applies(w.store, op) ==> Step(Step(Step(w, Begin(op, removed), digest), Write, digest), Finish, digest) == w
  {
    if removed.Entry? {
      RestoreUndoes(w.active, removed);
    }
  }

  /** A secret is admitted exactly when an enabled, unexpired stored key carries it and that key is
      neither being changed nor left out; what is returned is that key's stored identity. */
  lemma {:induction false} AdmittedIff(w: World, leftOut: set<KeyId>, digest: Secret -> Digest, secret: Secret, now: int, id: KeyId)
    requires Injective(digest) && Inv(w, leftOut, digest)
    ensures var r := Admitted(w.active, digest(secret), now);
            r.Some? && r.value.id == id <==>
            && id in w.store && w.store[id].enabled && w.store[id].secret == secret
            && id !in leftOut + Withheld(w.progress)
            && (w.store[id].expiresAt.Some? ==> now < w.store[id].expiresAt.value)
    ensures var r := Admitted(w.active, digest(secret), now);
            r.Some? ==> r.value.id in w.store && r.value == Project(r.value.id, w.store[r.value.id])
  {
    var d := digest(secret);
    if d in w.active {
      assert IsProjected(d, w.active[d], w.store, digest);
    }
    if id in w.store && w.store[id].enabled && w.store[id].secret == secret && id !in leftOut + Withheld(w.progress) {
      DigestNames(w.active, w.store, digest, id);
    }
  }

  /** Cancelling an update after it took the key out loses the key from the map, though it is still
      stored and enabled: a run from loading a store with one key. */
  lemma {:induction false} CancelledUpdateLosesKey(key: StoredKey, change: Change)
    requires key.enabled
    ensures var digest, store := (s: Secret) => s, map[7 := key];
            Injective(digest) && UniqueSecrets(store) &&
            var events := [Begin(Update(key.owner, 7, change), Entry(key.secret, Project(7, key))), Cancel];
            Run(events, store, digest) == World(store, map[], Idle)
  {
    var digest, store := (s: Secret) => s, map[7 := key];
    var begin := Begin(Update(key.owner, 7, change), Entry(key.secret, Project(7, key)));
    LoseKey(key, change, begin, store, [begin, Cancel], digest);
  }

  lemma {:induction false} LoseKey(key: StoredKey, change: Change, begin: Event, store: Store, events: seq<Event>, digest: Secret -> Digest)
    requires key.enabled && store == map[7 := key] && Injective(digest)
    requires begin == Begin(Update(key.owner, 7, change), Entry(digest(key.secret), Project(7, key))) && events == [begin, Cancel]
    ensures UniqueSecrets(store) && Run(events, store, digest) == World(store, map[], Idle)
  {
    LoadsOneKey(store, key, digest);
    TwoEvents(events, store, digest, begin, Cancel);
    LoseFrom(Loaded(store, digest), begin, key, change, digest);
  }

  lemma {:induction false} LoadsOneKey(store: Store, key: StoredKey, digest: Secret -> Digest)
    requires key.enabled && store == map[7 := key] && Injective(digest)
    ensures UniqueSecrets(store) && Loaded(store, digest) == World(store, map[digest(key.secret) := Project(7, key)], Idle)
  {
    var p := Projection(store, {}, digest);
    assert 7 in store && digest(store[7].secret) in p;
    assert p == map[digest(key.secret) := Project(7, key)];
  }

  lemma {:induction false} TwoEvents(events: seq<Event>, store: Store, digest: Secret -> Digest, a: Event, b: Event)
    requires Injective(digest) && UniqueSecrets(store) && events == [a, b]
    ensures Run(events, store, digest) == Next(Next(Loaded(store, digest), a, digest), b, digest)
  {
    var one := events[..1];
    assert one == [a] && one[..0] == [];
    assert Run([], store, digest) == Loaded(store, digest);
    assert Run(one, store, digest) == Next(Loaded(store, digest), a, digest);
  }

  lemma {:induction false} LoseFrom(w: World, begin: Event, key: StoredKey, change: Change, digest: Secret -> Digest)
    requires w == World(map[7 := key], map[digest(key.secret) := Project(7, key)], Idle)
    requires begin == Begin(Update(key.owner, 7, change), Entry(digest(key.secret), Project(7, key)))
    ensures Next(Next(w, begin, digest), Cancel, digest) == World(w.store, map[], Idle)
  {
    assert Possible(w, begin);
    assert w.active - {digest(key.secret)} == map[];
  }
}
