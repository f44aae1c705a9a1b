/** Inference admission: each account entry has two semaphores, one for running requests and one
    for running plus waiting requests. Awaits are separate steps, and so are the lookup of an
    account and the acquire at the entry found. */
module Admission {
  import opened Collections

  type RequestId = nat
  type AccountId = nat

  datatype Config = Config(concurrency: nat, queue: nat)

  /** The free permits of the two semaphores, and the requests that hold the others. */
  datatype Capacity = Capacity(
    activeFree: nat, admissionFree: nat, waiting: set<RequestId>, active: set<RequestId>)

  function NewCapacity(config: Config): (c: Capacity) {
    Capacity(config.concurrency, config.concurrency + config.queue, {}, {})
  }

  /** Every permit is either free or held by exactly one request. */
  predicate Balanced(c: Capacity, config: Config) {
    && c.waiting !! c.active
    && c.activeFree + |c.active| == config.concurrency
    && c.admissionFree + |c.waiting| + |c.active| == config.concurrency + config.queue
  }

  datatype Move =
    | Admit      // take an admission permit and start waiting
    | Activate   // the active semaphore grants a permit
    | GiveUp     // the deadline passes, or the waiting future is dropped
    | Release    // error, end of stream, or drop of the stream

  /** Whether the step can happen to the request. */
  predicate Enabled(c: Capacity, r: RequestId, m: Move) {
    match m
    case Admit => c.admissionFree > 0 && r !in c.waiting && r !in c.active
    case Activate => r in c.waiting && c.activeFree > 0
    case GiveUp => r in c.waiting
    case Release => r in c.active
  }

  function Moved(c: Capacity, r: RequestId, m: Move): (d: Capacity) {
    if !Enabled(c, r, m) then c
    else match m
      case Admit => c.(admissionFree := c.admissionFree - 1, waiting := c.waiting + {r})
      case Activate => c.(activeFree := c.activeFree - 1, waiting := c.waiting - {r}, active := c.active + {r})
      case GiveUp => c.(admissionFree := c.admissionFree + 1, waiting := c.waiting - {r})
      case Release =>
        c.(activeFree := c.activeFree + 1, admissionFree := c.admissionFree + 1, active := c.active - {r})
  }

  /** Every step keeps the balance of permits. */
  lemma {:induction false} MoveKeepsBalance(c: Capacity, config: Config, r: RequestId, m: Move)
    requires Balanced(c, config)
    ensures Balanced(Moved(c, r, m), config)
  {
    if Enabled(c, r, m) {
      match m
      case Admit => OneMore(c.waiting, r);
      case Activate => OneLess(c.waiting, r); OneMore(c.active, r);
      case GiveUp => OneLess(c.waiting, r);
      case Release => OneLess(c.active, r);
    }
  }

  lemma {:induction false} OneMore(s: set<RequestId>, r: RequestId)
    requires r !in s
    ensures |s + {r}| == |s| + 1
  {}

  lemma {:induction false} OneLess(s: set<RequestId>, r: RequestId)
    requires r in s
    ensures |s - {r}| == |s| - 1
  {}

  /** And no step touches another request. */
  lemma {:induction false} MoveTouchesOne(c: Capacity, r: RequestId, m: Move, other: RequestId)
    requires other != r
    ensures other in Moved(c, r, m).waiting <==> other in c.waiting
    ensures other in Moved(c, r, m).active <==> other in c.active
  {}

  /** The bounds a balanced capacity gives: never too many running or queued; a request is turned
      away only when running plus waiting is full, and waits only when running is full; and once
      nobody holds a permit, all of them are free again. */
  lemma {:induction false} BalancedBounds(c: Capacity, config: Config, r: RequestId)
    requires Balanced(c, config)
    ensures |c.active| <= config.concurrency && |c.active| + |c.waiting| <= config.concurrency + config.queue
    ensures r !in c.waiting && r !in c.active ==>
              (Enabled(c, r, Admit) <==> |c.active| + |c.waiting| < config.concurrency + config.queue)
    ensures r in c.waiting ==> (Enabled(c, r, Activate) <==> |c.active| < config.concurrency)
    ensures c.waiting == {} && c.active == {} ==> c == NewCapacity(config)
  {}

  // ----- The semaphores of one account -----

  /** The source's AccountInferenceCapacity. The holder sets are ghost: a request holds its permits
      in its own future or stream. */
  class AccountInferenceCapacity {
    const config: Config
    var activeFree: nat
    var admissionFree: nat
    ghost var waiting: set<RequestId>
    ghost var active: set<RequestId>

    ghost function View(): (c: Capacity)
      reads this
    {
      Capacity(activeFree, admissionFree, waiting, active)
    }

    ghost predicate Valid()
      reads this
    {
      Balanced(View(), config)
    }

    constructor (config: Config)
      ensures this.config == config && Valid() && View() == NewCapacity(config)
    {
      this.config := config;
      activeFree := config.concurrency;
      admissionFree := config.concurrency + config.queue;
      waiting, active := {}, {};
    }

    /** `try_acquire_owned` on the admission semaphore. */
    method TryAdmit(r: RequestId) returns (admitted: bool)
      requires Valid() && r !in waiting && r !in active
      modifies this
      ensures Valid() && View() == Moved(old(View()), r, Admit)
      ensures admitted <==> old(|waiting| + |active|) < config.concurrency + config.queue
    {
      MoveKeepsBalance(View(), config, r, Admit);
      if admissionFree == 0 {
        return false;
      }
      admissionFree := admissionFree - 1;
      waiting := waiting + {r};
      return true;
    }

    /** The active semaphore hands a waiting request a permit, if one is free. */
    method Grant(r: RequestId) returns (granted: bool)
      requires Valid() && r in waiting
      modifies this
      ensures Valid() && View() == Moved(old(View()), r, Activate)
      ensures granted <==> old(|active|) < config.concurrency
    {
      MoveKeepsBalance(View(), config, r, Activate);
      if activeFree == 0 {
        return false;
      }
      activeFree := activeFree - 1;
      waiting, active := waiting - {r}, active + {r};
      return true;
    }

    /** The admission permit is dropped with the failed or cancelled acquire. */
    method DropWaiting(r: RequestId)
      requires Valid() && r in waiting
      modifies this
      ensures Valid() && View() == Moved(old(View()), r, GiveUp)
    {
      MoveKeepsBalance(View(), config, r, GiveUp);
      admissionFree := admissionFree + 1;
      waiting := waiting - {r};
    }

    /** Both permits are dropped together. */
    method DropPermit(r: RequestId)
      requires Valid() && r in active
      modifies this
      ensures Valid() && View() == Moved(old(View()), r, Release)
    {
      MoveKeepsBalance(View(), config, r, Release);
      activeFree, admissionFree := activeFree + 1, admissionFree + 1;
      active := active - {r};
    }
  }

  /** The account map of the runtime. Entries share their capacity object by reference. */
  class AccountMap {
    const config: Config
    var accounts: map<AccountId, AccountInferenceCapacity>

    constructor (config: Config)
      ensures this.config == config && accounts == map[]
    {
      this.config := config;
      accounts := map[];
    }

    method Register(a: AccountId) returns (registered: bool)
      modifies this
      ensures registered <==> a !in old(accounts)
      ensures registered ==> accounts.Keys == old(accounts).Keys + {a} && fresh(accounts[a]) && accounts[a].View() == NewCapacity(config)
      ensures forall x :: x in old(accounts) ==> x in accounts && accounts[x] == old(accounts)[x]
      ensures !registered ==> accounts == old(accounts)
    {
      if a in accounts {
        return false;
      }
      var capacity := new AccountInferenceCapacity(config);
      accounts := accounts[a := capacity];
      return true;
    }

    /** Replacing a registered account keeps its capacity object, and with it every permit held. */
    method Replace(a: AccountId)
      modifies this
      ensures accounts.Keys == old(accounts).Keys + {a}
      ensures forall x :: x in old(accounts) ==> accounts[x] == old(accounts)[x]
      ensures a !in old(accounts) ==> fresh(accounts[a]) && accounts[a].View() == NewCapacity(config)
    {
      var capacity: AccountInferenceCapacity;
      if a in accounts {
        capacity := accounts[a];
      } else {
        capacity := new AccountInferenceCapacity(config);
      }
      accounts := accounts[a := capacity];
    }

    method Remove(a: AccountId) returns (removed: bool)
      modifies this
      ensures removed <==> a in old(accounts)
      ensures accounts == old(accounts) - {a}
    {
      removed := a in accounts;
      accounts := accounts - {a};
    }
  }

  // ----- Whole runs over many accounts -----

  /** Capacities are named by their index. A request first looks its account up and keeps the entry
      it found; `owner` and `home` remember the account and the capacity of that entry. While it is
      pending it has not yet tried to acquire a permit there. */
  datatype World = World(
    accounts: map<AccountId, nat>, capacities: seq<Capacity>,
    home: map<RequestId, nat>, owner: map<RequestId, AccountId>, pending: set<RequestId>)

  const EMPTY: World := World(map[], [], map[], map[], {})

  datatype Event =
    | Register(account: AccountId)
    | Replace(account: AccountId)
    | Remove(account: AccountId)
    | Lookup(account: AccountId, request: RequestId)
    | Acquire(request: RequestId)                // try for an admission permit, at the entry looked up
    | Leave(request: RequestId)                  // unavailable, or dropped before the attempt
    | Progress(request: RequestId, move: Move)   // once admitted

  function AddCapacity(w: World, a: AccountId, config: Config): (v: World) {
    w.(accounts := w.accounts[a := |w.capacities|], capacities := w.capacities + [NewCapacity(config)])
  }

  predicate InBounds(w: World) {
    && (forall a :: a in w.accounts ==> w.accounts[a] < |w.capacities|)
    && (forall r :: r in w.home ==> w.home[r] < |w.capacities|)
  }

  function Step(w: World, e: Event, config: Config): (v: World)
    requires InBounds(w)
  {
    match e
    case Register(a) => if a in w.accounts then w else AddCapacity(w, a, config)
    case Replace(a) => if a in w.accounts then w else AddCapacity(w, a, config)
    case Remove(a) => w.(accounts := w.accounts - {a})
    case Lookup(a, r) =>
      if a !in w.accounts || r in w.home then w
      else w.(home := w.home[r := w.accounts[a]], owner := w.owner[r := a], pending := w.pending + {r})
    case Acquire(r) =>
      if r !in w.pending || r !in w.home then w
      else MoveAtHome(w, r, Admit).(pending := w.pending - {r})
    case Leave(r) => w.(pending := w.pending - {r})
    case Progress(r, m) =>
      if r !in w.home || m.Admit? then w else MoveAtHome(w, r, m)
  }

  function MoveAtHome(w: World, r: RequestId, m: Move): (v: World)
    requires InBounds(w) && r in w.home
  {
    w.(capacities := w.capacities[w.home[r] := Moved(w.capacities[w.home[r]], r, m)])
  }

  predicate AllBalanced(capacities: seq<Capacity>, config: Config) {
    forall k :: 0 <= k < |capacities| ==> Balanced(capacities[k], config)
  }

  predicate Holds(c: Capacity, r: RequestId) { r in c.waiting || r in c.active }

  /** A permit is held only at the request's home. */
  ghost predicate HeldAtHome(capacities: seq<Capacity>, home: map<RequestId, nat>) {
    forall k, r :: 0 <= k < |capacities| && Holds(capacities[k], r) ==> r in home && home[r] == k
  }

  ghost predicate Inv(w: World, config: Config) {
    && InBounds(w) && AllBalanced(w.capacities, config) && HeldAtHome(w.capacities, w.home)
    && w.home.Keys == w.owner.Keys && PendingHoldNothing(w)
  }

  ghost predicate PendingHoldNothing(w: World)
    requires InBounds(w)
  {
    forall r :: r in w.pending ==> r in w.home && !Holds(w.capacities[w.home[r]], r)
  }

  lemma {:induction false} MoveKeepsHomes(capacities: seq<Capacity>, home: map<RequestId, nat>, r: RequestId, m: Move, config: Config)
    requires r in home && home[r] < |capacities| && AllBalanced(capacities, config) && HeldAtHome(capacities, home)
    ensures AllBalanced(capacities[home[r] := Moved(capacities[home[r]], r, m)], config)
    ensures HeldAtHome(capacities[home[r] := Moved(capacities[home[r]], r, m)], home)
  {
    var k := home[r];
    MoveKeepsBalance(capacities[k], config, r, m);
    var after := capacities[k := Moved(capacities[k], r, m)];
    forall j, x | 0 <= j < |after| && Holds(after[j], x)
      ensures x in home && home[x] == j
    {
      if x != r {
        MoveTouchesOne(capacities[k], r, m, x);
      }
      assert x != r || j != k ==> Holds(capacities[j], x);
    }
  }

  lemma {:induction false} MoveKeepsPending(w: World, r: RequestId, m: Move)
    requires InBounds(w) && PendingHoldNothing(w) && r in w.home && (r in w.pending ==> !m.Admit?)
    ensures PendingHoldNothing(MoveAtHome(w, r, m))
  {
    forall x | x in w.pending
      ensures !Holds(MoveAtHome(w, r, m).capacities[w.home[x]], x)
    {
      if x != r {
        MoveTouchesOne(w.capacities[w.home[r]], r, m, x);
      }
    }
  }

  lemma {:induction false} StepKeepsInv(w: World, e: Event, config: Config)
    requires Inv(w, config)
    ensures Inv(Step(w, e, config), config)
  {
    match e
    case Register(a) => AddKeepsInv(w, a, config);
    case Replace(a) => AddKeepsInv(w, a, config);
    case Remove(_) =>
    case Lookup(a, r) => LookupKeepsInv(w, a, r, config);
    case Acquire(r) =>
      if r in w.pending {
        MoveKeepsHomes(w.capacities, w.home, r, Admit, config);
        MoveKeepsPending(w.(pending := w.pending - {r}), r, Admit);
      }
    case Leave(_) =>
    case Progress(r, m) =>
      if r in w.home && !m.Admit? {
        MoveKeepsHomes(w.capacities, w.home, r, m, config);
        MoveKeepsPending(w, r, m);
      }
  }

  lemma {:induction false} LookupKeepsInv(w: World, a: AccountId, r: RequestId, config: Config)
    requires Inv(w, config)
    ensures Inv(Step(w, Lookup(a, r), config), config)
  {
    if a in w.accounts && r !in w.home {
      assert !Holds(w.capacities[w.accounts[a]], r);
    }
  }

  lemma {:induction false} AddKeepsInv(w: World, a: AccountId, config: Config)
    requires Inv(w, config)
    ensures Inv(AddCapacity(w, a, config), config)
  {}

  lemma {:induction false} StepInBounds(w: World, e: Event, config: Config)
    requires InBounds(w)
    ensures InBounds(Step(w, e, config))
  {}

  ghost function Run(events: seq<Event>, config: Config): (w: World)
    ensures InBounds(w)
  {
    if events == [] then EMPTY
    else
      var before := Run(events[..|events| - 1], config);
      StepInBounds(before, events[|events| - 1], config);
      Step(before, events[|events| - 1], config)
  }

  lemma {:induction false} RunKeepsInv(events: seq<Event>, config: Config)
    ensures Inv(Run(events, config), config)
  {
    if events != [] {
      RunKeepsInv(events[..|events| - 1], config);
      StepKeepsInv(Run(events[..|events| - 1], config), events[|events| - 1], config);
    }
  }

  /** In every run, every capacity ever created is within its bounds and leaks no permit. */
  lemma {:induction false} AdmissionIsSafe(events: seq<Event>, config: Config, k: nat)
    requires k < |Run(events, config).capacities|
    ensures var c := Run(events, config).capacities[k];
            && |c.active| <= config.concurrency
            && |c.active| + |c.waiting| <= config.concurrency + config.queue
            && c.activeFree == config.concurrency - |c.active|
            && c.admissionFree == config.concurrency + config.queue - |c.active| - |c.waiting|
  {
    RunKeepsInv(events, config);
    BalancedBounds(Run(events, config).capacities[k], config, 0);
  }

  /** The requests of an account that are running, wherever they were admitted. */
  ghost function ActiveOf(w: World, a: AccountId): (s: set<RequestId>)
    requires InBounds(w)
  {
    set r | r in w.home && r in w.owner && w.owner[r] == a && r in w.capacities[w.home[r]].active
  }

  ghost function WaitingOf(w: World, a: AccountId): (s: set<RequestId>)
    requires InBounds(w)
  {
    set r | r in w.home && r in w.owner && w.owner[r] == a && r in w.capacities[w.home[r]].waiting
  }

  predicate HoldsFor(w: World, r: RequestId, a: AccountId)
    requires InBounds(w)
  {
    r in w.home && r in w.owner && w.owner[r] == a && Holds(w.capacities[w.home[r]], r)
  }

  predicate PendsFor(w: World, r: RequestId, a: AccountId) {
    r in w.home && r in w.owner && w.owner[r] == a && r in w.pending
  }

  /** Everyone who holds a permit for the account holds it at its current capacity. */
  ghost predicate HoldersAtCurrent(w: World, a: AccountId)
    requires InBounds(w)
  {
    forall r :: HoldsFor(w, r, a) ==> a in w.accounts && w.home[r] == w.accounts[a]
  }

  /** The request holds a permit for the account, or has looked it up and may still acquire one. */
  predicate Engaged(w: World, r: RequestId, a: AccountId)
    requires InBounds(w)
  {
    HoldsFor(w, r, a) || PendsFor(w, r, a)
  }

  ghost predicate AllAtCurrent(w: World, a: AccountId)
    requires InBounds(w)
  {
    forall r :: Engaged(w, r, a) ==> a in w.accounts && w.home[r] == w.accounts[a]
  }

  ghost predicate Idle(w: World, a: AccountId)
    requires InBounds(w)
  {
    forall r :: !Engaged(w, r, a)
  }

  /** While its holders are at its current capacity, its running requests together stay within the concurrency, and with its waiting ones
      within concurrency plus queue. */
  lemma {:induction false} CurrentHoldersWithin(w: World, config: Config, a: AccountId)
    requires Inv(w, config) && HoldersAtCurrent(w, a)
    ensures |ActiveOf(w, a)| <= config.concurrency
    ensures |ActiveOf(w, a)| + |WaitingOf(w, a)| <= config.concurrency + config.queue
  {
    assert forall r :: r in ActiveOf(w, a) || r in WaitingOf(w, a) ==> HoldsFor(w, r, a);
    if a in w.accounts {
      var c := w.capacities[w.accounts[a]];
      BalancedBounds(c, config, 0);
      SubsetSize(ActiveOf(w, a), c.active);
      SubsetSize(WaitingOf(w, a), c.waiting);
    } else {
      assert ActiveOf(w, a) == {} && WaitingOf(w, a) == {};
    }
  }

  lemma {:induction false} StepKeepsCurrent(w: World, e: Event, config: Config, a: AccountId)
    requires Inv(w, config) && AllAtCurrent(w, a) && (e == Remove(a) ==> Idle(w, a))
    ensures InBounds(Step(w, e, config)) && AllAtCurrent(Step(w, e, config), a)
  {
    StepInBounds(w, e, config);
    var v := Step(w, e, config);
    forall r | Engaged(v, r, a)
      ensures a in v.accounts && v.home[r] == v.accounts[a]
    {
      StepEngages(w, e, config, a, r);
    }
  }

  /** Who is engaged after a step was engaged before, at the same capacity, or has just looked the
      account up. */
  lemma {:induction false} StepEngages(w: World, e: Event, config: Config, a: AccountId, r: RequestId)
    requires Inv(w, config) && InBounds(Step(w, e, config)) && Engaged(Step(w, e, config), r, a)
    ensures Engaged(w, r, a) || (e == Lookup(a, r) && a in w.accounts && Step(w, e, config).home[r] == w.accounts[a])
    ensures Engaged(w, r, a) ==> Step(w, e, config).home[r] == w.home[r]
  {
    if e.Progress? && e.request in w.home && r != e.request {
      MoveTouchesOne(w.capacities[w.home[e.request]], e.request, e.move, r);
    }
    if e.Acquire? && e.request in w.pending && r != e.request {
      MoveTouchesOne(w.capacities[w.home[e.request]], e.request, Admit, r);
    }
  }

  /** The account is only ever removed while nobody holds a permit for it or is about to ask for
      one. */
  ghost predicate RemovedOnlyIdle(events: seq<Event>, config: Config, a: AccountId) {
    events == [] ||
    (RemovedOnlyIdle(events[..|events| - 1], config, a) &&
     (events[|events| - 1] == Remove(a) ==> Idle(Run(events[..|events| - 1], config), a)))
  }

  /** However often an account is replaced, and even removed and registered again while idle, its
      requests together stay within the bounds of one capacity. */
  lemma {:induction false} ReplacingKeepsBound(events: seq<Event>, config: Config, a: AccountId)
    requires RemovedOnlyIdle(events, config, a)
    ensures AllAtCurrent(Run(events, config), a)
    ensures var w := Run(events, config);
            && |ActiveOf(w, a)| <= config.concurrency
            && |ActiveOf(w, a)| + |WaitingOf(w, a)| <= config.concurrency + config.queue
  {
    RunKeepsInv(events, config);
    if events == [] {
      assert AllAtCurrent(EMPTY, a);
    } else {
      var before := events[..|events| - 1];
      ReplacingKeepsBound(before, config, a);
      RunKeepsInv(before, config);
      StepKeepsCurrent(Run(before, config), events[|events| - 1], config, a);
    }
    CurrentHoldersWithin(Run(events, config), config, a);
  }

  // ----- When the bound is lost -----

  /** A run carried on from a world. */
  ghost function Then(w: World, events: seq<Event>, config: Config): (v: World)
    requires InBounds(w)
    ensures InBounds(v)
  {
    if events == [] then w
    else
      var before := Then(w, events[..|events| - 1], config);
      StepInBounds(before, events[|events| - 1], config);
      Step(before, events[|events| - 1], config)
  }

  lemma {:induction false} RunThen(events: seq<Event>, more: seq<Event>, config: Config)
    ensures Run(events + more, config) == Then(Run(events, config), more, config)
  {
    if more == [] {
      assert events + more == events;
    } else {
      RunThen(events, more[..|more| - 1], config);
      assert (events + more)[..|events + more| - 1] == events + more[..|more| - 1];
    }
  }

  lemma {:induction false} ThenPush(w: World, events: seq<Event>, e: Event, config: Config)
    requires InBounds(w)
    ensures Then(w, events + [e], config) == Step(Then(w, events, config), e, config)
  {
    assert (events + [e])[..|events|] == events;
  }

  lemma {:induction false} ThenThen(w: World, a: seq<Event>, b: seq<Event>, config: Config)
    requires InBounds(w)
    ensures Then(w, a + b, config) == Then(Then(w, a, config), b, config)
  {
    if b == [] {
      assert a + b == a;
    } else {
      ThenThen(w, a, b[..|b| - 1], config);
      assert (a + b)[..|a + b| - 1] == a + b[..|b| - 1];
    }
  }

  /** Each capacity serves one account. */
  ghost predicate OwnersAgree(w: World) {
    && (forall a, b :: a in w.accounts && b in w.accounts && w.accounts[a] == w.accounts[b] ==> a == b)
    && (forall a, r :: a in w.accounts && r in w.home && r in w.owner && w.home[r] == w.accounts[a] ==> w.owner[r] == a)
    && (forall r, s :: r in w.home && s in w.home && r in w.owner && s in w.owner && w.home[r] == w.home[s] ==> w.owner[r] == w.owner[s])
  }

  ghost predicate Sane(w: World, config: Config) { Inv(w, config) && OwnersAgree(w) }

  lemma {:induction false} StepKeepsSane(w: World, e: Event, config: Config)
    requires Sane(w, config)
    ensures Sane(Step(w, e, config), config)
  {
    StepKeepsInv(w, e, config);
    StepKeepsOwners(w, e, config);
  }

  lemma {:induction false} StepKeepsOwners(w: World, e: Event, config: Config)
    requires InBounds(w) && w.home.Keys == w.owner.Keys && OwnersAgree(w)
    ensures OwnersAgree(Step(w, e, config))
  {
    match e
    case Register(a) => AddKeepsOwners(w, a, config);
    case Replace(a) => AddKeepsOwners(w, a, config);
    case Remove(_) =>
    case Lookup(a, r) =>
      if a in w.accounts && r !in w.home {
        LookupKeepsOwners(w, w.(home := w.home[r := w.accounts[a]], owner := w.owner[r := a]), a, r);
      }
    case Acquire(_) =>
    case Leave(_) =>
    case Progress(_, _) =>
  }

  lemma {:induction false} LookupKeepsOwners(w: World, v: World, a: AccountId, r: RequestId)
    requires OwnersAgree(w) && a in w.accounts && r !in w.home && r !in w.owner && w.home.Keys == w.owner.Keys
    requires v.accounts == w.accounts && v.home == w.home[r := w.accounts[a]] && v.owner == w.owner[r := a]
    ensures OwnersAgree(v)
  {}

  lemma {:induction false} AddKeepsOwners(w: World, a: AccountId, config: Config)
    requires InBounds(w) && OwnersAgree(w)
    ensures OwnersAgree(AddCapacity(w, a, config))
  {}

  lemma {:induction false} ThenKeepsSane(w: World, events: seq<Event>, config: Config)
    requires Sane(w, config)
    ensures Sane(Then(w, events, config), config)
  {
    if events != [] {
      ThenKeepsSane(w, events[..|events| - 1], config);
      StepKeepsSane(Then(w, events[..|events| - 1], config), events[|events| - 1], config);
    }
  }

  /** Only one capacity changed, and no request moved. */
  ghost predicate OnlyAt(w: World, v: World, k: nat) {
    && v.accounts == w.accounts && |v.capacities| == |w.capacities|
    && (forall j :: 0 <= j < |w.capacities| && j != k ==> v.capacities[j] == w.capacities[j])
    && (forall r :: r in w.home ==> r in v.home && v.home[r] == w.home[r])
    && (forall r :: r in w.owner ==> r in v.owner && v.owner[r] == w.owner[r])
  }

  /** One more request of the account can be made to run while its capacity has room. */
  lemma {:induction false} RunOneMore(w: World, config: Config, a: AccountId) returns (more: seq<Event>)
    requires Sane(w, config) && a in w.accounts && |w.capacities[w.accounts[a]].active| < config.concurrency
    ensures Remove(a) !in more && OnlyAt(w, Then(w, more, config), w.accounts[a])
    ensures |Then(w, more, config).capacities[w.accounts[a]].active| == |w.capacities[w.accounts[a]].active| + 1
  {
    var c := w.capacities[w.accounts[a]];
    if c.waiting != {} {
      var r :| r in c.waiting;
      assert Holds(c, r);
      more := [Progress(r, Activate)];
      ThenOne(w, Progress(r, Activate), config);
      ActivateStep(w, config, r);
      OneMore(c.active, r);
    } else {
      var r := NumberAbove(w.home.Keys);
      more := [Lookup(a, r)] + Begin(r);
      LookupAndBegin(w, config, a, r);
    }
  }

  /** The pending request acquires a permit and is activated. */
  function Begin(r: RequestId): (events: seq<Event>) { [Acquire(r)] + [Progress(r, Activate)] }

  lemma {:induction false} LookupAndBegin(w: World, config: Config, a: AccountId, r: RequestId)
    requires Inv(w, config) && a in w.accounts && r !in w.home
    requires w.capacities[w.accounts[a]].waiting == {} && |w.capacities[w.accounts[a]].active| < config.concurrency
    ensures var v := Then(w, [Lookup(a, r)] + Begin(r), config);
            OnlyAt(w, v, w.accounts[a]) && |v.capacities[w.accounts[a]].active| == |w.capacities[w.accounts[a]].active| + 1
  {
    var found := Step(w, Lookup(a, r), config);
    ThenOne(w, Lookup(a, r), config);
    ThenThen(w, [Lookup(a, r)], Begin(r), config);
    StepKeepsInv(w, Lookup(a, r), config);
    BeginRuns(found, config, r);
    OneMore(w.capacities[w.accounts[a]].active, r);
  }

  lemma {:induction false} BeginRuns(w: World, config: Config, r: RequestId)
    requires Inv(w, config) && r in w.pending
    requires w.capacities[w.home[r]].waiting == {} && |w.capacities[w.home[r]].active| < config.concurrency
    ensures var v := Then(w, Begin(r), config);
            && OnlyAt(w, v, w.home[r]) && r !in w.capacities[w.home[r]].active
            && v.capacities[w.home[r]].active == w.capacities[w.home[r]].active + {r}
            && v.home == w.home && v.owner == w.owner && v.pending == w.pending - {r}
  {
    ThenOne(w, Acquire(r), config);
    ThenPush(w, [Acquire(r)], Progress(r, Activate), config);
    AcquireStep(w, config, r);
    ActivateStep(Step(w, Acquire(r), config), config, r);
  }

  lemma {:induction false} ThenOne(w: World, e: Event, config: Config)
    requires InBounds(w)
    ensures Then(w, [e], config) == Step(w, e, config)
  {
    assert [e][..0] == [];
  }

  lemma {:induction false} ActivateStep(w: World, config: Config, r: RequestId)
    requires InBounds(w) && r in w.home && r in w.capacities[w.home[r]].waiting && w.capacities[w.home[r]].activeFree > 0
    ensures OnlyAt(w, Step(w, Progress(r, Activate), config), w.home[r])
    ensures var v := Step(w, Progress(r, Activate), config);
            && v.capacities[w.home[r]].active == w.capacities[w.home[r]].active + {r}
            && v.home == w.home && v.owner == w.owner && v.pending == w.pending
  {}

  lemma {:induction false} AcquireStep(w: World, config: Config, r: RequestId)
    requires Inv(w, config) && r in w.pending
    requires w.capacities[w.home[r]].waiting == {} && |w.capacities[w.home[r]].active| < config.concurrency
    ensures var v, k := Step(w, Acquire(r), config), w.home[r];
            && InBounds(v) && OnlyAt(w, v, k) && v.home == w.home && v.owner == w.owner && v.pending == w.pending - {r}
            && r in v.capacities[k].waiting && v.capacities[k].active == w.capacities[k].active && v.capacities[k].activeFree > 0
            && r !in w.capacities[k].active
  {
    var c := w.capacities[w.home[r]];
    assert !Holds(c, r);
    assert |c.waiting| == 0;
    StepInBounds(w, Acquire(r), config);
  }

  /** So the account can be brought to its full concurrency. */
  lemma {:induction false} FillUp(w: World, config: Config, a: AccountId) returns (more: seq<Event>)
    requires Sane(w, config) && a in w.accounts
    ensures Remove(a) !in more && OnlyAt(w, Then(w, more, config), w.accounts[a])
    ensures |Then(w, more, config).capacities[w.accounts[a]].active| == config.concurrency
    decreases config.concurrency - |w.capacities[w.accounts[a]].active|
  {
    BalancedBounds(w.capacities[w.accounts[a]], config, 0);
    if |w.capacities[w.accounts[a]].active| == config.concurrency {
      more := [];
    } else {
      var first := RunOneMore(w, config, a);
      var v := Then(w, first, config);
      ThenKeepsSane(w, first, config);
      var rest := FillUp(v, config, a);
      more := first + rest;
      ThenThen(w, first, rest, config);
    }
  }

  /** Some request of the account runs at a capacity that is not its current one. */
  ghost predicate StrayRuns(w: World, a: AccountId, r: RequestId)
    requires InBounds(w)
  {
    a in w.accounts && r in w.home && r in w.owner && w.owner[r] == a && w.home[r] != w.accounts[a] && r in w.capacities[w.home[r]].active
  }

  /** With such a stray, the account can run more than its concurrency. */
  lemma {:induction false} StrayExceeds(w: World, config: Config, a: AccountId, r: RequestId) returns (more: seq<Event>)
    requires Sane(w, config) && StrayRuns(w, a, r)
    ensures Remove(a) !in more && |ActiveOf(Then(w, more, config), a)| > config.concurrency
  {
    more := FillUp(w, config, a);
    ThenKeepsSane(w, more, config);
    var v := Then(w, more, config);
    CurrentAreActive(v, config, a);
    assert r in ActiveOf(v, a);
    assert v.home[r] != v.accounts[a];
    CountStray(v, config, a, r);
  }

  lemma {:induction false} CurrentAreActive(v: World, config: Config, a: AccountId)
    requires Sane(v, config) && a in v.accounts
    ensures v.capacities[v.accounts[a]].active <= ActiveOf(v, a)
  {
    forall x | x in v.capacities[v.accounts[a]].active
      ensures x in ActiveOf(v, a)
    {
      assert Holds(v.capacities[v.accounts[a]], x);
    }
  }

  lemma {:induction false} CountStray(v: World, config: Config, a: AccountId, r: RequestId)
    requires Inv(v, config) && a in v.accounts && r in v.home && v.home[r] != v.accounts[a] && r in ActiveOf(v, a)
    requires v.capacities[v.accounts[a]].active <= ActiveOf(v, a)
    ensures |ActiveOf(v, a)| > |v.capacities[v.accounts[a]].active|
  {
    var c := v.capacities[v.accounts[a]];
    assert !Holds(c, r);
    var full := c.active;
    OneMore(full, r);
    SubsetSize(full + {r}, ActiveOf(v, a));
  }

  /** A request engaged at another capacity can be turned into one that runs there. */
  lemma {:induction false} MakeStray(w: World, config: Config, a: AccountId, h: RequestId) returns (more: seq<Event>, r: RequestId)
    requires Sane(w, config) && config.concurrency > 0 && a in w.accounts && Engaged(w, h, a) && w.home[h] != w.accounts[a]
    ensures Remove(a) !in more && StrayRuns(Then(w, more, config), a, r)
  {
    var c := w.capacities[w.home[h]];
    if c.active != {} {
      r :| r in c.active;
      assert Holds(c, r);
      more := [];
    } else if c.waiting != {} {
      r :| r in c.waiting;
      assert Holds(c, r);
      more := [Progress(r, Activate)];
      WaitingStrays(w, config, a, r);
    } else {
      r := h;
      more := Begin(h);
      PendingStrays(w, config, a, h);
    }
  }

  lemma {:induction false} WaitingStrays(w: World, config: Config, a: AccountId, r: RequestId)
    requires Inv(w, config) && a in w.accounts && HoldsFor(w, r, a) && w.home[r] != w.accounts[a]
    requires r in w.capacities[w.home[r]].waiting && w.capacities[w.home[r]].activeFree > 0
    ensures StrayRuns(Then(w, [Progress(r, Activate)], config), a, r)
  {
    ThenOne(w, Progress(r, Activate), config);
    ActivateStep(w, config, r);
  }

  lemma {:induction false} PendingStrays(w: World, config: Config, a: AccountId, r: RequestId)
    requires Inv(w, config) && a in w.accounts && PendsFor(w, r, a) && w.home[r] != w.accounts[a]
    requires w.capacities[w.home[r]].waiting == {} && |w.capacities[w.home[r]].active| < config.concurrency
    ensures StrayRuns(Then(w, Begin(r), config), a, r)
  {
    BeginRuns(w, config, r);
  }

  lemma {:induction false} ExceedsFrom(w: World, config: Config, a: AccountId, h: RequestId) returns (more: seq<Event>)
    requires Sane(w, config) && config.concurrency > 0 && a in w.accounts && Engaged(w, h, a) && w.home[h] != w.accounts[a]
    ensures Remove(a) !in more && |ActiveOf(Then(w, more, config), a)| > config.concurrency
  {
    var first, r := MakeStray(w, config, a, h);
    ThenKeepsSane(w, first, config);
    var rest := StrayExceeds(Then(w, first, config), config, a, r);
    more := first + rest;
    ThenThen(w, first, rest, config);
  }

  /** A request engaged anywhere else lets some continuation exceed the
      concurrency, without another removal. */
  lemma {:induction false} Exceeds(w: World, config: Config, a: AccountId) returns (more: seq<Event>)
    requires Sane(w, config) && config.concurrency > 0 && !AllAtCurrent(w, a)
    ensures Remove(a) !in more && |ActiveOf(Then(w, more, config), a)| > config.concurrency
  {
    var h :| Engaged(w, h, a) && !(a in w.accounts && w.home[h] == w.accounts[a]);
    if a in w.accounts {
      more := ExceedsFrom(w, config, a, h);
    } else {
      var v := Step(w, Register(a), config);
      StepKeepsSane(w, Register(a), config);
      var rest := ExceedsFrom(v, config, a, h);
      more := [Register(a)] + rest;
      ThenOne(w, Register(a), config);
      ThenThen(w, [Register(a)], rest, config);
    }
  }

  lemma {:induction false} ThenKeepsCurrent(w: World, more: seq<Event>, config: Config, a: AccountId)
    requires Inv(w, config) && AllAtCurrent(w, a) && Remove(a) !in more
    ensures Inv(Then(w, more, config), config) && AllAtCurrent(Then(w, more, config), a)
  {
    if more != [] {
      var init, e := more[..|more| - 1], more[|more| - 1];
      assert e in more && forall x :: x in init ==> x in more;
      ThenKeepsCurrent(w, init, config, a);
      StepKeepsInv(Then(w, init, config), e, config);
      StepKeepsCurrent(Then(w, init, config), e, config, a);
    }
  }

  lemma {:induction false} RunIsSane(events: seq<Event>, config: Config)
    ensures Sane(Run(events, config), config)
  {
    assert Sane(EMPTY, config);
    ThenKeepsSane(EMPTY, events, config);
    RunThen([], events, config);
    assert [] + events == events;
  }

  /** After any run, the account's bound holds in every continuation that does not remove it
      exactly when everyone who holds a permit for it, or has looked it up and not yet tried to
      acquire one, does so at its current capacity. */
  lemma {:induction false} BoundKeptIff(events: seq<Event>, config: Config, a: AccountId)
    requires config.concurrency > 0
    ensures AllAtCurrent(Run(events, config), a) <==>
            forall more :: Remove(a) !in more ==> |ActiveOf(Run(events + more, config), a)| <= config.concurrency
  {
    var w := Run(events, config);
    RunIsSane(events, config);
    if AllAtCurrent(w, a) {
      forall more | Remove(a) !in more
        ensures |ActiveOf(Run(events + more, config), a)| <= config.concurrency
      {
        RunThen(events, more, config);
        ThenKeepsCurrent(w, more, config, a);
        CurrentHoldersWithin(Then(w, more, config), config, a);
      }
    } else {
      var more := Exceeds(w, config, a);
      RunThen(events, more, config);
    }
  }

  // ----- A run that exceeds it -----

  /** Register the account, then have the request look it up, acquire a permit and run. */
  function FreshStart(a: AccountId, r: RequestId): (events: seq<Event>) {
    [Register(a)] + ([Lookup(a, r)] + Begin(r))
  }

  lemma {:induction false} Starts(w: World, config: Config, a: AccountId, r: RequestId)
    requires Inv(w, config) && r in w.pending && w.owner[r] == a && w.capacities[w.home[r]] == NewCapacity(config) && config.concurrency > 0
    ensures ActiveOf(Then(w, Begin(r), config), a) == ActiveOf(w, a) + {r}
  {
    BeginRuns(w, config, r);
    var v := Then(w, Begin(r), config);
    forall x
      ensures x in ActiveOf(v, a) <==> x in ActiveOf(w, a) || x == r
    {}
  }

  lemma {:induction false} LookupStarts(w: World, config: Config, a: AccountId, r: RequestId)
    requires Inv(w, config) && a in w.accounts && r !in w.home && w.capacities[w.accounts[a]] == NewCapacity(config) && config.concurrency > 0
    ensures var v := Then(w, [Lookup(a, r)] + Begin(r), config);
            ActiveOf(v, a) == ActiveOf(w, a) + {r} && v.home.Keys == w.home.Keys + {r}
  {
    var found := Step(w, Lookup(a, r), config);
    ThenOne(w, Lookup(a, r), config);
    ThenThen(w, [Lookup(a, r)], Begin(r), config);
    StepKeepsInv(w, Lookup(a, r), config);
    Starts(found, config, a, r);
    BeginRuns(found, config, r);
    LookupIsQuiet(w, config, a, r);
  }

  lemma {:induction false} LookupIsQuiet(w: World, config: Config, a: AccountId, r: RequestId)
    requires Inv(w, config)
    ensures InBounds(Step(w, Lookup(a, r), config)) && ActiveOf(Step(w, Lookup(a, r), config), a) == ActiveOf(w, a)
  {
    StepInBounds(w, Lookup(a, r), config);
    if a in w.accounts && r !in w.home {
      assert !Holds(w.capacities[w.accounts[a]], r);
    }
  }

  lemma {:induction false} StartsAnother(w: World, config: Config, a: AccountId, r: RequestId)
    requires Inv(w, config) && a !in w.accounts && r !in w.home && config.concurrency > 0
    ensures var v := Then(w, FreshStart(a, r), config);
            ActiveOf(v, a) == ActiveOf(w, a) + {r} && v.home.Keys == w.home.Keys + {r}
  {
    var added := AddCapacity(w, a, config);
    ThenOne(w, Register(a), config);
    ThenThen(w, [Register(a)], [Lookup(a, r)] + Begin(r), config);
    AddKeepsInv(w, a, config);
    LookupStarts(added, config, a, r);
    assert ActiveOf(added, a) == ActiveOf(w, a);
  }

  /** A request looks the account up, and the account is removed and registered again before the
      request tries to acquire a permit. */
  function LookupRace(a: AccountId): (events: seq<Event>) {
    [Register(a)] + [Lookup(a, 1)] + [Remove(a)] + [Register(a)]
  }

  /** With a concurrency of one that leads to two running requests, though nobody holds a permit
      during the removal or right after it. */
  lemma {:induction false} LookupOutlivesRemoval(a: AccountId)
    ensures var w := Run(LookupRace(a), Config(1, 0));
            (forall r :: !HoldsFor(w, r, a)) && !AllAtCurrent(w, a)
    ensures ActiveOf(Run(LookupRace(a) + Begin(1) + ([Lookup(a, 2)] + Begin(2)), Config(1, 0)), a) == {1, 2}
  {
    var config := Config(1, 0);
    assert Engaged(Run(LookupRace(a), config), 1, a) by { RaceState(a, config); }
    RaceState(a, config);
    RaceFirst(a, config);
    var one := Run(LookupRace(a) + Begin(1), config);
    RunKeepsInv(LookupRace(a) + Begin(1), config);
    RunThen(LookupRace(a) + Begin(1), [Lookup(a, 2)] + Begin(2), config);
    LookupStarts(one, config, a, 2);
  }

  lemma {:induction false} RaceFirst(a: AccountId, config: Config)
    requires config.concurrency > 0
    ensures var one := Run(LookupRace(a) + Begin(1), config);
            ActiveOf(one, a) == {1} && one.accounts == map[a := 1] && one.home == map[1 := 0] &&
            |one.capacities| == 2 && one.capacities[1] == NewCapacity(config)
  {
    var w := Run(LookupRace(a), config);
    RaceState(a, config);
    RunKeepsInv(LookupRace(a), config);
    RunThen(LookupRace(a), Begin(1), config);
    BeginRuns(w, config, 1);
    Starts(w, config, a, 1);
    assert ActiveOf(w, a) == {};
  }

  lemma {:induction false} RaceState(a: AccountId, config: Config)
    ensures Run(LookupRace(a), config) ==
            World(map[a := 1], [NewCapacity(config), NewCapacity(config)], map[1 := 0], map[1 := a], {1})
  {
    var found := World(map[a := 0], [NewCapacity(config)], map[1 := 0], map[1 := a], {1});
    var removed := World(map[], [NewCapacity(config)], map[1 := 0], map[1 := a], {1});
    assert [Register(a)][..0] == [];
    RunPush([Register(a)], Lookup(a, 1), config);
    RunPush([Register(a)] + [Lookup(a, 1)], Remove(a), config);
    RunPush([Register(a)] + [Lookup(a, 1)] + [Remove(a)], Register(a), config);
    assert Step(found, Remove(a), config) == removed;
  }

  lemma {:induction false} RunPush(events: seq<Event>, e: Event, config: Config)
    ensures Run(events + [e], config) == Step(Run(events, config), e, config)
  {
    assert (events + [e])[..|events|] == events;
  }

  /** With a concurrency of one, removing an account while its request runs and registering it
      again leaves two of its requests running. */
  lemma {:induction false} RemovalForgetsHolders(a: AccountId)
    ensures var events := FreshStart(a, 1) + [Remove(a)] + FreshStart(a, 2);
            ActiveOf(Run(events, Config(1, 0)), a) == {1, 2}
  {
    var config := Config(1, 0);
    var start := FreshStart(a, 1) + [Remove(a)];
    OneRemoved(a, config);
    RunKeepsInv(start, config);
    RunThen(start, FreshStart(a, 2), config);
    StartsAnother(Run(start, config), config, a, 2);
  }

  lemma {:induction false} OneRemoved(a: AccountId, config: Config)
    requires config.concurrency > 0
    ensures var w := Run(FreshStart(a, 1) + [Remove(a)], config);
            a !in w.accounts && w.home.Keys == {1} && ActiveOf(w, a) == {1}
  {
    RunPush(FreshStart(a, 1), Remove(a), config);
    RunThen([], FreshStart(a, 1), config);
    assert [] + FreshStart(a, 1) == FreshStart(a, 1);
    StartsAnother(EMPTY, config, a, 1);
    RunKeepsInv(FreshStart(a, 1), config);
    var one := Run(FreshStart(a, 1), config);
    assert ActiveOf(Step(one, Remove(a), config), a) == ActiveOf(one, a);
  }
}
