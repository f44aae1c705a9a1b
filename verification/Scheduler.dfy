/** The credential refresh scheduler: a timer queue and a map from account to timer key that must
    name exactly the live timers. */
module Scheduler {
  import opened Wrappers

  type AccountId = nat
  type Key = nat

  const BACKOFF_BASE: nat := 30
  const BACKOFF_MAX: nat := 300
  const JITTER: nat := 16
  const U32_MAX: nat := 0xFFFF_FFFF

  // ----- Backoff -----

  function Min(a: nat, b: nat): (m: nat) { if a <= b then a else b }

  function Doubled(n: nat, times: nat): (r: nat) {
    if times == 0 then n else 2 * Doubled(n, times - 1)
  }

  /** The delay in seconds after `attempts` consecutive failures; `hash` stands for the account. */
  function RefreshBackoff(hash: nat, attempts: nat): (seconds: nat) {
    var exponent := Min(if attempts == 0 then 0 else attempts - 1, 4);
    Min(Doubled(BACKOFF_BASE, exponent), BACKOFF_MAX) + hash % JITTER
  }

  /** The first four delays double from the base, later ones stay at the cap. */
  lemma {:induction false} BackoffLadder(hash: nat, attempts: nat)
    ensures RefreshBackoff(hash, attempts) - hash % JITTER ==
            (if attempts <= 1 then 30 else if attempts == 2 then 60 else if attempts == 3 then 120
             else if attempts == 4 then 240 else 300)
  {
    assert Doubled(30, 1) == 60;
    assert Doubled(30, 2) == 120;
    assert Doubled(30, 3) == 240;
    assert Doubled(30, 4) == 480;
  }

  /** Backoff never shrinks as failures mount, and lies between 30 and 315 seconds. */
  lemma {:induction false} BackoffIsBoundedAndMonotone(hash: nat, fewer: nat, more: nat)
    requires fewer <= more
    ensures RefreshBackoff(hash, fewer) <= RefreshBackoff(hash, more)
    ensures 30 <= RefreshBackoff(hash, fewer) <= 315
  {
    BackoffLadder(hash, fewer);
    BackoffLadder(hash, more);
  }

  // ----- The schedule as a value -----

  datatype Timer = Timer(account: AccountId, delay: nat)

  datatype Schedule = Schedule(timers: map<Key, Timer>, keys: map<AccountId, Key>, failures: map<AccountId, nat>)

  const EMPTY: Schedule := Schedule(map[], map[], map[])

  /** The key map names exactly the live timers. */
  predicate Agree(timers: map<Key, Timer>, keys: map<AccountId, Key>) {
    && (forall a :: a in keys ==> keys[a] in timers && timers[keys[a]].account == a)
    && (forall k :: k in timers ==> timers[k].account in keys && keys[timers[k].account] == k)
  }

  /** What the runtime says about an account that asks to be rescheduled. */
  datatype Lookup = RuntimeGone | NoRefresh | RefreshIn(delay: nat)

  /** Set the account's timer: reset its live one, or insert one in a free slot. */
  function WithTimer(s: Schedule, a: AccountId, delay: nat, slot: Key): (t: Schedule) {
    if a in s.keys then s.(timers := s.timers[s.keys[a] := Timer(a, delay)])
    else s.(timers := s.timers[slot := Timer(a, delay)], keys := s.keys[a := slot])
  }

  function WithoutTimer(s: Schedule, a: AccountId): (t: Schedule) {
    if a in s.keys then s.(timers := s.timers - {s.keys[a]}, keys := s.keys - {a}) else s
  }

  function Failures(s: Schedule, a: AccountId): (n: nat) {
    if a in s.failures then s.failures[a] else 0
  }

  function Forgiven(s: Schedule, a: AccountId): (t: Schedule) {
    s.(failures := s.failures - {a})
  }

  function OneMoreFailure(s: Schedule, a: AccountId): (t: Schedule) {
    s.(failures := s.failures[a := Min(Failures(s, a) + 1, U32_MAX)])
  }

  /** `slot` is the queue slot an insertion would use. */
  datatype Event =
    | Reschedule(account: AccountId, lookup: Lookup, slot: Key)
    | Backoff(account: AccountId, slot: Key)
    | Remove(account: AccountId)
    | Fire(account: AccountId, key: Key)

  function Step(s: Schedule, e: Event, hash: AccountId -> nat): (t: Schedule) {
    match e
    case Reschedule(a, lookup, slot) =>
      var f := Forgiven(s, a);
      (match lookup
       case RuntimeGone => f
       case NoRefresh => WithoutTimer(f, a)
       case RefreshIn(delay) => WithTimer(f, a, delay, slot))
    case Backoff(a, slot) =>
      var f := OneMoreFailure(s, a);
      WithTimer(f, a, RefreshBackoff(hash(a), Failures(f, a)), slot)
    case Remove(a) => WithoutTimer(Forgiven(s, a), a)
    case Fire(a, key) => s.(timers := s.timers - {key}, keys := s.keys - {a})
  }

  /** A free slot is free, and only a live timer fires, handing over its account. */
  predicate Possible(s: Schedule, e: Event) {
    match e
    case Reschedule(_, _, slot) => slot !in s.timers
    case Backoff(_, slot) => slot !in s.timers
    case Remove(_) => true
    case Fire(a, key) => key in s.timers && s.timers[key].account == a
  }

  lemma {:induction false} WithTimerAgrees(s: Schedule, a: AccountId, delay: nat, slot: Key)
    requires Agree(s.timers, s.keys) && slot !in s.timers
    ensures Agree(WithTimer(s, a, delay, slot).timers, WithTimer(s, a, delay, slot).keys)
  {}

  lemma {:induction false} WithoutTimerAgrees(s: Schedule, a: AccountId)
    requires Agree(s.timers, s.keys)
    ensures Agree(WithoutTimer(s, a).timers, WithoutTimer(s, a).keys)
  {}

  lemma {:induction false} StepAgrees(s: Schedule, e: Event, hash: AccountId -> nat)
    requires Agree(s.timers, s.keys) && Possible(s, e)
    ensures Agree(Step(s, e, hash).timers, Step(s, e, hash).keys)
  {
    match e
    case Reschedule(a, lookup, slot) =>
      WithoutTimerAgrees(Forgiven(s, a), a);
      if lookup.RefreshIn? {
        WithTimerAgrees(Forgiven(s, a), a, lookup.delay, slot);
      }
    case Backoff(a, slot) =>
      var f := OneMoreFailure(s, a);
      WithTimerAgrees(f, a, RefreshBackoff(hash(a), Failures(f, a)), slot);
    case Remove(a) => WithoutTimerAgrees(Forgiven(s, a), a);
    case Fire(a, key) =>
      assert s.keys[a] == key;
      FireIsRemoval(s, a, key);
      WithoutTimerAgrees(s, a);
  }

  /** With agreement, a fired timer is the account's own. */
  lemma {:induction false} FireIsRemoval(s: Schedule, a: AccountId, key: Key)
    requires Agree(s.timers, s.keys) && key in s.timers && s.timers[key].account == a
    ensures s.(timers := s.timers - {key}, keys := s.keys - {a}) == WithoutTimer(s, a)
  {}

  // ----- The scheduler itself -----

  /** A delay queue. Resetting or removing a key that names no live timer is an error. */
  class DelayQueue {
    var timers: map<Key, Timer>

    constructor ()
      ensures timers == map[]
    {
      timers := map[];
    }

    method Insert(a: AccountId, delay: nat, slot: Key) returns (key: Key)
      requires slot !in timers
      modifies this
      ensures key == slot && timers == old(timers)[slot := Timer(a, delay)]
    {
      timers := timers[slot := Timer(a, delay)];
      return slot;
    }

    method Reset(key: Key, delay: nat)
      requires key in timers
      modifies this
      ensures timers == old(timers)[key := Timer(old(timers)[key].account, delay)]
    {
      timers := timers[key := timers[key].(delay := delay)];
    }

    method RemoveKey(key: Key)
      requires key in timers
      modifies this
      ensures timers == old(timers) - {key}
    {
      timers := timers - {key};
    }
  }

  datatype RefreshResult = Refreshed | ReauthRequired | OtherFailure

  class RefreshScheduler {
    const queue: DelayQueue
    var keys: map<AccountId, Key>
    var failures: map<AccountId, nat>

    ghost function View(): (s: Schedule)
      reads this, queue
    {
      Schedule(queue.timers, keys, failures)
    }

    ghost predicate Valid()
      reads this, queue
    {
      Agree(queue.timers, keys)
    }

    constructor ()
      ensures Valid() && View() == EMPTY && fresh(queue)
    {
      queue := new DelayQueue();
      keys, failures := map[], map[];
    }

    method ScheduleAfter(a: AccountId, delay: nat, slot: Key)
      requires Valid() && slot !in queue.timers
      modifies this, queue
      ensures Valid() && View() == WithTimer(old(View()), a, delay, slot)
    {
      WithTimerAgrees(View(), a, delay, slot);
      if a in keys {
        queue.Reset(keys[a], delay);
        return;
      }
      var key := queue.Insert(a, delay, slot);
      keys := keys[a := key];
    }

    method RemoveSchedule(a: AccountId)
      requires Valid()
      modifies this, queue
      ensures Valid() && View() == WithoutTimer(old(View()), a)
    {
      WithoutTimerAgrees(View(), a);
      if a in keys {
        var key := keys[a];
        keys := keys - {a};
        queue.RemoveKey(key);
      }
    }

    method OnReschedule(a: AccountId, lookup: Lookup, slot: Key, ghost hash: AccountId -> nat)
      requires Valid() && slot !in queue.timers
      modifies this, queue
      ensures Valid() && View() == Step(old(View()), Reschedule(a, lookup, slot), hash)
    {
      failures := failures - {a};
      match lookup {
        case RuntimeGone =>
        case NoRefresh => RemoveSchedule(a);
        case RefreshIn(delay) => ScheduleAfter(a, delay, slot);
      }
    }

    method OnBackoff(a: AccountId, slot: Key, hash: AccountId -> nat)
      requires Valid() && slot !in queue.timers
      modifies this, queue
      ensures Valid() && View() == Step(old(View()), Backoff(a, slot), hash)
    {
      var attempts := Min((if a in failures then failures[a] else 0) + 1, U32_MAX);
      failures := failures[a := attempts];
      ScheduleAfter(a, RefreshBackoff(hash(a), attempts), slot);
    }

    method OnRemove(a: AccountId, ghost hash: AccountId -> nat)
      requires Valid()
      modifies this, queue
      ensures Valid() && View() == Step(old(View()), Remove(a), hash)
    {
      failures := failures - {a};
      RemoveSchedule(a);
    }

    /** The queue yields an expired timer, which it has already dropped. */
    method OnFire(key: Key, ghost hash: AccountId -> nat) returns (a: AccountId)
      requires Valid() && key in queue.timers
      modifies this, queue
      ensures a == old(queue.timers)[key].account
      ensures Valid() && View() == Step(old(View()), Fire(a, key), hash)
    {
      StepAgrees(View(), Fire(queue.timers[key].account, key), hash);
      a := queue.timers[key].account;
      queue.RemoveKey(key);
      keys := keys - {a};
    }

    /** A finished refresh task reports like the matching command. */
    method OnJoined(a: AccountId, result: RefreshResult, lookup: Lookup, slot: Key, hash: AccountId -> nat)
      requires Valid() && slot !in queue.timers
      modifies this, queue
      ensures Valid()
      ensures View() == match result
                        case Refreshed => Step(old(View()), Reschedule(a, lookup, slot), hash)
                        case ReauthRequired => Step(old(View()), Remove(a), hash)
                        case OtherFailure => Step(old(View()), Backoff(a, slot), hash)
    {
      match result {
        case Refreshed => OnReschedule(a, lookup, slot, hash);
        case ReauthRequired => OnRemove(a, hash);
        case OtherFailure => OnBackoff(a, slot, hash);
      }
    }
  }

  // ----- Whole runs -----

  function Run(events: seq<Event>, hash: AccountId -> nat): (s: Schedule) {
    if events == [] then EMPTY
    else Step(Run(events[..|events| - 1], hash), events[|events| - 1], hash)
  }

  /** Every event was possible when it happened. */
  predicate Legal(events: seq<Event>, hash: AccountId -> nat) {
    events == [] ||
    (Legal(events[..|events| - 1], hash) && Possible(Run(events[..|events| - 1], hash), events[|events| - 1]))
  }

  /** In every run the key map names exactly the live timers. */
  lemma {:induction false} AlwaysAgrees(events: seq<Event>, hash: AccountId -> nat)
    requires Legal(events, hash)
    ensures Agree(Run(events, hash).timers, Run(events, hash).keys)
  {
    if events != [] {
      AlwaysAgrees(events[..|events| - 1], hash);
      StepAgrees(Run(events[..|events| - 1], hash), events[|events| - 1], hash);
    }
  }

  /** So no account ever has two pending timers. */
  lemma {:induction false} AtMostOneTimer(events: seq<Event>, hash: AccountId -> nat, i: Key, j: Key)
    requires Legal(events, hash)
    requires i in Run(events, hash).timers && j in Run(events, hash).timers
    requires Run(events, hash).timers[i].account == Run(events, hash).timers[j].account
    ensures i == j
  {
    AlwaysAgrees(events, hash);
  }

  /** Consecutive failures of an account, read off the history alone. */
  function Streak(events: seq<Event>, a: AccountId): (n: nat) {
    if events == [] then 0
    else
      var before, e := Streak(events[..|events| - 1], a), events[|events| - 1];
      if e.account != a then before
      else match e
        case Backoff(_, _) => Min(before + 1, U32_MAX)
        case Fire(_, _) => before
        case _ => 0
  }

  /** The delay of the account's pending timer, if any, read off the history alone. */
  function Pending(events: seq<Event>, a: AccountId, hash: AccountId -> nat): (delay: Option<nat>) {
    if events == [] then None
    else
      var before, e := Pending(events[..|events| - 1], a, hash), events[|events| - 1];
      if e.account != a then before
      else match e
        case Reschedule(_, lookup, _) =>
          (match lookup
           case RuntimeGone => before
           case NoRefresh => None
           case RefreshIn(delay) => Some(delay))
        case Backoff(_, _) => Some(RefreshBackoff(hash(a), Streak(events, a)))
        case Remove(_) => None
        case Fire(_, _) => None
  }

  function TimerOf(s: Schedule, a: AccountId): (delay: Option<nat>)
    requires Agree(s.timers, s.keys)
  {
    if a in s.keys then Some(s.timers[s.keys[a]].delay) else None
  }

  lemma {:induction false} FailuresFollowHistory(events: seq<Event>, hash: AccountId -> nat, a: AccountId)
    ensures Failures(Run(events, hash), a) == Streak(events, a)
  {
    if events != [] {
      FailuresFollowHistory(events[..|events| - 1], hash, a);
    }
  }

  /** After any run, an account's timer is the one its history asks for: the latest schedule or
      backoff not since removed or fired, with the backoff of its current run of failures. */
  lemma {:induction false} TimersFollowHistory(events: seq<Event>, hash: AccountId -> nat, a: AccountId)
    requires Legal(events, hash)
    ensures Agree(Run(events, hash).timers, Run(events, hash).keys)
    ensures TimerOf(Run(events, hash), a) == Pending(events, a, hash)
  {
    AlwaysAgrees(events, hash);
    if events != [] {
      var before, e := events[..|events| - 1], events[|events| - 1];
      TimersFollowHistory(before, hash, a);
      FailuresFollowHistory(events, hash, a);
      StepMovesOne(Run(before, hash), e, hash, a);
    }
  }

  /** What one event does to one account's timer. */
  lemma {:induction false} StepMovesOne(s: Schedule, e: Event, hash: AccountId -> nat, a: AccountId)
    requires Agree(s.timers, s.keys) && Possible(s, e)
    ensures Agree(Step(s, e, hash).timers, Step(s, e, hash).keys)
    ensures var t := Step(s, e, hash);
            TimerOf(t, a) ==
            if e.account != a then TimerOf(s, a)
            else match e
              case Reschedule(_, lookup, _) =>
                (match lookup
                 case RuntimeGone => TimerOf(s, a)
                 case NoRefresh => None
                 case RefreshIn(delay) => Some(delay))
              case Backoff(_, _) => Some(RefreshBackoff(hash(a), Failures(t, a)))
              case Remove(_) => None
              case Fire(_, _) => None
  {
    StepAgrees(s, e, hash);
    match e
    case Reschedule(b, lookup, slot) =>
      if lookup.RefreshIn? {
        WithTimerOf(Forgiven(s, b), b, lookup.delay, slot, a);
      }
    case Backoff(b, slot) =>
      var f := OneMoreFailure(s, b);
      WithTimerOf(f, b, RefreshBackoff(hash(b), Failures(f, b)), slot, a);
    case Remove(b) =>
    case Fire(b, key) => FireIsRemoval(s, b, key);
  }

  lemma {:induction false} WithTimerOf(s: Schedule, b: AccountId, delay: nat, slot: Key, a: AccountId)
    requires Agree(s.timers, s.keys) && slot !in s.timers
    ensures Agree(WithTimer(s, b, delay, slot).timers, WithTimer(s, b, delay, slot).keys)
    ensures TimerOf(WithTimer(s, b, delay, slot), a) == if a == b then Some(delay) else TimerOf(s, a)
  {
    WithTimerAgrees(s, b, delay, slot);
  }
}
