/** The account router: which accounts may serve a request, in which order, given
    cooldowns after failures, response bindings and session affinity. */
module Router {
  import opened Wrappers
  import opened Collections
  import opened Orders
  import opened Text
  import opened Rotation
  import RB = ResponseBindings

  type Instant = nat
  type AccountId = string

  /** Durations in nanoseconds. */
  const SECOND: nat := 1_000_000_000
  const SESSION_AFFINITY_TTL: nat := 60 * 60 * SECOND
  const SESSION_AFFINITY_CLEANUP_INTERVAL: nat := 60 * SECOND
  const RATE_LIMIT_COOLDOWN: nat := 30 * SECOND
  const QUOTA_COOLDOWN: nat := 5 * 60 * SECOND
  const AUTH_COOLDOWN: nat := 30 * 60 * SECOND
  const PRECONNECT_COOLDOWN: nat := 30 * SECOND

  datatype WireFormat = OpenAiResponses | OpenAiChatCompletions | ClaudeMessages

  datatype Access = Access(owner: Option<string>, shared: bool) {
    predicate Allows(userId: string) {
      owner.Some? && (owner.value == userId || shared)
    }
  }

  datatype StoredModel = StoredModel(
    effective: string, upstream: string,
    enabled: bool, available: bool, routable: bool, contractRoutable: bool)

  datatype Account = Account(
    provider: string, access: Access, format: WireFormat, models: seq<StoredModel>, priority: nat)

  datatype Query = Query(
    userId: string, routingScope: string, model: string, formats: seq<WireFormat>,
    sessionId: Option<string>, previousResponseId: Option<string>,
    accountIds: Option<set<AccountId>>,
    activeAccounts: set<AccountId>)   // accounts whose runtime state accepts requests right now

  datatype CooldownKey = CooldownKey(accountId: AccountId, model: string)
  datatype AffinityKey = AffinityKey(routingScope: string, model: string, sessionId: string)
  datatype Affinity = Affinity(accountId: AccountId, lastUsed: Instant)

  datatype FailoverReason =
    AuthenticationExhausted | QuotaExhausted | RateLimited | CapacityExhausted | PreconnectFailure

  /** What decides the order among allowed candidates. */
  datatype Turns = Turns(
    affinities: map<AffinityKey, Affinity>,
    lastCleanup: Option<Instant>,
    selections: Selections)

  datatype State = State(
    accounts: map<AccountId, Account>,
    turns: Turns,
    cooldowns: map<CooldownKey, Instant>,
    bindings: RB.Table)

  const NEW: State := State(map[], Turns(map[], None, map[]), map[], RB.EMPTY)

  // ----- Account, failure, success and binding updates -----

  function Without(affinities: map<AffinityKey, Affinity>, id: AccountId): (r: map<AffinityKey, Affinity>) {
    map k | k in affinities && affinities[k].accountId != id :: affinities[k]
  }

  function RemoveAccount(st: State, id: AccountId): (r: State) {
    if id !in st.accounts then st
    else st.(accounts := st.accounts - {id},
             turns := st.turns.(affinities := Without(st.turns.affinities, id)),
             cooldowns := map k | k in st.cooldowns && k.accountId != id :: st.cooldowns[k])
  }

  /** How long a failure keeps an account out; None for a full queue, which keeps nothing out. */
  function CooldownFor(reason: FailoverReason, retryAfter: Option<nat>): (r: Option<nat>) {
    match reason
    case AuthenticationExhausted => Some(AUTH_COOLDOWN)
    case QuotaExhausted =>
      Some(if retryAfter.Some? && retryAfter.value > QUOTA_COOLDOWN then retryAfter.value else QUOTA_COOLDOWN)
    case RateLimited => Some(if retryAfter.Some? then retryAfter.value else RATE_LIMIT_COOLDOWN)
    case CapacityExhausted => None
    case PreconnectFailure => Some(PRECONNECT_COOLDOWN)
  }

  function RecordFailure(st: State, id: AccountId, model: string, reason: FailoverReason, retryAfter: Option<nat>, now: Instant): (r: State) {
    match CooldownFor(reason, retryAfter)
    case None => st
    case Some(d) => st.(cooldowns := st.cooldowns[CooldownKey(id, model) := now + d])
  }

  function RecordSuccess(st: State, id: AccountId, model: string): (r: State) {
    st.(cooldowns := st.cooldowns - {CooldownKey(id, model)})
  }

  function ClaimUnowned(st: State, userId: string): (r: State) {
    st.(accounts := map id | id in st.accounts ::
          if st.accounts[id].access.owner.None? then st.accounts[id].(access := Access(Some(userId), false))
          else st.accounts[id])
  }

  function TrimmedSession(sessionId: Option<string>): (r: Option<string>) {
    if sessionId.None? || Trim(sessionId.value) == [] then None else Some(Trim(sessionId.value))
  }

  function CommitAffinity(st: State, scope: string, model: string, sessionId: Option<string>, id: AccountId, now: Instant): (r: State) {
    match TrimmedSession(sessionId)
    case None => st
    case Some(session) =>
      st.(turns := st.turns.(affinities := st.turns.affinities[AffinityKey(scope, model, session) := Affinity(id, now)]))
  }

  // ----- Who may serve -----

  /** The checks every routed account passes. */
  predicate Eligible(accounts: map<AccountId, Account>, cooldowns: map<CooldownKey, Instant>, q: Query, id: AccountId) {
    && id in accounts
    && accounts[id].access.Allows(q.userId)
    && id in q.activeAccounts
    && accounts[id].format in q.formats
    && (q.accountIds.Some? ==> id in q.accountIds.value)
    && CooldownKey(id, q.model) !in cooldowns
  }

  predicate Serves(m: StoredModel, model: string) {
    m.enabled && m.available && m.routable && m.contractRoutable && m.effective == model
  }

  predicate Knows(account: Account, model: string) {
    exists m :: m in account.models && (m.effective == model || m.upstream == model)
  }

  function Stateful(account: Account): (b: bool) {
    account.provider == "codex"
  }

  function CandidateFor(id: AccountId, account: Account, upstream: string): (c: Candidate) {
    Candidate(id, account.priority, upstream, Stateful(account))
  }

  function ModelRoutes(id: AccountId, account: Account, models: seq<StoredModel>, model: string): (r: seq<Candidate>) {
    if models == [] then []
    else
      var rest := ModelRoutes(id, account, models[..|models| - 1], model);
      var m := models[|models| - 1];
      if Serves(m, model) then rest + [CandidateFor(id, account, m.upstream)] else rest
  }

  function ExactRoutes(st: State, q: Query, ids: seq<AccountId>): (r: seq<Candidate>)
  {
    if ids == [] then []
    else
      var rest, id := ExactRoutes(st, q, ids[..|ids| - 1]), ids[|ids| - 1];
      if Eligible(st.accounts, st.cooldowns, q, id)
      then rest + ModelRoutes(id, st.accounts[id], st.accounts[id].models, q.model) else rest
  }

  /** A compatible relay may accept a model it does not advertise. */
  predicate FallsBack(st: State, q: Query, id: AccountId) {
    && Eligible(st.accounts, st.cooldowns, q, id)
    && st.accounts[id].provider == "openai_compatible"
    && !Knows(st.accounts[id], q.model)
  }

  function FallbackRoutes(st: State, q: Query, ids: seq<AccountId>): (r: seq<Candidate>)
  {
    if ids == [] then []
    else
      var rest, id := FallbackRoutes(st, q, ids[..|ids| - 1]), ids[|ids| - 1];
      if FallsBack(st, q, id) then rest + [CandidateFor(id, st.accounts[id], q.model)] else rest
  }

  /** The keys of an ordered map, smallest first. */
  ghost function Ascending(ids: set<AccountId>): (r: seq<AccountId>)
    ensures forall id :: id in r <==> id in ids
  {
    if ids == {} then []
    else
      Largest(ids);
      var id :| id in ids && forall other :: other in ids && other != id ==> Less(other, id);
      var rest := Ascending(ids - {id});
      rest + [id]
  }

  lemma {:induction false} Largest(ids: set<AccountId>)
    requires ids != {}
    ensures exists id :: id in ids && forall other :: other in ids && other != id ==> Less(other, id)
  {
    GreaterIsOrder();
    var id := FirstExists(Greater, ids);
    assert forall other :: other in ids && other != id ==> Greater(id, other);
  }

  // ----- Routing a query -----

  /** Cooldowns past their deadline are forgotten. */
  function Cool(st: State, now: Instant): (r: State) {
    st.(cooldowns := map k | k in st.cooldowns && st.cooldowns[k] > now :: st.cooldowns[k])
  }

  /** Exact routes, or the optimistic ones when no exact route exists. */
  ghost function Gathered(st: State, q: Query): (r: seq<Candidate>) {
    var ids := Ascending(st.accounts.Keys);
    var exact := ExactRoutes(st, q, ids);
    if exact == [] then FallbackRoutes(st, q, ids) else exact
  }

  function FirstOf(routes: seq<Candidate>, id: AccountId): (r: Option<nat>)
    ensures r.Some? ==> r.value < |routes| && routes[r.value].accountId == id
    ensures r.None? ==> forall c :: c in routes ==> c.accountId != id
  {
    if routes == [] then None
    else if routes[0].accountId == id then Some(0)
    else
      match FirstOf(routes[1..], id)
      case None => None
      case Some(i) => Some(i + 1)
  }

  function Stateless(routes: seq<Candidate>): (r: seq<Candidate>)
    ensures forall c :: c in r <==> c in routes && !c.stateful
  {
    if routes == [] then []
    else
      var rest, c := Stateless(routes[..|routes| - 1]), routes[|routes| - 1];
      assert routes == routes[..|routes| - 1] + [c];
      if c.stateful then rest else rest + [c]
  }

  function RoundRobin(t: Turns, q: Query, routes: seq<Candidate>): (r: (Turns, seq<Candidate>)) {
    (t.(selections := Rotated(t.selections, q.routingScope, q.model, routes)),
     Rotate(t.selections, q.routingScope, q.model, routes))
  }

  predicate AffinityFresh(a: Affinity, now: Instant) {
    now < a.lastUsed + SESSION_AFFINITY_TTL
  }

  function CleanAffinities(t: Turns, now: Instant): (r: Turns) {
    if t.lastCleanup.None? || now >= t.lastCleanup.value + SESSION_AFFINITY_CLEANUP_INTERVAL then
      t.(affinities := map k | k in t.affinities && AffinityFresh(t.affinities[k], now) :: t.affinities[k],
         lastCleanup := Some(now))
    else t
  }

  /** A fresh affinity for an account among the routes puts it first; a useless one is dropped. */
  function UseAffinity(t: Turns, q: Query, now: Instant, routes: seq<Candidate>): (r: (Turns, Option<seq<Candidate>>)) {
    match TrimmedSession(q.sessionId)
    case None => (t, None)
    case Some(session) =>
      var key, t := AffinityKey(q.routingScope, q.model, session), CleanAffinities(t, now);
      if key !in t.affinities then (t, None)
      else
        var affinity := t.affinities[key];
        var index := FirstOf(routes, affinity.accountId);
        if AffinityFresh(affinity, now) && index.Some? then
          (t.(affinities := t.affinities[key := affinity.(lastUsed := now)]), Some(RotateLeft(routes, index.value)))
        else (t.(affinities := t.affinities - {key}), None)
  }

  /** Session affinity puts its account first; otherwise every tier takes turns. */
  function Arrange(t: Turns, q: Query, now: Instant, routes: seq<Candidate>): (r: (Turns, seq<Candidate>)) {
    var (t, stuck) := UseAffinity(t, q, now, routes);
    if stuck.Some? then (t, stuck.value) else RoundRobin(t, q, routes)
  }

  /** A bound previous response id pins the account that produced it; an unbound one keeps
      the request away from providers that hold response state. */
  function Pin(bindings: RB.Table, t: Turns, q: Query, now: Instant, routes: seq<Candidate>): (r: (Turns, seq<Candidate>)) {
    match q.previousResponseId
    case None => Arrange(t, q, now, routes)
    case Some(responseId) =>
      var key := RB.Key(q.routingScope, responseId);
      if key in bindings.entries then
        match FirstOf(routes, bindings.entries[key].accountId)
        case None => (t, [])
        case Some(i) => (t, [routes[i]])
      else
        var stateless := Stateless(routes);
        if stateless == [] then (t, []) else Arrange(t, q, now, stateless)
  }

  /** Bindings are expired only when a query needs them. */
  function Looked(st: State, q: Query, now: Instant): (r: RB.Table) {
    if q.previousResponseId.Some? then RB.RemoveExpired(st.bindings, now) else st.bindings
  }

  ghost function Route(st: State, q: Query, now: Instant): (r: (State, seq<Candidate>)) {
    var st := Cool(st, now);
    var routes := Gathered(st, q);
    if routes == [] then (st, [])
    else
      var bindings := Looked(st, q, now);
      var (turns, routes) := Pin(bindings, st.turns, q, now, Sort(routes));
      (st.(bindings := bindings, turns := turns), routes)
  }

  // ----- What a route answer means -----

  /** A candidate the checks allow: an eligible account, and either a model it serves under
      the requested name or the optimistic route of a relay that does not know the name. */
  ghost predicate Allowed(st: State, q: Query, c: Candidate) {
    && Eligible(st.accounts, st.cooldowns, q, c.accountId)
    && c == CandidateFor(c.accountId, st.accounts[c.accountId], c.upstreamModel)
    && (ServesAs(st.accounts[c.accountId], q.model, c.upstreamModel) ||
        (FallsBack(st, q, c.accountId) && c.upstreamModel == q.model))
  }

  ghost predicate ServesAs(account: Account, model: string, upstream: string) {
    exists m :: m in account.models && Serves(m, model) && m.upstream == upstream
  }

  lemma {:induction false} ModelRoutesMeaning(id: AccountId, account: Account, models: seq<StoredModel>, model: string)
    ensures forall c :: c in ModelRoutes(id, account, models, model) <==>
              c == CandidateFor(id, account, c.upstreamModel) &&
              exists m :: m in models && Serves(m, model) && m.upstream == c.upstreamModel
  {
    if models != [] {
      ModelRoutesMeaning(id, account, models[..|models| - 1], model);
      assert models == models[..|models| - 1] + [models[|models| - 1]];
    }
  }

  lemma {:induction false} ExactRoutesMeaning(st: State, q: Query, ids: seq<AccountId>, c: Candidate)
    ensures c in ExactRoutes(st, q, ids) <==>
            && c.accountId in ids && Eligible(st.accounts, st.cooldowns, q, c.accountId)
            && c == CandidateFor(c.accountId, st.accounts[c.accountId], c.upstreamModel)
            && ServesAs(st.accounts[c.accountId], q.model, c.upstreamModel)
  {
    if ids != [] {
      var init, id := ids[..|ids| - 1], ids[|ids| - 1];
      ExactRoutesMeaning(st, q, init, c);
      assert ids == init + [id];
      if Eligible(st.accounts, st.cooldowns, q, id) {
        ModelRoutesMeaning(id, st.accounts[id], st.accounts[id].models, q.model);
      }
    }
  }

  lemma {:induction false} FallbackRoutesMeaning(st: State, q: Query, ids: seq<AccountId>, c: Candidate)
    ensures c in FallbackRoutes(st, q, ids) <==>
            c.accountId in ids && FallsBack(st, q, c.accountId) &&
            c == CandidateFor(c.accountId, st.accounts[c.accountId], q.model)
  {
    if ids != [] {
      var init, id := ids[..|ids| - 1], ids[|ids| - 1];
      FallbackRoutesMeaning(st, q, init, c);
      assert ids == init + [id];
    }
  }

  /** An eligible account's route to a model it serves under the requested name. */
  ghost predicate IsExact(st: State, q: Query, c: Candidate) {
    && Eligible(st.accounts, st.cooldowns, q, c.accountId)
    && c == CandidateFor(c.accountId, st.accounts[c.accountId], c.upstreamModel)
    && ServesAs(st.accounts[c.accountId], q.model, c.upstreamModel)
  }

  /** An eligible relay's optimistic route to a model name it does not know. */
  ghost predicate IsFallback(st: State, q: Query, c: Candidate) {
    FallsBack(st, q, c.accountId) && c == CandidateFor(c.accountId, st.accounts[c.accountId], q.model)
  }

  /** The gathered candidates are exactly the exact ones, or, if there are none, exactly the
      optimistic ones. */
  lemma {:induction false} GatheredMeaning(st: State, q: Query, c: Candidate)
    ensures c in Gathered(st, q) <==>
            IsExact(st, q, c) || (IsFallback(st, q, c) && forall d :: !IsExact(st, q, d))
    ensures c in Gathered(st, q) ==> Allowed(st, q, c)
  {
    var ids := Ascending(st.accounts.Keys);
    var exact := ExactRoutes(st, q, ids);
    forall d
      ensures d in exact <==> IsExact(st, q, d)
    {
      ExactRoutesMeaning(st, q, ids, d);
    }
    assert exact != [] ==> IsExact(st, q, exact[0]);
    FallbackRoutesMeaning(st, q, ids, c);
  }

  lemma {:induction false} StuckMembers(t: Turns, q: Query, now: Instant, routes: seq<Candidate>)
    ensures var (after, stuck) := UseAffinity(t, q, now, routes);
            && after.selections == t.selections
            && (stuck.Some? ==> multiset(stuck.value) == multiset(routes))
  {}

  lemma {:induction false} ArrangeMembers(t: Turns, q: Query, now: Instant, routes: seq<Candidate>)
    ensures multiset(Arrange(t, q, now, routes).1) == multiset(routes)
  {
    StuckMembers(t, q, now, routes);
    RotationPermutes(t.selections, q.routingScope, q.model, routes);
  }

  lemma {:induction false} SameMembers(a: seq<Candidate>, b: seq<Candidate>, c: Candidate)
    requires multiset(a) == multiset(b)
    ensures c in a <==> c in b
  {
    assert c in a <==> c in multiset(a);
    assert c in b <==> c in multiset(b);
  }

  lemma {:induction false} PinMembers(bindings: RB.Table, t: Turns, q: Query, now: Instant, routes: seq<Candidate>, c: Candidate)
    requires c in Pin(bindings, t, q, now, routes).1
    ensures c in routes
    ensures q.previousResponseId.Some? && RB.Key(q.routingScope, q.previousResponseId.value) !in bindings.entries ==> !c.stateful
  {
    ArrangeMembers(t, q, now, routes);
    SameMembers(Arrange(t, q, now, routes).1, routes, c);
    ArrangeMembers(t, q, now, Stateless(routes));
    SameMembers(Arrange(t, q, now, Stateless(routes)).1, Stateless(routes), c);
  }

  /** Every routed candidate passes every check, whatever the affinity, binding and rotation. */
  lemma {:induction false} RoutedIsAllowed(st: State, q: Query, now: Instant, c: Candidate)
    requires c in Route(st, q, now).1
    ensures Allowed(Cool(st, now), q, c)
    ensures q.previousResponseId.Some? && RB.Key(q.routingScope, q.previousResponseId.value) !in Looked(st, q, now).entries ==> !c.stateful
  {
    var st := Cool(st, now);
    var routes := Gathered(st, q);
    PinMembers(Looked(st, q, now), st.turns, q, now, Sort(routes), c);
    SameMembers(Sort(routes), routes, c);
    GatheredMeaning(st, q, c);
  }

  /** Without a previous response id nothing gathered is lost. */
  lemma {:induction false} RoutedIsEverything(st: State, q: Query, now: Instant)
    requires q.previousResponseId.None?
    ensures multiset(Route(st, q, now).1) == multiset(Gathered(Cool(st, now), q))
  {
    var st := Cool(st, now);
    ArrangeMembers(st.turns, q, now, Sort(Gathered(st, q)));
  }

  function BindingKey(q: Query): (k: RB.Key)
    requires q.previousResponseId.Some?
  {
    RB.Key(q.routingScope, q.previousResponseId.value)
  }

  /** A stored binding yields at most its own account, installed or not. */
  lemma {:induction false} StoredBindingPins(st: State, q: Query, now: Instant)
    requires q.previousResponseId.Some? && BindingKey(q) in Looked(st, q, now).entries
    ensures |Route(st, q, now).1| <= 1
    ensures forall c :: c in Route(st, q, now).1 ==> c.accountId == Looked(st, q, now).entries[BindingKey(q)].accountId
  {}

  /** An unbound previous response id never reaches a provider that keeps response state. */
  lemma {:induction false} UnboundAvoidsStateful(st: State, q: Query, now: Instant, c: Candidate)
    requires q.previousResponseId.Some?
    requires BindingKey(q) !in Looked(st, q, now).entries
    requires c in Route(st, q, now).1
    ensures c.accountId in st.accounts && !Stateful(st.accounts[c.accountId])
  {
    RoutedIsAllowed(st, q, now, c);
  }

  // ----- The order of an answer -----

  lemma {:induction false} StatelessKeepsOrder(routes: seq<Candidate>)
    requires PriorityOrdered(routes)
    ensures PriorityOrdered(Stateless(routes))
  {
    if routes != [] {
      var init, c := routes[..|routes| - 1], routes[|routes| - 1];
      StatelessKeepsOrder(init);
      forall x | x in Stateless(init)
        ensures x.priority <= c.priority
      {
        assert x in init;
      }
    }
  }

  /** The account a session sticks to: a fresh affinity for an account among the routes. */
  predicate Sticks(t: Turns, q: Query, now: Instant, routes: seq<Candidate>) {
    TrimmedSession(q.sessionId).Some? &&
    var key, t := AffinityKey(q.routingScope, q.model, TrimmedSession(q.sessionId).value), CleanAffinities(t, now);
    key in t.affinities && AffinityFresh(t.affinities[key], now) && FirstOf(routes, t.affinities[key].accountId).Some?
  }

  /** Unless a session sticks to an account, priorities never decrease along the answer; if
      it does, its account comes first and the rest follows cyclically. */
  lemma {:induction false} ArrangeOrder(t: Turns, q: Query, now: Instant, routes: seq<Candidate>)
    requires PriorityOrdered(routes)
    ensures !Sticks(t, q, now, routes) ==> PriorityOrdered(Arrange(t, q, now, routes).1)
    ensures Sticks(t, q, now, routes) ==>
              var key := AffinityKey(q.routingScope, q.model, TrimmedSession(q.sessionId).value);
              var id := CleanAffinities(t, now).affinities[key].accountId;
              var r := Arrange(t, q, now, routes).1;
              && |r| == |routes| > 0 && r[0].accountId == id
              && r == RotateLeft(routes, FirstOf(routes, id).value)
  {
    if !Sticks(t, q, now, routes) {
      var r := Rotate(t.selections, q.routingScope, q.model, routes);
      forall i | 0 <= i < |routes|
        ensures r[i].priority == routes[i].priority
      {
        RotationKeepsPriority(t.selections, q.routingScope, q.model, routes, i);
      }
    }
  }

  lemma {:induction false} SortedByPriority(routes: seq<Candidate>)
    ensures PriorityOrdered(Sort(routes))
  {
    SortOrders(routes);
  }

  /** The candidates a query's answer is arranged from. */
  ghost function Offered(st: State, q: Query, now: Instant): (r: seq<Candidate>) {
    var routes := Sort(Gathered(Cool(st, now), q));
    if q.previousResponseId.Some? then Stateless(routes) else routes
  }

  /** Along any answer priorities never decrease, unless a session sticks to an account. */
  lemma {:induction false} AnswerOrder(st: State, q: Query, now: Instant)
    requires !Sticks(st.turns, q, now, Offered(st, q, now))
    ensures PriorityOrdered(Route(st, q, now).1)
  {
    SortedByPriority(Gathered(Cool(st, now), q));
    StatelessKeepsOrder(Sort(Gathered(Cool(st, now), q)));
    ArrangeOrder(st.turns, q, now, Offered(st, q, now));
  }

  // ----- Runs: the cooldown of the latest failure is honoured -----

  datatype Event =
    | Install(id: AccountId, runtimeProvider: string, account: Account)
    | Remove(id: AccountId)
    | SetAccess(id: AccountId, access: Access)
    | SetModels(id: AccountId, models: seq<StoredModel>)
    | Claim(userId: string)
    | Failed(id: AccountId, model: string, reason: FailoverReason, retryAfter: Option<nat>, now: Instant)
    | Succeeded(id: AccountId, model: string)
    | Bound(scope: string, responseId: string, id: AccountId, now: Instant)
    | Committed(scope: string, model: string, sessionId: Option<string>, id: AccountId, now: Instant)
    | Routed(q: Query, now: Instant)

  ghost function Step(st: State, e: Event): (r: State)
    requires RB.Agree(st.bindings)
  {
    match e
    case Install(id, runtimeProvider, account) =>
      if account.provider == runtimeProvider then st.(accounts := st.accounts[id := account]) else st
    case Remove(id) => RemoveAccount(st, id)
    case SetAccess(id, access) =>
      if id in st.accounts then st.(accounts := st.accounts[id := st.accounts[id].(access := access)]) else st
    case SetModels(id, models) =>
      if id in st.accounts then st.(accounts := st.accounts[id := st.accounts[id].(models := models)]) else st
    case Claim(userId) => ClaimUnowned(st, userId)
    case Failed(id, model, reason, retryAfter, now) => RecordFailure(st, id, model, reason, retryAfter, now)
    case Succeeded(id, model) => RecordSuccess(st, id, model)
    case Bound(scope, responseId, id, now) =>
      st.(bindings := RB.Insert(st.bindings, now, RB.Key(scope, responseId), id))
    case Committed(scope, model, sessionId, id, now) => CommitAffinity(st, scope, model, sessionId, id, now)
    case Routed(q, now) => Route(st, q, now).0
  }

  /** A query touches the bindings only by looking one up. */
  lemma {:induction false} RouteBindings(st: State, q: Query, now: Instant)
    ensures Route(st, q, now).0.bindings ==
            if q.previousResponseId.Some? && Gathered(Cool(st, now), q) != [] then RB.RemoveExpired(st.bindings, now) else st.bindings
  {}

  lemma {:induction false} StepAgrees(st: State, e: Event)
    requires RB.Agree(st.bindings)
    ensures RB.Agree(Step(st, e).bindings)
  {
    if e.Bound? {
      RB.InsertAgrees(st.bindings, e.now, RB.Key(e.scope, e.responseId), e.id);
    } else if e.Routed? {
      RouteBindings(st, e.q, e.now);
      RB.RemoveExpiredAgrees(st.bindings, e.now);
    }
  }

  ghost function Run(events: seq<Event>): (st: State)
    ensures RB.Agree(st.bindings)
  {
    if events == [] then NEW
    else
      var st, e := Run(events[..|events| - 1]), events[|events| - 1];
      StepAgrees(st, e);
      Step(st, e)
  }

  /** Whether an account is installed after a history: its last install is not removed. */
  function Installed(events: seq<Event>, id: AccountId): (b: bool) {
    if events == [] then false
    else
      match events[|events| - 1]
      case Install(i, runtimeProvider, account) =>
        (i == id && account.provider == runtimeProvider) || Installed(events[..|events| - 1], id)
      case Remove(i) => i != id && Installed(events[..|events| - 1], id)
      case _ => Installed(events[..|events| - 1], id)
  }

  /** The deadline of the latest recorded failure, unless a success or the removal of the
      installed account came after it. Read off the history alone. */
  function Deadline(events: seq<Event>, k: CooldownKey): (r: Option<Instant>) {
    if events == [] then None
    else
      var before := events[..|events| - 1];
      match events[|events| - 1]
      case Failed(id, model, reason, retryAfter, now) =>
        if CooldownKey(id, model) == k && CooldownFor(reason, retryAfter).Some?
        then Some(now + CooldownFor(reason, retryAfter).value) else Deadline(before, k)
      case Succeeded(id, model) => if CooldownKey(id, model) == k then None else Deadline(before, k)
      case Remove(id) => if id == k.accountId && Installed(before, id) then None else Deadline(before, k)
      case _ => Deadline(before, k)
  }

  /** The latest time any routing call has read. */
  function Clock(events: seq<Event>): (t: Instant) {
    if events == [] then 0
    else
      var before, e := Clock(events[..|events| - 1]), events[|events| - 1];
      if e.Routed? && e.now > before then e.now else before
  }

  lemma {:induction false} StepAccounts(st: State, e: Event, id: AccountId)
    requires RB.Agree(st.bindings)
    ensures id in Step(st, e).accounts <==>
            if e.Install? then (e.id == id && e.account.provider == e.runtimeProvider) || id in st.accounts
            else if e.Remove? then e.id != id && id in st.accounts
            else id in st.accounts
  {}

  lemma {:induction false} InstalledMeaning(events: seq<Event>, id: AccountId)
    ensures id in Run(events).accounts <==> Installed(events, id)
  {
    if events != [] {
      InstalledMeaning(events[..|events| - 1], id);
      StepAccounts(Run(events[..|events| - 1]), events[|events| - 1], id);
    }
  }

  /** A stored cooldown is the history's deadline, and a deadline that is no longer stored
      has passed on some routing call's clock. */
  lemma {:induction false} CooldownsFollowHistory(events: seq<Event>, k: CooldownKey)
    ensures k in Run(events).cooldowns ==> Deadline(events, k) == Some(Run(events).cooldowns[k])
    ensures k !in Run(events).cooldowns && Deadline(events, k).Some? ==> Deadline(events, k).value <= Clock(events)
  {
    if events != [] {
      var before, e := events[..|events| - 1], events[|events| - 1];
      CooldownsFollowHistory(before, k);
      InstalledMeaning(before, k.accountId);
      StepCooldown(Run(before), e, k);
    }
  }

  function CooldownAt(cooldowns: map<CooldownKey, Instant>, k: CooldownKey): (d: Option<Instant>) {
    if k in cooldowns then Some(cooldowns[k]) else None
  }

  /** What one event does to one cooldown. */
  lemma {:induction false} StepCooldown(st: State, e: Event, k: CooldownKey)
    requires RB.Agree(st.bindings)
    ensures var was := CooldownAt(st.cooldowns, k);
            CooldownAt(Step(st, e).cooldowns, k) ==
            match e
            case Failed(id, model, reason, retryAfter, now) =>
              if CooldownKey(id, model) == k && CooldownFor(reason, retryAfter).Some?
              then Some(now + CooldownFor(reason, retryAfter).value) else was
            case Succeeded(id, model) => if CooldownKey(id, model) == k then None else was
            case Remove(id) => if id == k.accountId && id in st.accounts then None else was
            case Routed(_, now) => if was.Some? && was.value <= now then None else was
            case _ => was
  {}

  /** After any history, every routed candidate is past the deadline of its latest failure,
      on the latest clock any routing call has read (which is this call's, when clocks do
      not run backwards). */
  lemma {:induction false} RoutedIsPastItsDeadline(events: seq<Event>, q: Query, now: Instant, c: Candidate)
    requires c in Route(Run(events), q, now).1
    ensures var d := Deadline(events, CooldownKey(c.accountId, q.model));
            d.Some? ==> d.value <= now || d.value <= Clock(events)
  {
    RoutedIsAllowed(Run(events), q, now, c);
    CooldownsFollowHistory(events, CooldownKey(c.accountId, q.model));
  }

  // ----- Runs: every candidate takes its turn -----

  /** The query takes turns: somebody is offered, no binding pins the account and no session sticks
      to one. */
  ghost predicate TakesTurns(st: State, q: Query, now: Instant) {
    && Offered(st, q, now) != []
    && (q.previousResponseId.Some? ==> BindingKey(q) !in Looked(st, q, now).entries)
    && !Sticks(st.turns, q, now, Offered(st, q, now))
  }

  /** The rotation an event makes, if any. */
  ghost function Rotations(st: State, e: Event): (calls: seq<Call>) {
    if e.Routed? && TakesTurns(st, e.q, e.now) then [Call(e.q.routingScope, e.q.model, Offered(st, e.q, e.now))] else []
  }

  lemma {:induction false} StuckIff(t: Turns, q: Query, now: Instant, routes: seq<Candidate>)
    ensures UseAffinity(t, q, now, routes).1.Some? <==> Sticks(t, q, now, routes)
  {}

  /** The outcome is the rotation of the offered candidates. */
  ghost predicate Turned(selections: Selections, q: Query, offered: seq<Candidate>, after: Selections, answer: seq<Candidate>) {
    && after == Rotated(selections, q.routingScope, q.model, offered)
    && answer == Rotate(selections, q.routingScope, q.model, offered)
  }

  lemma {:induction false} ArrangeTurns(t: Turns, q: Query, now: Instant, routes: seq<Candidate>)
    ensures var (after, answer) := Arrange(t, q, now, routes);
            if Sticks(t, q, now, routes) then after.selections == t.selections
            else Turned(t.selections, q, routes, after.selections, answer)
  {
    StuckIff(t, q, now, routes);
    StuckMembers(t, q, now, routes);
  }

  lemma {:induction false} PinTurns(bindings: RB.Table, t: Turns, q: Query, now: Instant, routes: seq<Candidate>, offered: seq<Candidate>)
    requires offered == if q.previousResponseId.Some? then Stateless(routes) else routes
    ensures var (after, answer) := Pin(bindings, t, q, now, routes);
            if offered != [] && (q.previousResponseId.Some? ==> BindingKey(q) !in bindings.entries) && !Sticks(t, q, now, offered)
            then Turned(t.selections, q, offered, after.selections, answer)
            else after.selections == t.selections
  {
    if q.previousResponseId.Some? && BindingKey(q) in bindings.entries {
      assert Pin(bindings, t, q, now, routes).0 == t;
    } else if offered == [] {
      assert Rotated(t.selections, q.routingScope, q.model, []) == t.selections;
      ArrangeTurns(t, q, now, offered);
    } else {
      assert Pin(bindings, t, q, now, routes) == Arrange(t, q, now, offered);
      ArrangeTurns(t, q, now, offered);
    }
  }

  /** A query that takes turns answers with the rotation of what is offered; any other leaves the
      cursors alone. */
  lemma {:induction false} RouteTurns(st: State, q: Query, now: Instant)
    ensures var (after, answer) := Route(st, q, now);
            if TakesTurns(st, q, now) then Turned(st.turns.selections, q, Offered(st, q, now), after.turns.selections, answer)
            else after.turns.selections == st.turns.selections
  {
    var routes := Gathered(Cool(st, now), q);
    if routes == [] {
      assert Offered(st, q, now) == [];
    } else {
      PinTurns(Looked(st, q, now), st.turns, q, now, Sort(routes), Offered(st, q, now));
    }
  }

  /** The rotations of the later events, after a run. */
  ghost function LaterCalls(start: seq<Event>, more: seq<Event>): (calls: seq<Call>) {
    if more == [] then []
    else
      var init := more[..|more| - 1];
      LaterCalls(start, init) + Rotations(Run(start + init), more[|more| - 1])
  }

  lemma {:induction false} StepSelections(st: State, e: Event)
    requires RB.Agree(st.bindings)
    ensures Step(st, e).turns.selections == After(st.turns.selections, Rotations(st, e))
  {
    if e.Routed? {
      RouteTurns(st, e.q, e.now);
    }
    AfterAtMostOne(st.turns.selections, Rotations(st, e));
  }

  lemma {:induction false} AfterAtMostOne(selections: Selections, calls: seq<Call>)
    requires |calls| <= 1
    ensures After(selections, calls) ==
            if calls == [] then selections else Rotated(selections, calls[0].scope, calls[0].model, calls[0].routes)
  {
    if calls != [] {
      assert calls[..0] == [];
    }
  }

  lemma {:induction false} AfterAppend(selections: Selections, a: seq<Call>, b: seq<Call>)
    ensures After(selections, a + b) == After(After(selections, a), b)
  {
    if b == [] {
      assert a + b == a;
    } else {
      AfterAppend(selections, a, b[..|b| - 1]);
      assert (a + b)[..|a + b| - 1] == a + b[..|b| - 1];
    }
  }

  /** The cursors of a run are what its rotations made of them. */
  lemma {:induction false} SelectionsFollowCalls(start: seq<Event>, more: seq<Event>)
    ensures Run(start + more).turns.selections == After(Run(start).turns.selections, LaterCalls(start, more))
  {
    if more == [] {
      assert start + more == start;
    } else {
      var init, e := more[..|more| - 1], more[|more| - 1];
      SelectionsFollowCalls(start, init);
      LastApart(start, more);
      RunPush(start + init, e);
      StepSelections(Run(start + init), e);
      AfterAppend(Run(start).turns.selections, LaterCalls(start, init), Rotations(Run(start + init), e));
    }
  }

  lemma {:induction false} OfferedIsOrdered(st: State, q: Query, now: Instant)
    ensures PriorityOrdered(Offered(st, q, now))
  {
    SortedByPriority(Gathered(Cool(st, now), q));
    StatelessKeepsOrder(Sort(Gathered(Cool(st, now), q)));
  }

  /** Every cursor of a run is a 64-bit number, and no larger than the number of events. */
  lemma {:induction false} CursorsStayInRange(events: seq<Event>, key: SelectionKey)
    ensures var c := Cursor(Run(events).turns.selections, key); c < CURSOR_MODULUS && c <= |events|
  {
    if events != [] {
      var before, e := events[..|events| - 1], events[|events| - 1];
      CursorsStayInRange(before, key);
      CursorStep(Run(before), e, key);
    }
  }

  lemma {:induction false} CursorStep(st: State, e: Event, key: SelectionKey)
    requires RB.Agree(st.bindings)
    ensures var c := Cursor(st.turns.selections, key);
            Cursor(Step(st, e).turns.selections, key) in {c, WrappingNext(c)}
  {
    StepSelections(st, e);
    var calls := Rotations(st, e);
    AfterAtMostOne(st.turns.selections, calls);
    if calls != [] {
      OfferedIsOrdered(st, e.q, e.now);
      CallMovesCursor(st.turns.selections, calls[0], key);
    }
  }

  /** Who is answered first among the candidates of a priority. */
  function HeadOf(answer: seq<Candidate>, priority: nat): (heads: seq<Candidate>) {
    if NoneAt(answer, priority) then [] else [answer[FirstAt(answer, priority)]]
  }

  /** Who the later queries for a scope and model that take turns are answered with first, among the
      candidates of a priority. */
  ghost function LaterHeads(start: seq<Event>, more: seq<Event>, key: SelectionKey): (heads: seq<Candidate>) {
    if more == [] then []
    else
      var init, e := more[..|more| - 1], more[|more| - 1];
      LaterHeads(start, init, key) + HeadsShown(Run(start + init), e, key)
  }

  ghost function HeadsShown(st: State, e: Event, key: SelectionKey): (heads: seq<Candidate>) {
    if e.Routed? && e.q.routingScope == key.routingScope && e.q.model == key.model && TakesTurns(st, e.q, e.now)
    then HeadOf(Route(st, e.q, e.now).1, key.priority) else []
  }

  lemma {:induction false} SamePriorities(a: seq<Candidate>, b: seq<Candidate>, priority: nat)
    requires |a| == |b| && forall i :: 0 <= i < |a| ==> a[i].priority == b[i].priority
    ensures (NoneAt(a, priority) <==> NoneAt(b, priority)) && FirstAt(a, priority) == FirstAt(b, priority)
  {
    var i, j := FirstAt(a, priority), FirstAt(b, priority);
    assert forall k :: 0 <= k < i ==> a[..i][k].priority != priority;
    assert forall k :: 0 <= k < j ==> b[..j][k].priority != priority;
    assert NoneAt(a, priority) <==> forall k :: 0 <= k < |a| ==> a[k].priority != priority;
    assert NoneAt(b, priority) <==> forall k :: 0 <= k < |b| ==> b[k].priority != priority;
  }

  lemma {:induction false} RotateHead(selections: Selections, call: Call, priority: nat)
    ensures HeadOf(Rotate(selections, call.scope, call.model, call.routes), priority) ==
            if NoneAt(call.routes, priority) then []
            else [Rotate(selections, call.scope, call.model, call.routes)[FirstAt(call.routes, priority)]]
  {
    var r := Rotate(selections, call.scope, call.model, call.routes);
    forall i | 0 <= i < |r|
      ensures r[i].priority == call.routes[i].priority
    {
      RotationKeepsPriority(selections, call.scope, call.model, call.routes, i);
    }
    SamePriorities(r, call.routes, priority);
  }

  lemma {:induction false} ShownAppend(selections: Selections, calls: seq<Call>, call: Call, key: SelectionKey)
    ensures Shown(selections, calls + [call], key) == Shown(selections, calls, key) +
            if TurnsTier(call, key) then [Rotate(After(selections, calls), call.scope, call.model, call.routes)[FirstAt(call.routes, key.priority)]]
            else []
  {
    assert (calls + [call])[..|calls|] == calls;
  }

  /** They are who the rotations show. */
  lemma {:induction false} HeadsAreShown(start: seq<Event>, more: seq<Event>, key: SelectionKey)
    ensures LaterHeads(start, more, key) == Shown(Run(start).turns.selections, LaterCalls(start, more), key)
  {
    if more != [] {
      var init, e := more[..|more| - 1], more[|more| - 1];
      HeadsAreShown(start, init, key);
      SelectionsFollowCalls(start, init);
      OneMoreShown(Run(start + init), e, Run(start).turns.selections, LaterCalls(start, init), key);
    }
  }

  lemma {:induction false} OneMoreShown(st: State, e: Event, selections: Selections, calls: seq<Call>, key: SelectionKey)
    requires st.turns.selections == After(selections, calls)
    ensures Shown(selections, calls + Rotations(st, e), key) == Shown(selections, calls, key) + HeadsShown(st, e, key)
  {
    var rotations := Rotations(st, e);
    if rotations == [] {
      assert calls + rotations == calls;
    } else {
      RouteTurns(st, e.q, e.now);
      ShownAppend(selections, calls, rotations[0], key);
      RotateHead(st.turns.selections, rotations[0], key.priority);
    }
  }

  /** After any run: over as many queries for a scope and model that take turns as a tier has
      candidates, while each of them finds that tier unchanged, whatever else happens in between,
      each candidate is answered first in its tier exactly once, precisely when its cursor does not
      wrap in between or the tier length divides the cursor range. */
  lemma {:induction false} EachTakesItsTurnIff(start: seq<Event>, more: seq<Event>, key: SelectionKey, tier: seq<Candidate>)
    requires Steady(LaterCalls(start, more), key, tier) && Distinct(tier)
    requires |LaterHeads(start, more, key)| == |tier| <= CURSOR_MODULUS
    ensures EachShownOnce(LaterHeads(start, more, key), tier) <==>
            Cursor(Run(start).turns.selections, key) + |tier| <= CURSOR_MODULUS || CURSOR_MODULUS % |tier| == 0
  {
    HeadsAreShown(start, more, key);
    CursorsStayInRange(start, key);
    EachCandidateHeadsOnceIff(Run(start).turns.selections, LaterCalls(start, more), key, tier);
  }

  /** In particular while the router has handled fewer than 2^64 events. */
  lemma {:induction false} EachTakesItsTurn(start: seq<Event>, more: seq<Event>, key: SelectionKey, tier: seq<Candidate>)
    requires Steady(LaterCalls(start, more), key, tier) && Distinct(tier)
    requires |LaterHeads(start, more, key)| == |tier| && |start| + |tier| <= CURSOR_MODULUS
    ensures EachShownOnce(LaterHeads(start, more, key), tier)
  {
    CursorsStayInRange(start, key);
    EachTakesItsTurnIff(start, more, key, tier);
  }

  // ----- Runs: a binding pins its account -----

  /** What an event does to the bindings: a bind, a lookup, or nothing. A query looks only when
      it names a previous response and some candidate was gathered. */
  ghost function BindingOp(st: State, e: Event): (ops: seq<RB.Op>) {
    match e
    case Bound(scope, responseId, id, now) => [RB.Bind(now, RB.Key(scope, responseId), id)]
    case Routed(q, now) =>
      if q.previousResponseId.Some? && Gathered(Cool(st, now), q) != [] then [RB.Look(now)] else []
    case _ => []
  }

  ghost function BindingOps(events: seq<Event>): (ops: seq<RB.Op>) {
    if events == [] then []
    else
      var before := events[..|events| - 1];
      BindingOps(before) + BindingOp(Run(before), events[|events| - 1])
  }

  lemma {:induction false} StepBindings(st: State, e: Event)
    requires RB.Agree(st.bindings)
    ensures Step(st, e).bindings ==
            if BindingOp(st, e) == [] then st.bindings else RB.Apply(st.bindings, BindingOp(st, e)[0])
  {
    if e.Routed? {
      RouteBindings(st, e.q, e.now);
    }
  }

  /** The bindings of a run are the history of its binds and lookups; so they are at most a
      hundred thousand, expire exactly, and are won by the first live bind. */
  lemma {:induction false} BindingsFollowHistory(events: seq<Event>)
    ensures Run(events).bindings == RB.History(BindingOps(events))
    ensures |Run(events).bindings.entries| <= RB.MAX_RESPONSE_BINDINGS
  {
    if events != [] {
      var before, e := events[..|events| - 1], events[|events| - 1];
      BindingsFollowHistory(before);
      StepBindings(Run(before), e);
      var op := BindingOp(Run(before), e);
      if op == [] {
        assert BindingOps(before) + op == BindingOps(before);
      } else {
        assert op == [op[0]];
        RB.HistoryPush(BindingOps(before), op[0]);
      }
    }
  }

  predicate BoundAtMost(events: seq<Event>, t: Instant) {
    forall i :: 0 <= i < |events| && events[i].Bound? ==> events[i].now <= t
  }

  predicate BoundInOrder(events: seq<Event>) {
    forall i, j :: 0 <= i < j < |events| && events[i].Bound? && events[j].Bound? ==> events[i].now <= events[j].now
  }

  lemma {:induction false} OpsAtMost(events: seq<Event>, t: Instant)
    requires BoundAtMost(events, t)
    ensures forall i :: 0 <= i < |BindingOps(events)| && BindingOps(events)[i].Bind? ==> BindingOps(events)[i].now <= t
  {
    if events != [] {
      OpsAtMost(events[..|events| - 1], t);
    }
  }

  lemma {:induction false} OpsInOrder(events: seq<Event>)
    requires BoundInOrder(events)
    ensures RB.BindsInOrder(BindingOps(events))
  {
    if events != [] {
      var before, e := events[..|events| - 1], events[|events| - 1];
      OpsInOrder(before);
      if e.Bound? {
        OpsAtMost(before, e.now);
      }
    }
  }

  /** After any run whose binds came in the order of their times, a lookup at any time finds
      exactly the bindings not expired at its time. */
  lemma {:induction false} LookupIsExact(events: seq<Event>, now: Instant)
    requires BoundInOrder(events)
    ensures var t := Run(events).bindings;
            forall k :: k in RB.RemoveExpired(t, now).entries <==> k in t.entries && !RB.Expired(t.entries[k].boundAt, now)
  {
    BindingsFollowHistory(events);
    OpsInOrder(events);
    RB.ExpiryExactWhenBindsInOrder(BindingOps(events), now);
  }

  predicate NeverBound(events: seq<Event>, k: RB.Key) {
    forall i :: 0 <= i < |events| && events[i].Bound? ==> RB.Key(events[i].scope, events[i].responseId) != k
  }

  /** Every bind and query happens before the deadline, on its own clock. */
  predicate AllBefore(events: seq<Event>, deadline: Instant) {
    forall i :: 0 <= i < |events| && (events[i].Bound? || events[i].Routed?) ==> events[i].now < deadline
  }

  function BoundCount(events: seq<Event>): (n: nat) {
    if events == [] then 0 else BoundCount(events[..|events| - 1]) + if events[|events| - 1].Bound? then 1 else 0
  }

  lemma {:induction false} OpsNeverBind(events: seq<Event>, k: RB.Key)
    requires NeverBound(events, k)
    ensures RB.NeverBinds(BindingOps(events), k)
  {
    if events != [] {
      OpsNeverBind(events[..|events| - 1], k);
    }
  }

  lemma {:induction false} RunPush(events: seq<Event>, e: Event)
    ensures Run(events + [e]) == Step(Run(events), e)
  {
    assert (events + [e])[..|events|] == events;
  }

  lemma {:induction false} StillBound(start: seq<Event>, k: RB.Key, b: RB.Binding, after: seq<Event>)
    requires RB.Held(Run(start).bindings, k, b, 0)
    requires AllBefore(after, b.boundAt + RB.RESPONSE_BINDING_TTL) && BoundCount(after) < RB.MAX_RESPONSE_BINDINGS
    ensures RB.Held(Run(start + after).bindings, k, b, BoundCount(after))
  {
    if after == [] {
      assert start + after == start;
    } else {
      var init, e := after[..|after| - 1], after[|after| - 1];
      StillBound(start, k, b, init);
      LastApart(start, after);
      OneMoreHolds(start + init, e, k, b, BoundCount(init));
    }
  }

  lemma {:induction false} OneMoreHolds(events: seq<Event>, e: Event, k: RB.Key, b: RB.Binding, behind: nat)
    requires RB.Held(Run(events).bindings, k, b, behind)
    requires e.Bound? || e.Routed? ==> !RB.Expired(b.boundAt, e.now)
    requires e.Bound? ==> behind + 1 < RB.MAX_RESPONSE_BINDINGS
    ensures RB.Held(Run(events + [e]).bindings, k, b, if e.Bound? then behind + 1 else behind)
  {
    RunPush(events, e);
    BindingsFollowHistory(events);
    StepHolds(Run(events), e, k, b, behind);
  }

  lemma {:induction false} StepHolds(st: State, e: Event, k: RB.Key, b: RB.Binding, behind: nat)
    requires RB.Agree(st.bindings) && |st.bindings.entries| <= RB.MAX_RESPONSE_BINDINGS && RB.Held(st.bindings, k, b, behind)
    requires e.Bound? || e.Routed? ==> !RB.Expired(b.boundAt, e.now)
    requires e.Bound? ==> behind + 1 < RB.MAX_RESPONSE_BINDINGS
    ensures RB.Held(Step(st, e).bindings, k, b, if e.Bound? then behind + 1 else behind)
  {
    StepBindings(st, e);
    var op := BindingOp(st, e);
    if op != [] {
      RB.ApplyHolds(st.bindings, op[0], k, b, behind);
    }
  }

  /** An id that was never bound is unbound. */
  lemma {:induction false} NeverBoundIsUnbound(events: seq<Event>, k: RB.Key, now: Instant)
    requires NeverBound(events, k)
    ensures RB.Unbound(RB.History(BindingOps(events)), k, now)
  {
    OpsNeverBind(events, k);
    RB.UnboundIsAbsent(BindingOps(events), k);
    RB.RemoveExpiredDropsFront(RB.History(BindingOps(events)), now);
  }

  /** After binds in the order of their times an id is unbound exactly when it was never bound, its
      binding was evicted, or that binding has expired. */
  lemma {:induction false} UnboundIff(events: seq<Event>, k: RB.Key, now: Instant)
    requires BoundInOrder(events)
    ensures var t := RB.History(BindingOps(events));
            RB.Unbound(t, k, now) <==> k !in t.entries || RB.Expired(t.entries[k].boundAt, now)
  {
    BindingsFollowHistory(events);
    LookupIsExact(events, now);
  }

  /** After any run: a new binding of a response id, made at time t, still names its account
      while every later bind and query is before t plus the TTL and fewer than a hundred thousand
      ids have been bound since, whatever else happened, removals included. */
  lemma {:induction false} NewBindingIsKept(before: seq<Event>, scope: string, responseId: string, id: AccountId, t: Instant, after: seq<Event>)
    requires RB.Unbound(RB.History(BindingOps(before)), RB.Key(scope, responseId), t)
    requires AllBefore(after, t + RB.RESPONSE_BINDING_TTL) && BoundCount(after) < RB.MAX_RESPONSE_BINDINGS
    ensures var events := before + [Bound(scope, responseId, id, t)] + after;
            RB.Held(Run(events).bindings, RB.Key(scope, responseId), RB.Binding(id, t), BoundCount(after))
  {
    FreshlyBound(before, scope, responseId, id, t);
    StillBound(before + [Bound(scope, responseId, id, t)], RB.Key(scope, responseId), RB.Binding(id, t), after);
  }

  lemma {:induction false} FreshlyBound(before: seq<Event>, scope: string, responseId: string, id: AccountId, t: Instant)
    requires RB.Unbound(RB.History(BindingOps(before)), RB.Key(scope, responseId), t)
    ensures RB.Held(Run(before + [Bound(scope, responseId, id, t)]).bindings, RB.Key(scope, responseId), RB.Binding(id, t), 0)
  {
    RunPush(before, Bound(scope, responseId, id, t));
    BindingsFollowHistory(before);
    BoundHolds(Run(before), scope, responseId, id, t);
  }

  lemma {:induction false} BoundHolds(st: State, scope: string, responseId: string, id: AccountId, t: Instant)
    requires RB.Agree(st.bindings) && RB.Unbound(st.bindings, RB.Key(scope, responseId), t)
    ensures RB.Held(Step(st, Bound(scope, responseId, id, t)).bindings, RB.Key(scope, responseId), RB.Binding(id, t), 0)
  {
    RB.FreshBindHolds(st.bindings, t, RB.Key(scope, responseId), id);
  }

  /** So a query for that id, before the deadline, is routed to that account or nowhere; and
      nowhere at all once the account is no longer installed. */
  lemma {:induction false} LiveBindingPins(before: seq<Event>, scope: string, responseId: string, id: AccountId, t: Instant,
                                           after: seq<Event>, q: Query, now: Instant)
    requires RB.Unbound(RB.History(BindingOps(before)), RB.Key(scope, responseId), t)
    requires AllBefore(after, t + RB.RESPONSE_BINDING_TTL) && BoundCount(after) < RB.MAX_RESPONSE_BINDINGS
    requires q.routingScope == scope && q.previousResponseId == Some(responseId) && now < t + RB.RESPONSE_BINDING_TTL
    ensures var events := before + [Bound(scope, responseId, id, t)] + after;
            var answer := Route(Run(events), q, now).1;
            && |answer| <= 1 && (forall c :: c in answer ==> c.accountId == id)
            && (!Installed(events, id) ==> answer == [])
  {
    var events := before + [Bound(scope, responseId, id, t)] + after;
    var st := Run(events);
    NewBindingIsKept(before, scope, responseId, id, t, after);
    RB.LookHolds(st.bindings, now, BindingKey(q), RB.Binding(id, t), BoundCount(after));
    StoredBindingPins(st, q, now);
    var answer := Route(st, q, now).1;
    if answer != [] {
      assert answer[0] in answer;
      RoutedIsAllowed(st, q, now, answer[0]);
      InstalledMeaning(events, id);
    }
  }

  // ----- The router object -----

  /** The ascending order ends with the largest id. */
  lemma {:induction false} AscendingEnds(ids: set<AccountId>, id: AccountId)
    requires id in ids && forall other :: other in ids && other != id ==> Less(other, id)
    ensures Ascending(ids) == Ascending(ids - {id}) + [id]
  {
    var chosen :| chosen in ids && (forall other :: other in ids && other != chosen ==> Less(other, chosen)) &&
                  Ascending(ids) == Ascending(ids - {chosen}) + [chosen];
    LargestUnique(ids, id, chosen);
  }

  lemma {:induction false} LargestUnique(ids: set<AccountId>, a: AccountId, b: AccountId)
    requires a in ids && forall other :: other in ids && other != a ==> Less(other, a)
    requires b in ids && forall other :: other in ids && other != b ==> Less(other, b)
    ensures a == b
  {
    LessTotal(a, b);
  }

  /** One tier of a rotation, with what was already turned before it. */
  lemma {:induction false} TurnedTier(selections: Selections, scope: string, model: string, s: seq<Candidate>, done: seq<Candidate>)
    requires s != []
    ensures var n, key := TierLength(s, s[0].priority), SelectionKey(scope, model, s[0].priority);
            var next := Advance(selections, key, n);
            && done + Rotate(selections, scope, model, s) ==
               (done + TurnTier(Cursor(selections, key), s[..n])) + Rotate(next, scope, model, s[n..])
            && Rotated(selections, scope, model, s) == Rotated(next, scope, model, s[n..])
            && n > 0
  {}

  class ProviderModelRouter {
    var accounts: map<AccountId, Account>
    var affinities: map<AffinityKey, Affinity>
    var lastCleanup: Option<Instant>
    var selections: Selections
    var cooldowns: map<CooldownKey, Instant>
    const bindings: RB.BindingStore

    ghost function View(): (st: State)
      reads this, bindings
    {
      State(accounts, Turns(affinities, lastCleanup, selections), cooldowns, bindings.View())
    }

    constructor ()
      ensures View() == NEW && fresh(bindings)
    {
      accounts, affinities, lastCleanup, selections, cooldowns := map[], map[], None, map[], map[];
      bindings := new RB.BindingStore();
    }

    method ReplaceAccountModels(id: AccountId, runtimeProvider: string, account: Account) returns (ok: bool)
      requires RB.Agree(View().bindings)
      modifies this
      ensures ok <==> account.provider == runtimeProvider
      ensures View() == Step(old(View()), Install(id, runtimeProvider, account))
    {
      ok := account.provider == runtimeProvider;
      if ok {
        accounts := accounts[id := account];
      }
    }

    method Forget(id: AccountId) returns (removed: bool)
      modifies this
      ensures removed <==> id in old(accounts)
      ensures View() == RemoveAccount(old(View()), id)
    {
      removed := id in accounts;
      if removed {
        accounts := accounts - {id};
        affinities := map k | k in affinities && affinities[k].accountId != id :: affinities[k];
        cooldowns := map k | k in cooldowns && k.accountId != id :: cooldowns[k];
      }
    }

    method NoteFailure(id: AccountId, model: string, reason: FailoverReason, retryAfter: Option<nat>, now: Instant)
      modifies this
      ensures View() == RecordFailure(old(View()), id, model, reason, retryAfter, now)
    {
      var duration := CooldownFor(reason, retryAfter);
      if duration.None? {
        return;
      }
      cooldowns := cooldowns[CooldownKey(id, model) := now + duration.value];
    }

    method NoteSuccess(id: AccountId, model: string)
      modifies this
      ensures View() == RecordSuccess(old(View()), id, model)
    {
      cooldowns := cooldowns - {CooldownKey(id, model)};
    }

    method BindResponse(scope: string, responseId: string, id: AccountId, now: Instant)
      requires RB.Agree(View().bindings)
      modifies bindings
      ensures View() == Step(old(View()), Bound(scope, responseId, id, now))
      ensures RB.Agree(View().bindings)
    {
      bindings.InsertBinding(now, RB.Key(scope, responseId), id);
    }

    method CommitSession(scope: string, model: string, sessionId: Option<string>, id: AccountId, now: Instant)
      modifies this
      ensures View() == CommitAffinity(old(View()), scope, model, sessionId, id, now)
    {
      var session := TrimmedSession(sessionId);
      if session.Some? {
        affinities := affinities[AffinityKey(scope, model, session.value) := Affinity(id, now)];
      }
    }

    /** The registered ids in ascending order, as the ordered map iterates them. */
    method AccountOrder() returns (ids: seq<AccountId>)
      ensures ids == Ascending(accounts.Keys)
    {
      ids := [];
      var rest := accounts.Keys;
      while rest != {}
        invariant Ascending(rest) + ids == Ascending(accounts.Keys)
        decreases |rest|
      {
        Largest(rest);
        var id :| id in rest && forall other :: other in rest && other != id ==> Less(other, id);
        AscendingEnds(rest, id);
        ghost var below := Ascending(rest - {id});
        Assoc(below, [id], ids);
        ids := [id] + ids;
        rest := rest - {id};
      }
    }

    method Gather(q: Query) returns (routes: seq<Candidate>)
      ensures routes == Gathered(View(), q)
    {
      var ids := AccountOrder();
      routes := [];
      var fallback: seq<Candidate> := [];
      for i := 0 to |ids|
        invariant routes == ExactRoutes(View(), q, ids[..i])
        invariant fallback == FallbackRoutes(View(), q, ids[..i])
      {
        assert ids[..i + 1][..i] == ids[..i];
        var id := ids[i];
        if !Eligible(accounts, cooldowns, q, id) {
          continue;
        }
        var account := accounts[id];
        routes := routes + ModelRoutes(id, account, account.models, q.model);
        if account.provider == "openai_compatible" && !Knows(account, q.model) {
          fallback := fallback + [CandidateFor(id, account, q.model)];
        }
      }
      assert ids[..|ids|] == ids;
      if routes == [] {
        routes := fallback;
      }
    }

    method Routes(q: Query, now: Instant) returns (out: seq<Candidate>)
      requires RB.Agree(View().bindings)
      modifies this, bindings
      ensures (View(), out) == Route(old(View()), q, now)
      ensures RB.Agree(View().bindings)
    {
      StepAgrees(View(), Routed(q, now));
      cooldowns := map k | k in cooldowns && cooldowns[k] > now :: cooldowns[k];
      assert View() == Cool(old(View()), now);
      var routes := Gather(q);
      if routes == [] {
        return [];
      }
      routes := Sort(routes);
      if q.previousResponseId.Some? {
        bindings.ExpireFront(now);
        var key := RB.Key(q.routingScope, q.previousResponseId.value);
        if key in bindings.entries {
          var index := FirstOf(routes, bindings.entries[key].accountId);
          if index.None? {
            return [];
          }
          return [routes[index.value]];
        }
        routes := Stateless(routes);
        if routes == [] {
          return [];
        }
      }
      out := ArrangeRoutes(q, now, routes);
    }

    method ArrangeRoutes(q: Query, now: Instant, routes: seq<Candidate>) returns (out: seq<Candidate>)
      modifies this
      ensures (View().turns, out) == Arrange(old(View()).turns, q, now, routes)
      ensures View() == old(View()).(turns := View().turns)
    {
      var stuck := StickToSession(q, now, routes);
      if stuck.Some? {
        return stuck.value;
      }
      var slots := new Candidate[|routes|](i requires 0 <= i < |routes| => routes[i]);
      assert slots[..] == routes;
      RotateRoundRobin(q.routingScope, q.model, slots);
      out := slots[..];
    }

    /** Clean up, use or drop the session's affinity. */
    method StickToSession(q: Query, now: Instant, routes: seq<Candidate>) returns (stuck: Option<seq<Candidate>>)
      modifies this`affinities, this`lastCleanup
      ensures (View().turns, stuck) == UseAffinity(old(View()).turns, q, now, routes)
    {
      var session := TrimmedSession(q.sessionId);
      if session.None? {
        return None;
      }
      var key := AffinityKey(q.routingScope, q.model, session.value);
      if lastCleanup.None? || now >= lastCleanup.value + SESSION_AFFINITY_CLEANUP_INTERVAL {
        affinities := map k | k in affinities && AffinityFresh(affinities[k], now) :: affinities[k];
        lastCleanup := Some(now);
      }
      if key in affinities {
        var affinity := affinities[key];
        var index := FirstOf(routes, affinity.accountId);
        if AffinityFresh(affinity, now) && index.Some? {
          affinities := affinities[key := affinity.(lastUsed := now)];
          return Some(RotateLeft(routes, index.value));
        }
        affinities := affinities - {key};
      }
      return None;
    }

    /** Turn every tier in place, advancing its cursor. */
    method RotateRoundRobin(scope: string, model: string, routes: array<Candidate>)
      modifies this`selections, routes
      ensures routes[..] == Rotate(old(selections), scope, model, old(routes[..]))
      ensures selections == Rotated(old(selections), scope, model, old(routes[..]))
    {
      ghost var all, first := routes[..], selections;
      var start := 0;
      while start < routes.Length
        invariant start <= routes.Length
        invariant routes[..start] + Rotate(selections, scope, model, routes[start..]) == Rotate(first, scope, model, all)
        invariant Rotated(selections, scope, model, routes[start..]) == Rotated(first, scope, model, all)
      {
        ghost var done, rest, before := routes[..start], routes[start..], selections;
        var n := TurnInPlace(scope, model, routes, start);
        TurnedTier(before, scope, model, rest, done);
        assert Rotated(selections, scope, model, routes[start + n..]) == Rotated(before, scope, model, rest);
        start := start + n;
      }
    }

    /** Turn the tier that begins at `start` and say how long it is. */
    method TurnInPlace(scope: string, model: string, routes: array<Candidate>, start: nat) returns (n: nat)
      requires start < routes.Length
      modifies this`selections, routes
      ensures 0 < n && start + n <= routes.Length
      ensures var rest := old(routes[start..]);
              var key := SelectionKey(scope, model, rest[0].priority);
              && n == TierLength(rest, rest[0].priority)
              && selections == Advance(old(selections), key, n)
              && routes[..start + n] == old(routes[..start]) + TurnTier(Cursor(old(selections), key), rest[..n])
              && routes[start + n..] == rest[n..]
    {
      var rest := routes[start..];
      var priority := rest[0].priority;
      n := TierLength(rest, priority);
      assert n > 0;
      var tier := rest[..n];
      assert routes[start + n..] == rest[n..];
      var key := SelectionKey(scope, model, priority);
      var cursor := Cursor(selections, key);
      if n > 1 {
        selections := selections[key := WrappingNext(cursor)];
        tier := RotateLeft(tier, HeadIndex(cursor, n));
      }
      assert tier == TurnTier(cursor, rest[..n]);
      WriteTier(routes, start, tier);
    }

    static method WriteTier(routes: array<Candidate>, start: nat, tier: seq<Candidate>)
      requires start + |tier| <= routes.Length
      modifies routes
      ensures routes[..start + |tier|] == old(routes[..start]) + tier
      ensures routes[start + |tier|..] == old(routes[start + |tier|..])
    {
      forall i | 0 <= i < |tier| {
        routes[start + i] := tier[i];
      }
    }
  }
}
