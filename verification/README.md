# A verified model of provider-core

provider-core is a service that offers Codex- and Claude-compatible APIs and forwards each
request to one of many upstream AI accounts. This project models the parts of it that decide
something difficult, in Dafny 4.11, and proves what they promise over every input, every run or
every interleaving. `dafny verify dfyconfig.toml` checks all of it.

What is modelled, and the main result about each part:

* **Cost** (`Money`, `Tiers`, `CatalogPrices`, `PriceSelection`, `ObservedCost`, `MaximumCost`,
  `UsageNormalization`, `MaximumAttained`). Catalog prices are decimal literals held exactly, in
  context tiers. The maximum a request is charged against before it is sent bounds the total
  observed cost of every run of attempts that keeps to the request's bounds, in whatever tiers.
  Exactly when a run of provider reports can cost that much is decided by the prices, the
  contract and the bounds.
* **Streaming** (`Sse`, `EventStream`, `UsageObserver`). Decoding a byte stream chunk by chunk is
  cutting the whole stream once, however it was chunked. Frames are read as the event stream
  standard reads them under an exact condition. The observer beside the decoder forwards exactly
  the upstream items and tells its attempt how the stream ended exactly once.
* **Routing** (`ResponseBindings`, `Rotation`, `Router`). What is routed always passes every
  check and is past its cooldown, by the history alone. The response bindings keep a map and a
  queue in bijection, within bounds, with exact expiry when binds come in order; a new binding
  pins its account through any run. In any run each tier is rotated fairly exactly as
  long as its 64-bit cursor does not wrap badly.
* **Runtime** (`Admission`, `Requests`, `Scheduler`). Two semaphores bound running and waiting
  requests and leak nothing. Refreshes are single-flight: one success per credential
  generation. Each request makes at most two calls, each reported exactly once. Refresh timers
  and their key map always agree, and follow from the history of commands.
* **Money strings and key cache** (`Digits`, `QuotaAtoms`, `KeyCache`). Digit strings compute
  with natural numbers. The map of active API keys is exactly the projection of the store, less
  what is in flight or was left out by a cancelled mutation, at every step.
* **Usage lists and histories** (`Paging`, `SplitSum`, `HistoryTypes`, `History`,
  `HistoryRewrite`). Pages put together are the plain list even while rows change. Sums split
  in two are exact and fit 64 bits for up to a million rows. Rewriting a history is closed,
  order-preserving, and idempotent exactly when no agent message with content carries an
  internal field.

Code that changes things in place is modelled by classes and methods with loops, each proved
equal to a pure function of the old state; the results over whole runs are lemmas about those
functions. Code around an await is modelled as steps, so that any interleaving is a run. Time is
a natural number handed in by the caller.

## Where a promise does not hold as stated

For each, the last lemma named says exactly when the promise holds, and those before it are failing
inputs or families of inputs.

* Canonicalising a price list is idempotent only if every price is below 10^31: a longer printed
  price exceeds the 32 characters the parser accepts (`CatalogPrices.CanonicalRefused`,
  `CatalogPrices.CanonicalIdempotentIff`).
* The maximum cost is not always one that could be observed: a dearer tier may be out of reach of
  the request's own input (`MaximumAttained.TierOutOfReach`, `MaximumAttained.MaximumAttainedIff`).
* Expired response bindings can stay behind younger ones, because the clock is read before the
  lock is taken (`ResponseBindings.OutOfOrderBindingOutlivesTtl`,
  `ResponseBindings.ExpiryIsExactIff`).
* A tier rotates fairly across a wrap of its cursor only if its length divides 2^64
  (`Rotation.WrapRepeatsCandidate`, `Rotation.EachCandidateHeadsOnceIff`).
* An attempt receives no report at all when its request is dropped inside the upstream await, as a
  comment in the code says (`Requests.DroppedCallIsNeverReported`,
  `Requests.EachAttemptReportedOnce`).
* Removing an account while it is in use, or has just been looked up, and registering it again does
  not keep its admission bound; replacing it does (`Admission.RemovalForgetsHolders` and
  `Admission.LookupOutlivesRemoval`, `Admission.BoundKeptIff`).
* A request refused with a 401 may be sent again under the very credentials that were refused
  (`Requests.RetryUnderRefusedCredentials`, `Requests.RetryRepeatsIff`).
* A key mutation cancelled at an await leaves its key out of the active map, since nothing
  restores it on drop (`KeyCache.CancelledUpdateLosesKey`, `KeyCache.QuiescentIff`).
* Rewriting a history twice differs from rewriting it once when an agent message with content
  carries an internal field (`History.AgentMessageIsNotIdempotent`, `History.IdempotentIff`).
* A frame with a bare `data` line, an empty first data line, a lone carriage return by a data field
  or a blank line between data fields is read differently from section 9.2 of the WHATWG HTML
  Living Standard (`EventStream.BareFieldDiffers`, `EventStream.FollowsStandardIff`).

## Model

| member | source | states |
|---|---|---|
| `MaximumCost.MaximumDominates` | crates/provider-usage/src/cost.rs:43-134 | if the pre-dispatch maximum is M for n attempts, any at most n observations within the contract (input categories together within the input bound, output and separate reasoning within the output bound, nothing counted that does not apply), each in whatever context tier it selects, have observed totals that sum to at most M |
| `MaximumAttained.MaximumAttainedIff` | crates/provider-usage/src/cost.rs:43-134 | some run of as many 64-bit reports as attempts, each within the bounds and normalised under the contract, costs exactly M, if and only if a context within the input bound (or an unknown one) selects a price list whose maximum is M per attempt, input counts that occur in that context fill the input bound at the dearest rate, and a field can hold the output bound wherever output is charged |
| `MaximumAttained.AttainedIff` | crates/provider-usage/src/cost.rs:75-110 | the same for one attempt |
| `MaximumAttained.AttainedIsAttainable` | crates/provider-usage/src/cost.rs:75-110 | a report that costs the maximum fills the input bound at the dearest rate of a list its context selects |
| `MaximumAttained.FullInFieldIff` | crates/provider-usage/src/cost.rs:75-110 | for an input bound that one field can hold, the condition on the input in closed form: which rates must be the dearest in which context |
| `MaximumAttained.AttainableIsAttained` | crates/provider-usage/src/cost.rs:75-110 | and where that is possible a report is constructed that costs exactly the maximum |
| `MaximumAttained.TierOutOfReach` | crates/provider-usage/src/cost.rs:516-543 | in the example of 100 input tokens and a tier above 100 the maximum is 1600 and no report attains it |
| `UsageNormalization.CountableIff` | crates/provider-core/src/usage/normalize.rs:136-327 | exactly which pricing contexts and counts of uncached, cached and written input a 64-bit report can be normalised into under a contract, with unknown splits, contradictions and the overflowing sum |
| `UsageNormalization.CountsAreCountable` | crates/provider-core/src/usage/normalize.rs:136-327 | every report, and the absence of one, is normalised into such |
| `UsageNormalization.CountableIsReported` | crates/provider-core/src/usage/normalize.rs:136-327 | and for each of them the fields of a report are given |
| `MaximumCost.AttemptDominated` | crates/provider-usage/src/cost.rs:75-110 | an observation within the contract costs between zero and the maximum of one attempt, is never unavailable, and never lacks a price |
| `MaximumCost.ListDominates` | crates/provider-usage/src/cost.rs:75-110 | under one price list, the exact charges of an observation within the contract are at most that list's maximum |
| `MaximumCost.OverTiersMeaning` | crates/provider-usage/src/cost.rs:61-66 | the maximum over tiers is at least that of the base list and of every tier, and equals one of them |
| `MaximumCost.EverythingPriced` | crates/provider-usage/src/cost.rs:120-122 | once a maximum exists, no quantity the contract allows is reported as having no price |
| `MaximumCost.ComputeMaximumTextRequestCost` | crates/provider-usage/src/cost.rs:43-73 | the checked computation, with its errors in order, is the specified maximum |
| `MaximumCost.ComputeOverTiers` | crates/provider-usage/src/cost.rs:61-66 | the loop keeps the largest candidate and stops at the first list that fails |
| `MaximumCost.ComputeMaximumForPrices` | crates/provider-usage/src/cost.rs:75-110 | the running total of one list: dearest applicable input rate, output, separate reasoning; a missing rate or an overflow is the error |
| `MaximumCost.CheckedAddComponent` | crates/provider-usage/src/cost.rs:124-134 | adds one checked component to a checked total |
| `ObservedCost.ObservedMeaning` | crates/provider-usage/src/cost.rs:248-372 | with non-negative prices the cost is unavailable exactly when the exact sum exceeds 128 bits, otherwise it is exactly the sum of the charges; it is complete exactly when every positive quantity is priced, every priced component has a known or non-applicable quantity, and nothing else is in doubt |
| `ObservedCost.OverflowIff` | crates/provider-usage/src/cost.rs:311-325 | checked addition over non-negative charges fails exactly when their exact sum does not fit |
| `ObservedCost.TotalIsSum` | crates/provider-usage/src/cost.rs:311-325 | without overflow the running total is the sum of the charges, for any prices |
| `ObservedCost.CollectMeaning` | crates/provider-usage/src/cost.rs:239-243 | the reasons are exactly those raised, each listed once |
| `ObservedCost.SettledIff` | crates/provider-usage/src/cost.rs:221-237 | a component raises no reason exactly when a positive quantity has a price and a priced component has a known or non-applicable quantity |
| `ObservedCost.NoReasonIff` | crates/provider-usage/src/cost.rs:360-364 | no reason at all exactly when every component is settled and no further doubt was raised |
| `ObservedCost.AddComponents` | crates/provider-usage/src/cost.rs:311-325 | the loop over the seven components yields the checked total and the unique reasons, or stops at an overflow |
| `ObservedCost.PushFurther` | crates/provider-usage/src/cost.rs:327-358 | the six further doubts are pushed in order, each once |
| `ObservedCost.ComputeObservedCost` | crates/provider-usage/src/cost.rs:248-372 | the whole computation is the specified cost, including every unresolved price |
| `PriceSelection.SelectsGreatestThreshold` | crates/provider-usage/src/price.rs:112-131 | for an increasing tier list, the price used is that of the greatest threshold strictly below the context, the base if there is none, and the reported threshold names the same tier |
| `PriceSelection.ReachedGoverns` | crates/provider-server/src/usage_http.rs:321-340 | the last tier taken while below the context is the one with the greatest threshold below it |
| `PriceSelection.SelectedFromRecord` | crates/provider-usage/src/price.rs:112-131 | whatever the context, the prices used are the base or those of one stored tier |
| `PriceSelection.CatalogTiersAccepted` | crates/provider-usage/src/catalog.rs:472-502 | an accepted catalog list is the given tiers rearranged into strictly increasing thresholds |
| `PriceSelection.CatalogTiersRefusedIff` | crates/provider-usage/src/catalog.rs:472-502 | the sort and neighbour check refuse a list exactly when two of its thresholds coincide |
| `PriceSelection.SortTiersMeaning` | crates/provider-usage/src/catalog.rs:489 | the sort is ascending and a permutation |
| `CatalogPrices.ParseUnitPrice` | crates/provider-usage/src/catalog.rs:630-666 | a price text gives the exact decimal times 10^8, or nothing when it is no plain literal, too long, too fine or too large |
| `CatalogPrices.CheckedDigits` | crates/provider-usage/src/catalog.rs:655-660 | the digit loop computes the number and fails exactly on overflow |
| `CatalogPrices.CheckedShift` | crates/provider-usage/src/catalog.rs:661-664 | the scaling loop multiplies by the power of ten and fails exactly on overflow |
| `CatalogPrices.CheckedScaled` | crates/provider-usage/src/catalog.rs:655-665 | digits and scaling together give the exact scaled decimal |
| `CatalogPrices.ParsePrintedPrice` | crates/provider-usage/src/money.rs:47-57 | parsing a printed non-negative price gives it back exactly when it is below 10^31 (23 integer digits); a larger one prints to text that is refused |
| `CatalogPrices.NegativeTextRefused` | crates/provider-usage/src/money.rs:47-57 | a negative price prints to text that is refused |
| `CatalogPrices.RatesRoundTrip` | crates/provider-usage/src/catalog.rs:381-402 | a printed price list reads back exactly when every price is below 10^31, and is refused otherwise |
| `CatalogPrices.TiersRoundTrip` | crates/provider-usage/src/catalog.rs:324-344 | the same for an accepted tier list |
| `CatalogPrices.CanonicalIdempotentIff` | crates/provider-usage/src/catalog.rs:361-379 | canonicalising is idempotent and keeps every component and tier exactly when every price is below 10^31; otherwise the canonical form is itself refused |
| `CatalogPrices.CanonicalRefused` | crates/provider-usage/src/catalog.rs:361-379 | every integer literal of 24 to 30 digits is accepted and its canonical form refused: the family that breaks idempotence |
| `Tiers.ReadInOrder` | crates/provider-usage/src/catalog.rs:324-344 | the loop over tiers accepts exactly the lists with representable, strictly increasing thresholds and readable prices |
| `Tiers.AcceptedTier` | crates/provider-usage/src/catalog.rs:324-344 | an accepted list keeps every threshold and reads every tier |
| `Tiers.AcceptedIsOrdered` | crates/provider-usage/src/catalog.rs:324-344 | its thresholds are strictly increasing and representable |
| `Tiers.ListReadsBack` | crates/provider-usage/src/catalog.rs:361-379 | a round trip of the prices is a round trip of the ordered tier list that holds them |
| `Sse.RunReadsStream` | crates/provider-protocol/src/sse.rs:37-64 | a run of pushes succeeds exactly when every pending frame fits, and then yields the frames of the whole stream cut once, with the same bytes left over |
| `Sse.ChunkingIndependence` | crates/provider-protocol/src/sse.rs:37-64 | a split in which no push fails gives the same frames and state as one push of the whole; if the whole push overflows, every split does |
| `Sse.ReachableState` | crates/provider-protocol/src/sse.rs:37-64 | after any pushes the buffer holds no complete delimiter and at most the cap, and an overflow is permanent |
| `Sse.CutReadsSpelling` | crates/provider-protocol/src/sse.rs:75-83 | cutting reads back exactly the bodies and rest a stream was spelled from |
| `Sse.EveryStreamSpells` | crates/provider-protocol/src/sse.rs:75-83 | and every stream is spelled that way |
| `Sse.FirstDelimiterStable` | crates/provider-protocol/src/sse.rs:75-83 | a delimiter once found stays the first one whatever bytes follow |
| `Sse.FramesAppend` | crates/provider-protocol/src/sse.rs:37-64 | cutting a concatenation is cutting the first part and then its rest with the second |
| `EventStream.FollowsStandardIff` | crates/provider-protocol/src/sse.rs:85-99 | the decoder emits exactly the events that section 9.2 of the WHATWG HTML Living Standard dispatches for the bytes of a frame, if and only if no line hides a data field (a bare data line, or a data field next to a lone carriage return), the first data value is not empty, and no blank line comes between two data fields |
| `EventStream.BareFieldDiffers` | crates/provider-protocol/src/sse.rs:85-99 | a frame that starts with a bare data line is read differently |
| `EventStream.EmptyFirstDiffers` | crates/provider-protocol/src/sse.rs:85-99 | so is one that starts with an empty data line |
| `EventStream.LoneCrDiffers` | crates/provider-protocol/src/sse.rs:85-99 | and one with a lone carriage return after a data value |
| `EventStream.LinesOfJoin` | crates/provider-protocol/src/sse.rs:85-99 | splitting joined data values at line feeds gives them back |
| `Sse.FrameData` | crates/provider-protocol/src/sse.rs:85-99 | the line loop collects the data values and drops an empty first line |
| `Sse.SseDecoder.PushChunk` | crates/provider-protocol/src/sse.rs:37-64 | a push moves the decoder exactly as specified |
| `Sse.SseDecoder.Finish` | crates/provider-protocol/src/sse.rs:66-72 | finishing hands out the trailing frame and clears the buffer |
| `UsageObserver.RunReaches` | crates/provider-protocol/src/usage_observer.rs:101-126 | up to any stop point the observer has forwarded exactly the upstream items |
| `UsageObserver.EndOfStream` | crates/provider-protocol/src/usage_observer.rs:101-126 | at the end of the stream exactly the upstream items were forwarded and the attempt was told the specified reports |
| `UsageObserver.DropBeforeEnd` | crates/provider-protocol/src/usage_observer.rs:189-212 | a drop at any earlier point tells the specified reports |
| `UsageObserver.NothingAfterEnd` | crates/provider-protocol/src/usage_observer.rs:101-126 | after the end, polls and the drop change and forward nothing |
| `UsageObserver.ReportedExactlyOnce` | crates/provider-protocol/src/usage_observer.rs:180-212 | exactly one terminal report, last; finished at the end of the stream; success exactly when some inspected frame proved it and none disproved it; lost observation at most once, exactly on overflow |
| `UsageObserver.VerdictIndependentOfChunking` | crates/provider-protocol/src/usage_observer.rs:128-178 | what is told at the end depends only on the bytes when no pending frame outgrows the cap |
| `UsageObserver.UsageObservingStream.NextItem` | crates/provider-protocol/src/usage_observer.rs:101-126 | one poll moves the stream exactly as specified |
| `UsageObserver.UsageObservingStream.InspectChunk` | crates/provider-protocol/src/usage_observer.rs:128-150 | a chunk is decoded, or turns the observer blind and reports the loss |
| `UsageObserver.UsageObservingStream.ObserveFrame` | crates/provider-protocol/src/usage_observer.rs:152-178 | one frame updates reports, verdict and latest usage as specified |
| `UsageObserver.UsageObservingStream.TellFinished` | crates/provider-protocol/src/usage_observer.rs:180-187 | finishing detaches the attempt and reports once |
| `UsageObserver.UsageObservingStream.Drop` | crates/provider-protocol/src/usage_observer.rs:189-212 | dropping reports what was observed, once |
| `ResponseBindings.InsertAgrees` | crates/provider-runtime/src/router.rs:574-590 | inserting keeps the bijection of map and queue and the bound on their size; eviction ends because of the bijection |
| `ResponseBindings.RemoveExpiredDropsFront` | crates/provider-runtime/src/router.rs:592-601 | expiry drops exactly the expired run at the front of the queue |
| `ResponseBindings.SurvivesExpiry` | crates/provider-runtime/src/router.rs:592-601 | a binding survives exactly when it is queued behind the expired front, so nothing younger than the TTL is removed |
| `ResponseBindings.ExpiryIsExactIff` | crates/provider-runtime/src/router.rs:592-601 | expiry leaves no expired binding exactly when the expired ones were all in front |
| `ResponseBindings.ExpiryExactWhenBindsInOrder` | crates/provider-runtime/src/router.rs:559-601 | with insert times that never decrease, a lookup at any time, even one read before some of them, leaves exactly the bindings not expired at that time |
| `ResponseBindings.ApplyHolds` | crates/provider-runtime/src/router.rs:574-615 | a bind or lookup before its deadline leaves a binding alone, and queues at most one entry behind it |
| `ResponseBindings.OutOfOrderBindingOutlivesTtl` | crates/provider-runtime/src/router.rs:560-571 | with inserts out of order, an expired binding stays: a concrete history |
| `ResponseBindings.FirstLiveBindingWins` | crates/provider-runtime/src/router.rs:574-590 | binding a key again before it expires changes nothing about it |
| `ResponseBindings.BindingAnotherKey` | crates/provider-runtime/src/router.rs:574-590 | a live binding is lost to another key only when the table is full, and then only the oldest |
| `ResponseBindings.BindingStore.InsertBinding` | crates/provider-runtime/src/router.rs:574-590 | the in-place insert with its eviction loop is the specified one |
| `ResponseBindings.BindingStore.ExpireFront` | crates/provider-runtime/src/router.rs:592-601 | the expiry loop is the specified one |
| `ResponseBindings.BindingStore.PopOldest` | crates/provider-runtime/src/router.rs:603-615 | removing the oldest is the specified step |
| `Rotation.SortOrders` | crates/provider-runtime/src/router.rs:428-433 | candidates are ordered by priority, then account id |
| `Rotation.RotationPermutes` | crates/provider-runtime/src/router.rs:738-767 | rotation returns a permutation |
| `Rotation.RotationKeepsPriority` | crates/provider-runtime/src/router.rs:738-767 | every position keeps its priority, so priorities stay non-decreasing |
| `Rotation.TierHead` | crates/provider-runtime/src/router.rs:738-767 | a rotation puts the candidate its cursor names first in its tier, and advances only that cursor |
| `Rotation.ShownHead` | crates/provider-runtime/src/router.rs:738-767 | which candidate the k-th rotation of an unchanged tier shows first, whatever happens to the other tiers and whatever other scopes and models are rotated in between |
| `Rotation.ShownCursor` | crates/provider-runtime/src/router.rs:738-767 | and where the rotations leave its cursor |
| `Rotation.EachCandidateHeadsOnceIff` | crates/provider-runtime/src/router.rs:738-767 | over as many rotations of an unchanged tier of distinct candidates as it has, while the other tiers of the list may change and others are rotated in between, each candidate heads it exactly once, precisely when the 64-bit cursor does not wrap in between or the tier length divides 2^64 |
| `Router.EachTakesItsTurnIff` | crates/provider-runtime/src/router.rs:449-487 | after any run of the router: over as many queries that take turns as a tier has candidates, each finding that tier unchanged, whatever other events come in between, each candidate is answered first in its tier exactly once, under the same condition on the cursor of the run |
| `Router.EachTakesItsTurn` | crates/provider-runtime/src/router.rs:449-487 | which holds while the router has handled fewer than 2^64 events |
| `Router.CursorsStayInRange` | crates/provider-runtime/src/router.rs:738-767 | every cursor of a run is a 64-bit number and at most the number of events |
| `Router.RouteTurns` | crates/provider-runtime/src/router.rs:435-487 | a query that no binding pins and no session sticks answers with the rotation of what is offered; any other leaves the cursors alone |
| `Router.SelectionsFollowCalls` | crates/provider-runtime/src/router.rs:449-487 | the cursors of a run are what its rotations made of them |
| `Rotation.EachHeadsOnceIff` | crates/provider-runtime/src/router.rs:738-767 | the same for the positions the cursor names |
| `Rotation.WrapRepeatsCandidate` | crates/provider-runtime/src/router.rs:760 | at cursor 2^64 - 1 three rotations of a tier of three show its first candidate twice and its last never |
| `Router.RoutedIsAllowed` | crates/provider-runtime/src/router.rs:345-488 | every routed candidate passes access, availability, format, key-scope and cooldown checks; with an unbound previous response id it keeps no response state |
| `Router.GatheredMeaning` | crates/provider-runtime/src/router.rs:365-426 | a candidate is gathered exactly when it is the route of an eligible account to a model it serves, or no such route exists and it is the optimistic route of an eligible relay |
| `Router.RoutedIsEverything` | crates/provider-runtime/src/router.rs:345-488 | without a previous response id nothing gathered is lost |
| `Router.LiveBindingPins` | crates/provider-runtime/src/router.rs:435-447 | after any run, a query for a response id that was unbound when it was bound at time t is routed to that account or nowhere, and nowhere once the account is not installed, while all later binds and queries are before t plus the TTL and fewer than a hundred thousand ids were bound since |
| `Router.NewBindingIsKept` | crates/provider-runtime/src/router.rs:559-571 | that new binding is still stored, whatever else happened in between, removals included |
| `Router.UnboundIff` | crates/provider-runtime/src/router.rs:574-601 | after binds in the order of their times an id is unbound exactly when it is not stored or its binding has expired |
| `Router.NeverBoundIsUnbound` | crates/provider-runtime/src/router.rs:574-601 | an id never bound before is unbound after any run |
| `Router.BindingsFollowHistory` | crates/provider-runtime/src/router.rs:435-437 | the bindings of any run are the history of its binds and lookups, and never more than the cap |
| `Router.LookupIsExact` | crates/provider-runtime/src/router.rs:435-447 | after any run with binds in the order of their times, a lookup finds exactly the unexpired bindings |
| `Router.StoredBindingPins` | crates/provider-runtime/src/router.rs:438-447 | a stored binding yields at most its own account |
| `Router.UnboundAvoidsStateful` | crates/provider-runtime/src/router.rs:448-452 | an unbound previous response id never reaches a provider that keeps response state |
| `Router.ArrangeOrder` | crates/provider-runtime/src/router.rs:454-487 | a fresh session affinity puts its account first and keeps the cyclic order; otherwise priorities never decrease |
| `Router.AnswerOrder` | crates/provider-runtime/src/router.rs:345-488 | along any answer priorities never decrease unless a session sticks to an account |
| `Router.CooldownsFollowHistory` | crates/provider-runtime/src/router.rs:513-557 | after any history a stored cooldown is the deadline of the latest failure not cleared since by a success or the removal of the account, and a deadline no longer stored has passed |
| `Router.RoutedIsPastItsDeadline` | crates/provider-runtime/src/router.rs:362-377 | after any history every routed candidate is past the deadline of its latest failure, on the clock of this call or, should clocks run backwards, of an earlier one |
| `Router.InstalledMeaning` | crates/provider-runtime/src/router.rs:163-205 | an account is installed exactly when the history says so |
| `Router.ProviderModelRouter.Routes` | crates/provider-runtime/src/router.rs:345-488 | the whole selection, with its updates of cooldowns, bindings, affinities and cursors, is the specified one |
| `Router.ProviderModelRouter.Gather` | crates/provider-runtime/src/router.rs:365-426 | the filter loop gathers the specified candidates |
| `Router.ProviderModelRouter.ArrangeRoutes` | crates/provider-runtime/src/router.rs:454-487 | affinity or rotation, as specified |
| `Router.ProviderModelRouter.StickToSession` | crates/provider-runtime/src/router.rs:454-483 | clean-up, use and removal of the session affinity, as specified |
| `Router.ProviderModelRouter.RotateRoundRobin` | crates/provider-runtime/src/router.rs:738-767 | the tier loop rotates the array in place as specified |
| `Router.ProviderModelRouter.TurnInPlace` | crates/provider-runtime/src/router.rs:746-765 | one tier is turned in place and its cursor advanced |
| `Router.ProviderModelRouter.ReplaceAccountModels` | crates/provider-runtime/src/router.rs:163-193 | installing an account |
| `Router.ProviderModelRouter.Forget` | crates/provider-runtime/src/router.rs:195-205 | removing an account drops its affinities and cooldowns and leaves its bindings |
| `Router.ProviderModelRouter.NoteFailure` | crates/provider-runtime/src/router.rs:522-550 | recording a failure sets the specified cooldown |
| `Router.ProviderModelRouter.NoteSuccess` | crates/provider-runtime/src/router.rs:552-557 | a success clears the cooldown |
| `Router.ProviderModelRouter.CommitSession` | crates/provider-runtime/src/router.rs:490-511 | committing a session affinity |
| `Router.ProviderModelRouter.BindResponse` | crates/provider-runtime/src/router.rs:559-571 | binding a response id |
| `Admission.AdmissionIsSafe` | crates/provider-runtime/src/runtime.rs:139-188 | in every run, every capacity has at most `concurrency` running and at most `concurrency + queue` running or waiting requests, and free plus held permits are constant |
| `Admission.MoveKeepsBalance` | crates/provider-runtime/src/runtime.rs:162-187 | admission, grant, timeout or drop while waiting, and release each keep every permit either free or held once |
| `Admission.BalancedBounds` | crates/provider-runtime/src/runtime.rs:162-187 | a request is turned away exactly when running plus waiting is full, waits exactly when running is full, and with no holders all permits are free |
| `Admission.ReplacingKeepsBound` | crates/provider-runtime/src/runtime.rs:285-306 | however often an account is replaced, its requests together stay within the bounds of one capacity, as long as it is only ever removed while nobody holds a permit for it or has looked it up and may still acquire one |
| `Admission.BoundKeptIff` | crates/provider-runtime/src/runtime.rs:251-323 | after any run the concurrency bound of an account holds in every continuation without a removal exactly when everyone who holds a permit for it, or has looked it up and not yet tried to acquire one, does so at its current capacity |
| `Admission.CurrentHoldersWithin` | crates/provider-runtime/src/runtime.rs:139-188 | while the holders are at the current capacity both bounds hold |
| `Admission.Exceeds` | crates/provider-runtime/src/runtime.rs:251-323 | otherwise a continuation is constructed that runs more requests of the account than its concurrency |
| `Admission.RemovalForgetsHolders` | crates/provider-runtime/src/runtime.rs:308-323 | with a concurrency of one, registering, running a request, removing, registering again and running another leaves two running |
| `Admission.LookupOutlivesRemoval` | crates/provider-runtime/src/runtime.rs:371-381 | so does a removal and registration between the lookup of a request and its acquire, though nobody holds a permit at that time |
| `Admission.AccountInferenceCapacity.constructor` | crates/provider-runtime/src/runtime.rs:150-160 | both semaphores start full |
| `Admission.AccountInferenceCapacity.TryAdmit` | crates/provider-runtime/src/runtime.rs:166-172 | takes an admission permit exactly when running plus waiting is not full |
| `Admission.AccountInferenceCapacity.Grant` | crates/provider-runtime/src/runtime.rs:177-186 | takes an active permit exactly when running is not full |
| `Admission.AccountInferenceCapacity.DropWaiting` | crates/provider-runtime/src/runtime.rs:173-179 | a timed out or dropped wait gives its admission permit back |
| `Admission.AccountInferenceCapacity.DropPermit` | crates/provider-runtime/src/runtime.rs:48-64 | the end or drop of the stream gives both permits back |
| `Admission.AccountMap.Register` | crates/provider-runtime/src/runtime.rs:251-283 | a new account gets a fresh capacity, a known one is refused |
| `Admission.AccountMap.Replace` | crates/provider-runtime/src/runtime.rs:285-306 | a known account keeps its very capacity object |
| `Admission.AccountMap.Remove` | crates/provider-runtime/src/runtime.rs:308-323 | only that account leaves the map |
| `Requests.OneRefreshPerGeneration` | crates/provider-runtime/src/runtime.rs:625-641 | however 401s, timers, drops and credential changes race, at most one refresh succeeds per generation and only one runs at a time |
| `Requests.EachAttemptReportedOnce` | crates/provider-runtime/src/runtime.rs:472-604 | a request makes at most two upstream calls; no attempt is reported twice; once the request is over each tracked attempt was reported exactly once, unless it is the latest one and the request was dropped inside its upstream await |
| `Requests.AbandonedIffDroppedInCall` | crates/provider-runtime/src/runtime.rs:597-603 | an attempt ends without a report exactly when its request was dropped while that call was in flight |
| `Requests.DroppedCallIsNeverReported` | crates/provider-runtime/src/runtime.rs:597-603 | a request that arrives and is dropped in its call leaves its attempt without a report |
| `Requests.RetryRepeatsIff` | crates/provider-runtime/src/runtime.rs:482-549 | a request that goes upstream again after a 401 is sent under a newer generation than was read before its first call; it is sent under the very credentials that were refused exactly when these came in between that reading and the first call, and did not change again before the second |
| `Requests.RetryUnderRefusedCredentials` | crates/provider-runtime/src/runtime.rs:633-635 | a run in which the refresh is skipped and the retry goes out under the refused credentials |
| `Requests.RunKeepsSentOk` | crates/provider-runtime/src/runtime.rs:482-549 | calls are sent under generations that never go back, and a request waits for a refresh only after a call was sent |
| `Requests.RunKeepsGate` | crates/provider-runtime/src/runtime.rs:625-641 | the gate always names whoever is refreshing, and every success started from an older generation |
| `Requests.CallKeepsTask` | crates/provider-runtime/src/runtime.rs:663-687 | every answer of an upstream call leaves the attempt reports in order |
| `Requests.RefreshKeepsTask` | crates/provider-runtime/src/runtime.rs:514-531 | every refresh result reports the first attempt once, and only a success opens a second |
| `Requests.EndKeepsTask` | crates/provider-runtime/src/runtime.rs:32-46 | the end or drop of a stream reports an observed attempt once, and an unobserved one not again |
| `Requests.AnsweredAttemptGuard.Fail` | crates/provider-runtime/src/runtime.rs:114-118 | the guard reports once and lets go |
| `Requests.AnsweredAttemptGuard.FailWithReason` | crates/provider-runtime/src/runtime.rs:120-124 | the same with a reason |
| `Requests.AnsweredAttemptGuard.Drop` | crates/provider-runtime/src/runtime.rs:127-131 | dropping the guard reports only what nothing reported before |
| `Scheduler.AlwaysAgrees` | crates/provider-runtime/src/runtime.rs:796-913 | in every run the key map names exactly the live timers |
| `Scheduler.AtMostOneTimer` | crates/provider-runtime/src/runtime.rs:796-913 | no account ever has two pending timers |
| `Scheduler.TimersFollowHistory` | crates/provider-runtime/src/runtime.rs:806-864 | an account's timer is the latest schedule or backoff not since removed or fired, with the backoff of its current run of failures |
| `Scheduler.FailuresFollowHistory` | crates/provider-runtime/src/runtime.rs:806-864 | the failure count is the saturating number of failures since the last success or removal |
| `Scheduler.BackoffIsBoundedAndMonotone` | crates/provider-runtime/src/runtime.rs:924-934 | backoff never shrinks as failures mount and lies between 30 and 315 seconds |
| `Scheduler.BackoffLadder` | crates/provider-runtime/src/runtime.rs:924-934 | 30, 60, 120, 240 and then 300 seconds, plus the account's jitter |
| `Scheduler.RefreshScheduler.ScheduleAfter` | crates/provider-runtime/src/runtime.rs:891-903 | resets the live timer or inserts a new one; a reset key is always live |
| `Scheduler.RefreshScheduler.RemoveSchedule` | crates/provider-runtime/src/runtime.rs:905-913 | removes the timer, if any; a removed key is always live |
| `Scheduler.RefreshScheduler.OnReschedule` | crates/provider-runtime/src/runtime.rs:869-889 | a reschedule forgets failures and follows what the runtime says |
| `Scheduler.RefreshScheduler.OnBackoff` | crates/provider-runtime/src/runtime.rs:816-820 | a failure counts up and schedules the backoff |
| `Scheduler.RefreshScheduler.OnRemove` | crates/provider-runtime/src/runtime.rs:821-824 | a removal forgets failures and timer |
| `Scheduler.RefreshScheduler.OnFire` | crates/provider-runtime/src/runtime.rs:827-829 | an expired timer leaves queue and key map together |
| `Scheduler.RefreshScheduler.OnJoined` | crates/provider-runtime/src/runtime.rs:843-862 | a finished refresh acts like the matching command |
| `QuotaAtoms.AddAtoms` | crates/provider-auth/src/model.rs:295-323 | adding digit strings is integer addition, refused exactly when an operand is invalid or the sum is at least 10^64 |
| `QuotaAtoms.AddColumns` | crates/provider-auth/src/model.rs:300-317 | the carry loop sums the columns, with at most one extra leading 1 |
| `QuotaAtoms.AtomsGeCompares` | crates/provider-auth/src/model.rs:277-292 | comparison is integer comparison despite leading zeros |
| `QuotaAtoms.ParseQuotaLimitUsd` | crates/provider-auth/src/model.rs:230-262 | a limit text gives the decimal times 10^14 as digits without leading zeros; no amount, zero, and more than 64 digits are refused |
| `QuotaAtoms.PadFraction` | crates/provider-auth/src/model.rs:249-252 | the padding loop scales the fraction |
| `QuotaAtoms.FormatDenotes` | crates/provider-auth/src/model.rs:265-274 | a printed amount denotes the same number of atoms |
| `QuotaAtoms.ParsePrinted` | crates/provider-auth/src/model.rs:230-274 | parsing a printed amount gives back its digits without leading zeros, refused exactly for zero |
| `QuotaAtoms.ParsedLimitIsCanonical` | crates/provider-auth/src/model.rs:230-274 | a parsed limit is valid and exact, and prints to text that parses to itself |
| `KeyCache.MapIsProjection` | crates/provider-auth/src/service.rs:347-572 | at every step of every interleaving the active map is exactly the projection of the enabled stored keys, less the key being changed and the keys cancelled mutations left out |
| `KeyCache.QuiescentIff` | crates/provider-auth/src/service.rs:347-572 | with no mutation in progress the map is the full projection exactly when no key left out by a cancelled mutation is still stored and enabled |
| `KeyCache.NoCancelNothingLeftOut` | crates/provider-auth/src/service.rs:347-572 | nothing is left out unless a mutation is cancelled at an await |
| `KeyCache.CancelledUpdateLosesKey` | crates/provider-auth/src/service.rs:512-538 | loading one enabled key, starting an update and cancelling it leaves the key stored and the map empty |
| `KeyCache.FailureRestores` | crates/provider-auth/src/service.rs:529-538 | a mutation that fails, or that the store does not accept, leaves map and store exactly as they were |
| `KeyCache.AdmittedIff` | crates/provider-auth/src/service.rs:356-370 | a secret is admitted exactly when an enabled, unexpired stored key carries it that is neither being changed nor left out, and the identity returned is the stored one |
| `KeyCache.ApiKeyAuthenticator.constructor` | crates/provider-auth/src/service.rs:347-354 | loading makes exactly the enabled stored keys active |
| `KeyCache.ApiKeyAuthenticator.Authenticate` | crates/provider-auth/src/service.rs:356-370 | looks the digest up and refuses an expired key |
| `KeyCache.ApiKeyAuthenticator.RemoveActive` | crates/provider-auth/src/service.rs:663-673 | takes out the entry with the owner and id, if there is one |
| `KeyCache.ApiKeyAuthenticator.RestoreActive` | crates/provider-auth/src/service.rs:675-682 | puts it back |
| `KeyCache.ApiKeyAuthenticator.Publish` | crates/provider-auth/src/service.rs:539-554 | an enabled stored key becomes active |
| `KeyCache.ApiKeyAuthenticator.Mutate` | crates/provider-auth/src/service.rs:414-572 | an uninterrupted mutation: success publishes the stored key, anything else leaves the map as it was |
| `Paging.RequestPagesAreTheList` | crates/provider-storage/src/usage_query.rs:243-321 | following the cursors of an unchanging table visits every matching request exactly once, in descending (completion time, id) order |
| `Paging.RequestPagesWhileRowsChange` | crates/provider-storage/src/usage_query.rs:243-321 | while rows come and go between pages nothing is repeated, the order holds, and a row present throughout is returned |
| `Paging.PagesAreTheList` | crates/provider-storage/src/usage_query.rs:243-321 | the pages put together are the plain ordered list, for any order and limit |
| `Paging.NeverRepeats` | crates/provider-storage/src/usage_query.rs:264-269 | whatever changes between pages, rows come in order, without repetition, past the cursor, each from the table its page was read from |
| `Paging.NeverSkips` | crates/provider-storage/src/usage_query.rs:264-269 | a row present throughout has been returned once the last page is reached |
| `Paging.NextIsSmaller` | crates/provider-usage/src/query.rs:171-189 | a next cursor lies strictly past the old one and leaves fewer rows |
| `Paging.PageMeaning` | crates/provider-storage/src/usage_query.rs:262-321 | a page without a next cursor holds every row left; with one it is full, ends at the cursor, and leaves out only rows past it |
| `Paging.NewerIsOrder` | crates/provider-storage/src/usage_query.rs:266 | the keyset comparison is a strict total order |
| `Paging.RequestPage` | crates/provider-storage/src/usage_query.rs:249-320 | a limit outside 1 to 200 is refused; otherwise the loop builds the page and its cursor from the one row too many |
| `SplitSum.SplitIsExact` | crates/provider-usage/src/query.rs:348-360 | splitting each cost by 10^6, summing the halves and recombining is the exact sum, for any list |
| `SplitSum.FitsIff` | crates/provider-storage/src/usage_query.rs:110-115 | both 64-bit accumulators hold every running total of every list of n rows exactly when n is at most one million |
| `SplitSum.TotalIsPlainSum` | crates/provider-storage/src/usage_query.rs:392-415 | the reported total is the plain sum of the complete costs, absent exactly when there is none |
| `SplitSum.PlainSumNeedsSplitting` | crates/provider-usage/src/query.rs:348-354 | unsplit, two rows already overflow 64 bits |
| `History.KeptItem` | crates/provider-drivers/src/responses_history.rs:44-237 | a surviving item has no type left to rewrite or reject; a rewritten call or output is a function item with a non-blank string call id; a second pass keeps it, unchanged unless it came from an agent message with an internal field |
| `History.OutputIsSurvivors` | crates/provider-drivers/src/responses_history.rs:26-42 | the input is refused exactly when some item is rejected; otherwise the output is the rewritten survivors in their order |
| `History.OutputIsSettled` | crates/provider-drivers/src/responses_history.rs:26-42 | no item of the output has a rewritten or rejected type |
| `History.IdempotentIff` | crates/provider-drivers/src/responses_history.rs:26-304 | normalising an output again succeeds and keeps every item; it changes nothing exactly when no agent message of the input carries one of the three internal fields together with a content part that is not left out |
| `History.AgentSurvivesIff` | crates/provider-drivers/src/responses_history.rs:239-304 | an agent message that is not rejected survives exactly when some content part is not left out |
| `History.TwiceIsStable` | crates/provider-drivers/src/responses_history.rs:26-304 | two passes are always enough |
| `History.AgentMessageIsNotIdempotent` | crates/provider-drivers/src/responses_history.rs:239-304 | an agent message with an internal field is changed by the second pass: a concrete input |
| `History.PartsAreText` | crates/provider-drivers/src/responses_history.rs:254-294 | what is left of an agent message is text parts with string text |
| `History.KeptCallIsFunctionItem` | crates/provider-drivers/src/responses_history.rs:306-330 | every rewritten call or output has the function shape and a usable call id |
| `History.ProviderRulesAreSensible` | crates/provider-drivers/src/responses_history.rs:58-233 | the types the rewrite produces are none of those it rewrites or rejects |
| `HistoryRewrite.RequestBody.NormalizeInput` | crates/provider-drivers/src/responses_history.rs:26-42 | the loop rewrites the input as specified; a rejected history leaves an empty input behind |
| `HistoryRewrite.HistoryItem.Normalize` | crates/provider-drivers/src/responses_history.rs:44-237 | the in-place rewrite of one object is the specified outcome |
| `HistoryRewrite.HistoryItem.NormalizeTyped` | crates/provider-drivers/src/responses_history.rs:58-233 | the dispatch over types |
| `HistoryRewrite.HistoryItem.NormalizeAgentMessage` | crates/provider-drivers/src/responses_history.rs:239-304 | the content loop rewrites, skips or rejects each part and rebuilds the message |
| `HistoryRewrite.HistoryItem.NormalizeOwnCall` | crates/provider-drivers/src/responses_history.rs:60-140 | custom, search, patch and program calls, which need a call id of their own |
| `HistoryRewrite.HistoryItem.NormalizeOwnOutput` | crates/provider-drivers/src/responses_history.rs:76-153 | their outputs and MCP outputs |
| `HistoryRewrite.HistoryItem.NormalizeHostedCall` | crates/provider-drivers/src/responses_history.rs:154-200 | hosted calls, rejecting results that cannot be carried over |
| `HistoryRewrite.HistoryItem.NormalizeMcpToolCall` | crates/provider-drivers/src/responses_history.rs:204-217 | MCP calls need a call id or id, and a name |
| `HistoryRewrite.HistoryItem.ConvertHostedToolCall` | crates/provider-drivers/src/responses_history.rs:405-439 | a hosted call becomes a function call with its action or the rest as arguments |
| `HistoryRewrite.HistoryItem.ConvertHostedToolOutput` | crates/provider-drivers/src/responses_history.rs:441-449 | a hosted output becomes a function output |
| `HistoryRewrite.HistoryItem.TakeRest` | crates/provider-drivers/src/responses_history.rs:417-432 | the key loop moves out exactly the fields that describe the call |
| `HistoryRewrite.HistoryItem.EnsureCallId` | crates/provider-drivers/src/responses_history.rs:388-403 | falls back on the trimmed id |
| `HistoryRewrite.HistoryItem.RebuildFunctionCall` | crates/provider-drivers/src/responses_history.rs:306-320 | clears the item and inserts exactly the four fields of a function call |
| `HistoryRewrite.HistoryItem.RebuildFunctionOutput` | crates/provider-drivers/src/responses_history.rs:322-330 | clears the item and inserts exactly the three fields of a function output |
| `HistoryRewrite.NormalizePart` | crates/provider-drivers/src/responses_history.rs:254-294 | one content part: text kept, encrypted text turned into text, an empty one skipped, anything else refused |

## Left out

- HTTP handlers, configuration, logging, cookies and the static user interface: input and output only.
- Hashing, random tokens and ids: the key cache takes an arbitrary injective digest.
- SQL beyond paging and split sums: the row order, the keyset condition and the two sums are modelled, the rest of the queries and the separate count of a page are not.
- Enabling, disabling and deleting users: their effect on keys lives in the store; all owners count as enabled.
- A database write that takes effect after its caller was dropped: a cancelled mutation has written before the drop or not at all.
- Validation and normalisation of key labels, groups and expiry before a mutation starts: a refused one changes nothing.
- JSON extraction from stream frames and JSON printing: arbitrary functions handed to the model; the order of object fields is not modelled.
- Error messages and failover details of provider errors: only the kind of outcome and whether a reason was attached are kept.
- Tracking, the usage writer, and the total and warnings of normalised usage: no amount depends on them; the maximum assumes what the contract says about quantities and nothing else.
- The standard's reading of whole streams (byte order mark, event types, ids, retry times): the comparison is of the data of one frame.
- Interleavings inside one router operation: removing an account takes three locks one after another, and a query several, while the model makes each operation one step.
- Availability of accounts: part of the query, since it belongs to account objects outside the router.
- Fairness of the semaphores and the limit on concurrent refreshes: any waiting request may be granted a free permit; liveness is not claimed.
- A refresh that is dropped half way counts as no success, whatever it did to the credentials.
- Characters stand for bytes in prices, atoms and trimmed text, where everything accepted is ASCII; request ids are compared by code point, which is also their byte order.
- Generations, clock values and request bounds are unbounded; 128-bit, 64-bit and 32-bit limits are modelled where the code checks, wraps or saturates.
- Route diagnostics, model listings, catalog downloads, account access updates and small tables between enums and strings: they would only add easy members.
