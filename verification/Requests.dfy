/** Requests against one account entry: upstream calls, the single-flight credential refresh that
    a 401 or a timer triggers, and the reports each attempt receives. Every await is a separate
    step, so any interleaving of tasks is a run. */
module Requests {
  import opened Wrappers

  type TaskId = nat

  // ----- Attempts and their reports -----

  datatype Report = Failed(answered: bool) | FailedWithReason(answered: bool) | Finished | Cancelled

  /** One upstream call. An untracked call receives no reports; an abandoned one was cancelled
      inside the upstream await. `sent` is the generation of the credentials it was sent with, once
      the driver has read them. */
  datatype Attempt = Attempt(tracked: bool, reports: seq<Report>, abandoned: bool, sent: Option<nat>)

  function Opening(tracked: bool): (a: Attempt) { Attempt(tracked, [], false, None) }

  function Tell(a: Attempt, report: Report): (b: Attempt) {
    if a.tracked then a.(reports := a.reports + [report]) else a
  }

  function FailureReport(answered: bool, reason: bool): (r: Report) {
    if reason then FailedWithReason(answered) else Failed(answered)
  }

  /** Holds an attempt whose call was answered; whatever happens first is its only report. */
  class AnsweredAttemptGuard {
    var held: bool
    var attempt: Attempt

    constructor (attempt: Attempt)
      ensures held == attempt.tracked && this.attempt == attempt
    {
      held := attempt.tracked;
      this.attempt := attempt;
    }

    ghost predicate Valid()
      reads this
    {
      held ==> attempt.tracked
    }

    method Fail()
      requires Valid()
      modifies this
      ensures Valid() && !held
      ensures attempt == if old(held) then Tell(old(attempt), Failed(true)) else old(attempt)
    {
      if held {
        attempt := Tell(attempt, Failed(true));
        held := false;
      }
    }

    method FailWithReason()
      requires Valid()
      modifies this
      ensures Valid() && !held
      ensures attempt == if old(held) then Tell(old(attempt), FailedWithReason(true)) else old(attempt)
    {
      if held {
        attempt := Tell(attempt, FailedWithReason(true));
        held := false;
      }
    }

    /** Dropping the guard reports a plain failure unless something was reported before. */
    method Drop()
      requires Valid()
      modifies this
      ensures Valid() && !held
      ensures attempt == if old(held) then Tell(old(attempt), Failed(true)) else old(attempt)
    {
      Fail();
    }
  }

  // ----- One task -----

  datatype Phase =
    | Calling                     // inside the upstream call of the latest attempt
    | AwaitGate                   // wants to refresh, waiting for the gate
    | Refreshing                  // holds the gate, past the generation check
    | Streaming(observed: bool)   // the stream is open; `observed` when an observer will report
    | Done

  /** A request, or another task (a timer or a quota query) that only ever refreshes. `expected` is
      the generation the runtime read before the first call. */
  datatype Task = Task(request: bool, expected: nat, phase: Phase, attempts: seq<Attempt>, refreshed: bool)

  datatype Retry = RetryRefused | NoRetry | RetryWith

  /** What the upstream call came back with; `reason` says the error carries a failover reason. */
  datatype Answer =
    | Opened(supported: bool)
    | Unauthorized(reason: bool)
    | Hinted(retry: Retry, answered: bool, reason: bool)
    | Failure(answered: bool, reason: bool)

  datatype RefreshResult = Renewed | ReauthRequired | RefreshFailed

  function Latest(t: Task): (a: Attempt)
    requires t.attempts != []
  {
    t.attempts[|t.attempts| - 1]
  }

  function WithLatest(t: Task, a: Attempt, phase: Phase): (u: Task)
    requires t.attempts != []
  {
    t.(attempts := t.attempts[|t.attempts| - 1 := a], phase := phase)
  }

  /** The first attempt is reported and the request goes upstream once more. */
  function SecondCall(t: Task, tracked: bool, refreshed: bool): (u: Task)
    requires t.attempts != []
  {
    t.(attempts := t.attempts[|t.attempts| - 1 := Tell(Latest(t), Failed(true))] + [Opening(tracked)],
       phase := Calling, refreshed := refreshed)
  }

  /** The stream is handed to an observer, or reported at once when its format has none. */
  function StreamOpens(t: Task, supported: bool): (u: Task)
    requires t.attempts != []
  {
    if Latest(t).tracked && !supported then WithLatest(t, Tell(Latest(t), Finished), Streaming(false))
    else t.(phase := Streaming(Latest(t).tracked))
  }

  function AfterSend(t: Task, generation: nat): (u: Task)
    requires t.attempts != []
  {
    WithLatest(t, Latest(t).(sent := Some(generation)), t.phase)
  }

  function AfterFirstCall(t: Task, answer: Answer, tracked: bool): (u: Task)
    requires t.attempts != []
  {
    match answer
    case Opened(supported) => StreamOpens(t, supported)
    case Unauthorized(_) => t.(phase := AwaitGate)
    case Hinted(retry, _, _) =>
      if retry.RetryWith? then SecondCall(t, tracked, false) else WithLatest(t, Tell(Latest(t), Failed(true)), Done)
    case Failure(answered, reason) => WithLatest(t, Tell(Latest(t), FailureReport(answered, reason)), Done)
  }

  function AfterSecondCall(t: Task, answer: Answer): (u: Task)
    requires t.attempts != []
  {
    match answer
    case Opened(supported) => StreamOpens(t, supported)
    case Unauthorized(reason) => WithLatest(t, Tell(Latest(t), FailureReport(true, reason || t.refreshed)), Done)
    case Hinted(_, answered, reason) => WithLatest(t, Tell(Latest(t), FailureReport(answered, reason)), Done)
    case Failure(answered, reason) => WithLatest(t, Tell(Latest(t), FailureReport(answered, reason)), Done)
  }

  function AfterCall(t: Task, answer: Answer, tracked: bool): (u: Task) {
    if t.attempts == [] then t.(phase := if answer.Unauthorized? then AwaitGate else Done)
    else if |t.attempts| == 1 then AfterFirstCall(t, answer, tracked)
    else AfterSecondCall(t, answer)
  }

  function AfterRefresh(t: Task, result: RefreshResult, tracked: bool): (u: Task) {
    if t.attempts == [] then t.(phase := Done)
    else match result
      case Renewed => SecondCall(t, tracked, true)
      case ReauthRequired => WithLatest(t, Tell(Latest(t), FailedWithReason(true)), Done)
      case RefreshFailed => WithLatest(t, Tell(Latest(t), Failed(true)), Done)
  }

  /** A dropped future or stream. */
  function AfterDrop(t: Task): (u: Task) {
    if t.attempts == [] then t.(phase := Done)
    else match t.phase
      case Calling => WithLatest(t, Latest(t).(abandoned := true), Done)
      case AwaitGate => WithLatest(t, Tell(Latest(t), Failed(true)), Done)
      case Refreshing => WithLatest(t, Tell(Latest(t), Failed(true)), Done)
      case Streaming(observed) => if observed then WithLatest(t, Tell(Latest(t), Cancelled), Done) else t.(phase := Done)
      case Done => t
  }

  function AfterStream(t: Task): (u: Task)
    requires t.phase.Streaming?
  {
    if t.attempts != [] && t.phase.observed then WithLatest(t, Tell(Latest(t), Finished), Done) else t.(phase := Done)
  }

  // ----- All tasks of one entry -----

  /** `successes` lists, in order, the generation each successful refresh started from. */
  datatype World = World(generation: nat, gate: Option<TaskId>, successes: seq<nat>, tasks: map<TaskId, Task>)

  datatype Event =
    | Arrive(id: TaskId, request: bool, tracked: bool)
    | Send(id: TaskId)
    | Answered(id: TaskId, answer: Answer, tracked: bool)
    | TakeGate(id: TaskId, tracked: bool)
    | RefreshEnds(id: TaskId, result: RefreshResult, tracked: bool, generation: nat)
    | DropTask(id: TaskId, generation: nat)
    | StreamEnds(id: TaskId)
    | CredentialsChange(generation: nat)

  predicate InPhase(w: World, id: TaskId, phase: Phase) { id in w.tasks && w.tasks[id].phase == phase }

  /** The driver has read the credentials for the latest call. */
  predicate IsSent(t: Task) { t.attempts != [] && Latest(t).sent.Some? }

  /** When an event can happen. A request is refused or opened by the upstream only once its call was
      sent. The account promises that generations never go back and that a successful refresh moves
      to a new one. */
  predicate Possible(w: World, e: Event) {
    match e
    case Arrive(id, _, _) => id !in w.tasks
    case Send(id) => InPhase(w, id, Calling) && w.tasks[id].attempts != [] && !IsSent(w.tasks[id])
    case Answered(id, answer, _) =>
      InPhase(w, id, Calling) && (w.tasks[id].request && (answer.Unauthorized? || answer.Opened?) ==> IsSent(w.tasks[id]))
    case TakeGate(id, _) => InPhase(w, id, AwaitGate) && w.gate.None?
    case RefreshEnds(id, result, _, generation) =>
      && InPhase(w, id, Refreshing) && w.generation <= generation
      && (result.Renewed? ==> w.generation < generation)
    case DropTask(id, generation) => id in w.tasks && !w.tasks[id].phase.Done? && w.generation <= generation
    case StreamEnds(id) => id in w.tasks && w.tasks[id].phase.Streaming?
    case CredentialsChange(generation) => w.generation <= generation
  }

  function WithTask(w: World, id: TaskId, t: Task): (v: World) { w.(tasks := w.tasks[id := t]) }

  function Released(w: World, id: TaskId): (v: World) {
    if w.gate == Some(id) then w.(gate := None) else w
  }

  function Step(w: World, e: Event): (v: World) {
    if !Possible(w, e) then w
    else match e
      case Arrive(id, request, tracked) =>
        WithTask(w, id, Task(request, w.generation, Calling, if request then [Opening(tracked)] else [], false))
      case Send(id) => WithTask(w, id, AfterSend(w.tasks[id], w.generation))
      case Answered(id, answer, tracked) => WithTask(w, id, AfterCall(w.tasks[id], answer, tracked))
      case TakeGate(id, tracked) =>
        var t := w.tasks[id];
        if w.generation != t.expected then WithTask(w, id, AfterRefresh(t, Renewed, tracked))
        else WithTask(w.(gate := Some(id)), id, t.(phase := Refreshing))
      case RefreshEnds(id, result, tracked, generation) =>
        var t := w.tasks[id];
        var v := WithTask(Released(w, id), id, AfterRefresh(t, result, tracked));
        v.(generation := generation, successes := if result.Renewed? then w.successes + [t.expected] else w.successes)
      case DropTask(id, generation) =>
        WithTask(Released(w, id), id, AfterDrop(w.tasks[id])).(generation := generation)
      case StreamEnds(id) => WithTask(w, id, AfterStream(w.tasks[id]))
      case CredentialsChange(generation) => w.(generation := generation)
  }

  const START: World := World(0, None, [], map[])

  function Run(events: seq<Event>): (w: World) {
    if events == [] then START else Step(Run(events[..|events| - 1]), events[|events| - 1])
  }

  // ----- Single-flight refresh -----

  predicate Increasing(s: seq<nat>) { forall i, j :: 0 <= i < j < |s| ==> s[i] < s[j] }

  predicate AllBelow(s: seq<nat>, bound: nat) { forall i :: 0 <= i < |s| ==> s[i] < bound }

  /** The gate names the one task that is refreshing. */
  predicate GateNames(gate: Option<TaskId>, tasks: map<TaskId, Task>) {
    && (gate.Some? ==> gate.value in tasks && tasks[gate.value].phase.Refreshing?)
    && (forall id :: id in tasks && tasks[id].phase.Refreshing? ==> gate == Some(id))
  }

  /** Every recorded success started below the current generation, and below the generation the
      running refresh started from. */
  predicate SuccessesBelow(w: World) {
    && Increasing(w.successes) && AllBelow(w.successes, w.generation)
    && (w.gate.Some? && w.gate.value in w.tasks ==>
          AllBelow(w.successes, w.tasks[w.gate.value].expected) && w.tasks[w.gate.value].expected <= w.generation)
  }

  lemma {:induction false} CallNeverRefreshes(t: Task, answer: Answer, tracked: bool)
    ensures !AfterCall(t, answer, tracked).phase.Refreshing?
  {}

  lemma {:induction false} EndNeverRefreshes(t: Task, result: RefreshResult, tracked: bool)
    ensures !AfterRefresh(t, result, tracked).phase.Refreshing?
    ensures !AfterDrop(t).phase.Refreshing?
    ensures t.phase.Streaming? ==> !AfterStream(t).phase.Refreshing?
  {}

  lemma {:induction false} StepKeepsGate(w: World, e: Event)
    requires GateNames(w.gate, w.tasks)
    ensures GateNames(Step(w, e).gate, Step(w, e).tasks)
  {
    if Possible(w, e) {
      match e
      case Answered(id, answer, tracked) => CallNeverRefreshes(w.tasks[id], answer, tracked);
      case TakeGate(id, tracked) => EndNeverRefreshes(w.tasks[id], Renewed, tracked);
      case RefreshEnds(id, result, tracked, _) => EndNeverRefreshes(w.tasks[id], result, tracked);
      case DropTask(id, _) => EndNeverRefreshes(w.tasks[id], Renewed, false);
      case StreamEnds(id) => EndNeverRefreshes(w.tasks[id], Renewed, false);
      case _ =>
    }
  }

  lemma {:induction false} StepKeepsSuccesses(w: World, e: Event)
    requires GateNames(w.gate, w.tasks) && SuccessesBelow(w)
    ensures SuccessesBelow(Step(w, e))
  {
    if Possible(w, e) && w.gate.Some? && (e.Answered? || e.StreamEnds? || e.DropTask?) {
      assert e.id in w.tasks;
    }
  }

  lemma {:induction false} RunKeepsGate(events: seq<Event>)
    ensures GateNames(Run(events).gate, Run(events).tasks) && SuccessesBelow(Run(events))
  {
    if events != [] {
      RunKeepsGate(events[..|events| - 1]);
      StepKeepsGate(Run(events[..|events| - 1]), events[|events| - 1]);
      StepKeepsSuccesses(Run(events[..|events| - 1]), events[|events| - 1]);
    }
  }

  /** However 401s, timers, drops and credential changes race, at most one refresh succeeds per
      generation, and at most one task is refreshing at any time. */
  lemma {:induction false} OneRefreshPerGeneration(events: seq<Event>, i: nat, j: nat, a: TaskId, b: TaskId)
    ensures var w := Run(events);
            && (i < |w.successes| && j < |w.successes| && w.successes[i] == w.successes[j] ==> i == j)
            && (InPhase(w, a, Refreshing) && InPhase(w, b, Refreshing) ==> a == b)
  {
    RunKeepsGate(events);
  }

  // ----- Calls and reports -----

  /** Nothing reported yet, and the call not abandoned. */
  predicate Unreported(a: Attempt) { a.reports == [] && !a.abandoned }

  /** Exactly one report, unless nobody tracks the call. */
  predicate ReportedOnce(a: Attempt) { |a.reports| == (if a.tracked then 1 else 0) && !a.abandoned }

  predicate LatestOk(a: Attempt, phase: Phase) {
    match phase
    case Calling => Unreported(a)
    case AwaitGate => Unreported(a)
    case Refreshing => Unreported(a)
    case Streaming(observed) => if observed then a.tracked && Unreported(a) else ReportedOnce(a)
    case Done => ReportedOnce(a) || (a.abandoned && a.reports == [])
  }

  predicate TaskOk(t: Task) {
    if !t.request then t.attempts == []
    else
      && 1 <= |t.attempts| <= 2
      && (|t.attempts| == 2 ==> ReportedOnce(t.attempts[0]) && !t.phase.AwaitGate? && !t.phase.Refreshing?)
      && LatestOk(Latest(t), t.phase)
  }

  lemma {:induction false} CallKeepsTask(t: Task, answer: Answer, tracked: bool)
    requires TaskOk(t) && t.phase.Calling?
    ensures TaskOk(AfterCall(t, answer, tracked))
  {
    if |t.attempts| == 1 {
      FirstCallKeepsTask(t, answer, tracked);
    } else if |t.attempts| == 2 {
      SecondCallKeepsTask(t, answer);
    }
  }

  lemma {:induction false} FirstCallKeepsTask(t: Task, answer: Answer, tracked: bool)
    requires TaskOk(t) && t.phase.Calling? && |t.attempts| == 1
    ensures TaskOk(AfterFirstCall(t, answer, tracked))
  {}

  lemma {:induction false} SecondCallKeepsTask(t: Task, answer: Answer)
    requires TaskOk(t) && t.phase.Calling? && |t.attempts| == 2
    ensures TaskOk(AfterSecondCall(t, answer))
  {}

  lemma {:induction false} SendKeepsTask(t: Task, generation: nat)
    requires TaskOk(t) && t.phase.Calling? && t.attempts != []
    ensures TaskOk(AfterSend(t, generation))
    ensures Latest(AfterSend(t, generation)).abandoned == Latest(t).abandoned
  {}

  lemma {:induction false} RefreshKeepsTask(t: Task, result: RefreshResult, tracked: bool)
    requires TaskOk(t) && (t.phase.AwaitGate? || t.phase.Refreshing?)
    ensures TaskOk(AfterRefresh(t, result, tracked))
  {}

  lemma {:induction false} EndKeepsTask(t: Task)
    requires TaskOk(t)
    ensures TaskOk(AfterDrop(t))
    ensures t.phase.Streaming? ==> TaskOk(AfterStream(t))
  {}

  predicate AllTasksOk(tasks: map<TaskId, Task>) { forall id :: id in tasks ==> TaskOk(tasks[id]) }

  lemma {:induction false} StepKeepsTasks(w: World, e: Event)
    requires AllTasksOk(w.tasks)
    ensures AllTasksOk(Step(w, e).tasks)
  {
    if Possible(w, e) {
      match e
      case Arrive(_, _, _) =>
      case Send(id) => SendKeepsTask(w.tasks[id], w.generation);
      case Answered(id, answer, tracked) => CallKeepsTask(w.tasks[id], answer, tracked);
      case TakeGate(id, tracked) => RefreshKeepsTask(w.tasks[id], Renewed, tracked);
      case RefreshEnds(id, result, tracked, _) => RefreshKeepsTask(w.tasks[id], result, tracked);
      case DropTask(id, _) => EndKeepsTask(w.tasks[id]);
      case StreamEnds(id) => EndKeepsTask(w.tasks[id]);
      case CredentialsChange(_) =>
    }
  }

  lemma {:induction false} RunKeepsTasks(events: seq<Event>)
    ensures AllTasksOk(Run(events).tasks)
  {
    if events != [] {
      RunKeepsTasks(events[..|events| - 1]);
      StepKeepsTasks(Run(events[..|events| - 1]), events[|events| - 1]);
    }
  }

  /** The request was dropped while one of its upstream calls was in flight. */
  predicate DroppedInCall(events: seq<Event>, id: TaskId) {
    events != [] &&
    (DroppedInCall(events[..|events| - 1], id) || DropsInCall(Run(events[..|events| - 1]), events[|events| - 1], id))
  }

  predicate DropsInCall(w: World, e: Event, id: TaskId) {
    e.DropTask? && e.id == id && Possible(w, e) && InPhase(w, id, Calling)
  }

  /** Only a drop during a call abandons an attempt. */
  lemma {:induction false} CallAbandonsNothing(t: Task, answer: Answer, tracked: bool)
    requires TaskOk(t) && t.request && t.phase.Calling?
    ensures var u := AfterCall(t, answer, tracked); u.request && u.attempts != [] && !Latest(u).abandoned
  {}

  lemma {:induction false} RefreshAbandonsNothing(t: Task, result: RefreshResult, tracked: bool)
    requires TaskOk(t) && t.request && (t.phase.AwaitGate? || t.phase.Refreshing?)
    ensures var u := AfterRefresh(t, result, tracked); u.request && u.attempts != [] && !Latest(u).abandoned
  {}

  lemma {:induction false} EndAbandons(t: Task)
    requires TaskOk(t) && t.request && !t.phase.Done?
    ensures var u := AfterDrop(t); u.request && u.attempts != [] && (Latest(u).abandoned <==> t.phase.Calling?)
    ensures t.phase.Streaming? ==> var u := AfterStream(t); u.request && u.attempts != [] && !Latest(u).abandoned
  {}

  lemma {:induction false} OwnStepAbandons(w: World, e: Event, id: TaskId)
    requires Possible(w, e) && !e.CredentialsChange? && e.id == id && id in w.tasks && w.tasks[id].request && TaskOk(w.tasks[id])
    ensures id in Step(w, e).tasks
    ensures var u := Step(w, e).tasks[id];
            u.request && u.attempts != [] && (Latest(u).abandoned <==> e.DropTask? && w.tasks[id].phase.Calling?)
  {
    match e
    case Send(_) => SendKeepsTask(w.tasks[id], w.generation);
    case Answered(_, answer, tracked) => CallAbandonsNothing(w.tasks[id], answer, tracked);
    case TakeGate(_, tracked) => RefreshAbandonsNothing(w.tasks[id], Renewed, tracked);
    case RefreshEnds(_, result, tracked, _) => RefreshAbandonsNothing(w.tasks[id], result, tracked);
    case DropTask(_, _) => EndAbandons(w.tasks[id]);
    case StreamEnds(_) => EndAbandons(w.tasks[id]);
  }

  lemma {:induction false} StepAbandons(w: World, e: Event, id: TaskId)
    requires id in w.tasks && w.tasks[id].request && TaskOk(w.tasks[id])
    ensures var v := Step(w, e);
            && id in v.tasks && v.tasks[id].request && v.tasks[id].attempts != []
            && (Latest(v.tasks[id]).abandoned <==> Latest(w.tasks[id]).abandoned || DropsInCall(w, e, id))
  {
    if Possible(w, e) && !e.CredentialsChange? && e.id == id {
      OwnStepAbandons(w, e, id);
    }
  }

  lemma {:induction false} AbandonedIffDroppedInCall(events: seq<Event>, id: TaskId)
    ensures var w := Run(events);
            && (DroppedInCall(events, id) ==> id in w.tasks)
            && (id in w.tasks && w.tasks[id].request ==>
                  w.tasks[id].attempts != [] && (Latest(w.tasks[id]).abandoned <==> DroppedInCall(events, id)))
  {
    if events != [] {
      var before, e := Run(events[..|events| - 1]), events[|events| - 1];
      AbandonedIffDroppedInCall(events[..|events| - 1], id);
      RunKeepsTasks(events[..|events| - 1]);
      if id !in before.tasks {
        ArrivesUnabandoned(before, e, id);
      } else if before.tasks[id].request {
        StepAbandons(before, e, id);
      } else {
        StepKeepsKind(before, e, id);
      }
    }
  }

  lemma {:induction false} ArrivesUnabandoned(w: World, e: Event, id: TaskId)
    requires id !in w.tasks
    ensures !DropsInCall(w, e, id)
    ensures id in Step(w, e).tasks && Step(w, e).tasks[id].request ==>
              Step(w, e).tasks[id].attempts != [] && !Latest(Step(w, e).tasks[id]).abandoned
  {}

  lemma {:induction false} StepKeepsKind(w: World, e: Event, id: TaskId)
    requires id in w.tasks && !w.tasks[id].request
    ensures id in Step(w, e).tasks && !Step(w, e).tasks[id].request
  {}

  /** In every run a request makes at most two upstream calls, and no attempt is reported twice.
      Once the request is over, each tracked attempt was reported exactly once, unless it is the
      latest one and the request was dropped inside its upstream await: then never. */
  lemma {:induction false} EachAttemptReportedOnce(events: seq<Event>, id: TaskId, k: nat)
    requires id in Run(events).tasks && Run(events).tasks[id].request
    ensures var t := Run(events).tasks[id];
            && 1 <= |t.attempts| <= 2
            && (k < |t.attempts| ==> |t.attempts[k].reports| <= 1)
            && (k < |t.attempts| && t.attempts[k].tracked && t.phase.Done? ==>
                  (|t.attempts[k].reports| == 1 <==> !(k == |t.attempts| - 1 && DroppedInCall(events, id))))
  {
    RunKeepsTasks(events);
    AbandonedIffDroppedInCall(events, id);
  }

  // ----- The credentials of a retry -----

  /** What a step of a task leaves alone: the generation it read, and what its calls were sent with. */
  ghost predicate KeepsSent(t: Task, u: Task) {
    && u.request == t.request && u.expected == t.expected && |t.attempts| <= |u.attempts|
    && (forall i :: 0 <= i < |t.attempts| ==> u.attempts[i].sent == t.attempts[i].sent)
    && (forall i :: |t.attempts| <= i < |u.attempts| ==> u.attempts[i].sent.None?)
  }

  lemma {:induction false} CallKeepsSent(t: Task, answer: Answer, tracked: bool)
    ensures KeepsSent(t, AfterCall(t, answer, tracked))
    ensures AfterCall(t, answer, tracked).refreshed ==> t.refreshed
  {
    if |t.attempts| == 1 {
      FirstCallKeepsSent(t, answer, tracked);
    }
  }

  lemma {:induction false} FirstCallKeepsSent(t: Task, answer: Answer, tracked: bool)
    requires t.attempts != []
    ensures KeepsSent(t, AfterFirstCall(t, answer, tracked)) && (AfterFirstCall(t, answer, tracked).refreshed ==> t.refreshed)
  {}

  lemma {:induction false} RefreshKeepsSent(t: Task, result: RefreshResult, tracked: bool)
    ensures KeepsSent(t, AfterRefresh(t, result, tracked))
    ensures var u := AfterRefresh(t, result, tracked);
            (u.refreshed ==> t.refreshed || (result.Renewed? && t.attempts != [])) && (u.phase.Calling? || u.phase.Done? || t.attempts == [])
  {}

  lemma {:induction false} EndKeepsSent(t: Task)
    ensures KeepsSent(t, AfterDrop(t)) && AfterDrop(t).refreshed == t.refreshed
    ensures t.phase.Streaming? ==> KeepsSent(t, AfterStream(t)) && AfterStream(t).refreshed == t.refreshed
  {}

  /** The first call of a request is sent under the generation read before it or a later one, and
      the second under no earlier one. A request waits for a refresh only after a sent call. If it
      retries after a refresh, the generation it read is past. */
  predicate SentOk(t: Task, generation: nat) {
    && t.expected <= generation
    && (t.attempts != [] && t.attempts[0].sent.Some? ==> t.expected <= t.attempts[0].sent.value <= generation)
    && (|t.attempts| == 2 && t.attempts[1].sent.Some? ==> t.expected <= t.attempts[1].sent.value <= generation)
    && (|t.attempts| == 2 && t.attempts[0].sent.Some? && t.attempts[1].sent.Some? ==> t.attempts[0].sent.value <= t.attempts[1].sent.value)
    && (t.request && (t.phase.AwaitGate? || t.phase.Refreshing?) ==> IsSent(t))
    && (t.refreshed && t.request ==>
          |t.attempts| == 2 && t.attempts[0].sent.Some? && t.expected < generation &&
          (t.attempts[1].sent.Some? ==> t.expected < t.attempts[1].sent.value))
  }

  lemma {:induction false} LaterSentOk(t: Task, generation: nat, later: nat)
    requires SentOk(t, generation) && generation <= later
    ensures SentOk(t, later)
  {}

  lemma {:induction false} SendKeepsSentOk(t: Task, generation: nat)
    requires SentOk(t, generation) && TaskOk(t) && t.phase.Calling? && t.attempts != [] && !IsSent(t)
    ensures SentOk(AfterSend(t, generation), generation)
  {}

  lemma {:induction false} CallKeepsSentOk(t: Task, answer: Answer, tracked: bool, generation: nat)
    requires SentOk(t, generation) && TaskOk(t) && t.phase.Calling? && (t.request && answer.Unauthorized? ==> IsSent(t))
    ensures SentOk(AfterCall(t, answer, tracked), generation)
  {
    CallKeepsSent(t, answer, tracked);
  }

  lemma {:induction false} RefreshKeepsSentOk(t: Task, result: RefreshResult, tracked: bool, generation: nat)
    requires SentOk(t, generation) && TaskOk(t) && (t.phase.AwaitGate? || t.phase.Refreshing?)
    requires result.Renewed? ==> t.expected < generation
    ensures SentOk(AfterRefresh(t, result, tracked), generation)
  {
    RefreshKeepsSent(t, result, tracked);
  }

  lemma {:induction false} EndKeepsSentOk(t: Task, generation: nat)
    requires SentOk(t, generation) && TaskOk(t)
    ensures SentOk(AfterDrop(t), generation)
    ensures t.phase.Streaming? ==> SentOk(AfterStream(t), generation)
  {
    EndKeepsSent(t);
  }

  lemma {:induction false} StepKeepsSentOk(w: World, e: Event, id: TaskId)
    requires id in w.tasks && SentOk(w.tasks[id], w.generation) && TaskOk(w.tasks[id])
    ensures id in Step(w, e).tasks && SentOk(Step(w, e).tasks[id], Step(w, e).generation)
  {
    var t, later := w.tasks[id], Step(w, e).generation;
    LaterSentOk(t, w.generation, later);
    if Possible(w, e) && !e.CredentialsChange? && e.id == id {
      match e
      case Send(_) => SendKeepsSentOk(t, later);
      case Answered(_, answer, tracked) => CallKeepsSentOk(t, answer, tracked, later);
      case TakeGate(_, tracked) =>
        if later != t.expected {
          RefreshKeepsSentOk(t, Renewed, tracked, later);
        }
      case RefreshEnds(_, result, tracked, _) => RefreshKeepsSentOk(t, result, tracked, later);
      case DropTask(_, _) => EndKeepsSentOk(t, later);
      case StreamEnds(_) => EndKeepsSentOk(t, later);
    }
  }

  lemma {:induction false} RunKeepsSentOk(events: seq<Event>, id: TaskId)
    ensures id in Run(events).tasks ==> SentOk(Run(events).tasks[id], Run(events).generation)
  {
    if events != [] {
      var before, e := Run(events[..|events| - 1]), events[|events| - 1];
      RunKeepsSentOk(events[..|events| - 1], id);
      RunKeepsTasks(events[..|events| - 1]);
      if id in before.tasks {
        StepKeepsSentOk(before, e, id);
      }
    }
  }

  predicate FirstSent(t: Task) { t.attempts != [] && t.attempts[0].sent.Some? }

  predicate SecondSent(t: Task) { |t.attempts| == 2 && t.attempts[1].sent.Some? }

  /** The credentials changed after the runtime read their generation for the request and before
      its first call was sent. */
  predicate ChangedBeforeSend(events: seq<Event>, id: TaskId) {
    events != [] &&
    (ChangedBeforeSend(events[..|events| - 1], id) ||
     var w := Run(events[..|events| - 1]);
     id in w.tasks && !FirstSent(w.tasks[id]) && Step(w, events[|events| - 1]).generation != w.generation)
  }

  /** They changed after its first call was sent and before its second was. */
  predicate ChangedSinceSend(events: seq<Event>, id: TaskId) {
    events != [] &&
    (ChangedSinceSend(events[..|events| - 1], id) ||
     var w := Run(events[..|events| - 1]);
     id in w.tasks && FirstSent(w.tasks[id]) && !SecondSent(w.tasks[id]) && Step(w, events[|events| - 1]).generation != w.generation)
  }

  /** What the two changes say about the generations the calls were sent with. */
  predicate Dated(t: Task, generation: nat, early: bool, late: bool) {
    && (!FirstSent(t) ==> (generation != t.expected <==> early) && !late)
    && (FirstSent(t) ==> (t.attempts[0].sent.value != t.expected <==> early))
    && (FirstSent(t) && !SecondSent(t) ==> (generation != t.attempts[0].sent.value <==> late))
    && (FirstSent(t) && SecondSent(t) ==> (t.attempts[1].sent.value != t.attempts[0].sent.value <==> late))
  }

  lemma {:induction false} LaterDated(t: Task, generation: nat, later: nat, early: bool, late: bool)
    requires SentOk(t, generation) && generation <= later && Dated(t, generation, early, late)
    ensures Dated(t, later, early || (!FirstSent(t) && later != generation), late || (FirstSent(t) && !SecondSent(t) && later != generation))
  {}

  lemma {:induction false} KeepsSentDated(t: Task, u: Task, generation: nat, early: bool, late: bool)
    requires KeepsSent(t, u) && |u.attempts| <= 2 && Dated(t, generation, early, late)
    ensures Dated(u, generation, early, late)
  {}

  lemma {:induction false} SendDated(t: Task, generation: nat, early: bool, late: bool)
    requires TaskOk(t) && t.attempts != [] && !IsSent(t) && Dated(t, generation, early, late)
    ensures Dated(AfterSend(t, generation), generation, early, late)
  {}

  lemma {:induction false} StepKeepsSent(w: World, e: Event, id: TaskId)
    requires id in w.tasks && TaskOk(w.tasks[id])
    ensures var v := Step(w, e); id in v.tasks && w.generation <= v.generation
    ensures !(e == Send(id) && Possible(w, e)) ==> KeepsSent(w.tasks[id], Step(w, e).tasks[id])
  {
    var t := w.tasks[id];
    if Possible(w, e) && !e.CredentialsChange? && e.id == id {
      match e
      case Send(_) =>
      case Answered(_, answer, tracked) => CallKeepsSent(t, answer, tracked);
      case TakeGate(_, tracked) => RefreshKeepsSent(t, Renewed, tracked);
      case RefreshEnds(_, result, tracked, _) => RefreshKeepsSent(t, result, tracked);
      case DropTask(_, _) => EndKeepsSent(t);
      case StreamEnds(_) => EndKeepsSent(t);
    }
  }

  lemma {:induction false} StepDated(w: World, e: Event, id: TaskId, early: bool, late: bool)
    requires AllTasksOk(w.tasks) && id in w.tasks && SentOk(w.tasks[id], w.generation) && Dated(w.tasks[id], w.generation, early, late)
    ensures var v, t := Step(w, e), w.tasks[id];
            id in v.tasks && Dated(v.tasks[id], v.generation, early || (!FirstSent(t) && v.generation != w.generation),
                                   late || (FirstSent(t) && !SecondSent(t) && v.generation != w.generation))
  {
    var v, t := Step(w, e), w.tasks[id];
    StepKeepsSent(w, e, id);
    if e == Send(id) && Possible(w, e) {
      SendDated(t, w.generation, early, late);
    } else {
      StepKeepsTasks(w, e);
      LaterDated(t, w.generation, v.generation, early, late);
      KeepsSentDated(t, v.tasks[id], v.generation, early || (!FirstSent(t) && v.generation != w.generation),
                     late || (FirstSent(t) && !SecondSent(t) && v.generation != w.generation));
    }
  }

  lemma {:induction false} RunDated(events: seq<Event>, id: TaskId)
    ensures var w := Run(events);
            if id in w.tasks then Dated(w.tasks[id], w.generation, ChangedBeforeSend(events, id), ChangedSinceSend(events, id))
            else !ChangedBeforeSend(events, id) && !ChangedSinceSend(events, id)
  {
    if events != [] {
      var before, w, e := events[..|events| - 1], Run(events[..|events| - 1]), events[|events| - 1];
      RunDated(before, id);
      RunKeepsTasks(before);
      RunKeepsSentOk(before, id);
      if id in w.tasks {
        StepDated(w, e, id, ChangedBeforeSend(before, id), ChangedSinceSend(before, id));
      }
    }
  }

  /** In every run, a request that goes upstream again after a 401 is sent under a newer generation
      than the runtime read before its first call, whoever refreshed it. But it is sent under the
      very credentials that were refused exactly when these came in between that reading and the
      first call, so that the refresh was skipped, and nothing changed them until the second. */
  lemma {:induction false} RetryRepeatsIff(events: seq<Event>, id: TaskId)
    requires id in Run(events).tasks
    requires var t := Run(events).tasks[id]; t.request && t.refreshed && SecondSent(t)
    ensures var t := Run(events).tasks[id];
            && FirstSent(t) && t.expected < t.attempts[1].sent.value
            && t.expected <= t.attempts[0].sent.value <= t.attempts[1].sent.value
            && (t.attempts[0].sent.value == t.attempts[1].sent.value <==>
                  ChangedBeforeSend(events, id) && !ChangedSinceSend(events, id))
  {
    RunKeepsSentOk(events, id);
    RunDated(events, id);
  }

  /** The credentials change after the runtime read their generation, the call is refused under the
      new ones, and the retry goes out under the same. */
  function RefusedTwice(): (events: seq<Event>) {
    [Arrive(0, true, true)] + [CredentialsChange(1)] + [Send(0)] + [Answered(0, Unauthorized(false), true)] + [TakeGate(0, true)] + [Send(0)]
  }

  /** A world without refreshes whose task 0 is as given. */
  predicate Alone(w: World, generation: nat, t: Task) {
    w.generation == generation && w.gate.None? && w.successes == [] && 0 in w.tasks && w.tasks[0] == t
  }

  lemma {:induction false} RetryUnderRefusedCredentials()
    ensures var w := Run(RefusedTwice());
            && 0 in w.tasks && w.tasks[0].refreshed && w.successes == []
            && w.tasks[0].attempts == [Attempt(true, [Failed(true)], false, Some(1)), Attempt(true, [], false, Some(1))]
  {
    var first := Attempt(true, [], false, Some(1));
    var e1 := [Arrive(0, true, true)];
    var e2 := e1 + [CredentialsChange(1)];
    var e3 := e2 + [Send(0)];
    var e4 := e3 + [Answered(0, Unauthorized(false), true)];
    var e5 := e4 + [TakeGate(0, true)];
    var calling := Task(true, 0, Calling, [Opening(true)], false);
    var sent := Task(true, 0, Calling, [first], false);
    var again := Task(true, 0, Calling, [Tell(first, Failed(true)), Opening(true)], true);
    assert Alone(Run(e1), 0, calling) by { assert e1[..0] == []; }
    RunPush(e1, CredentialsChange(1));
    RunPush(e2, Send(0));
    assert Alone(Run(e3), 1, sent) by { assert AfterSend(calling, 1).attempts == [first]; }
    RunPush(e3, Answered(0, Unauthorized(false), true));
    RunPush(e4, TakeGate(0, true));
    assert Alone(Run(e5), 1, again) by { assert SecondCall(sent.(phase := AwaitGate), true, true).attempts == again.attempts; }
    RunPush(e5, Send(0));
    assert Tell(first, Failed(true)).reports == [Failed(true)];
  }

  lemma {:induction false} RunPush(events: seq<Event>, e: Event)
    ensures Run(events + [e]) == Step(Run(events), e)
  {
    assert (events + [e])[..|events|] == events;
  }

  /** A request dropped inside its upstream call leaves its attempt without any report. */
  lemma {:induction false} DroppedCallIsNeverReported()
    ensures var w := Run([Arrive(0, true, true), DropTask(0, 0)]);
            0 in w.tasks && w.tasks[0].phase.Done? && w.tasks[0].attempts == [Attempt(true, [], true, None)]
  {
    var events := [Arrive(0, true, true), DropTask(0, 0)];
    assert events[..1] == [Arrive(0, true, true)] && events[..1][..0] == [];
    assert Run(events[..1]).tasks == map[0 := Task(true, 0, Calling, [Opening(true)], false)];
  }
}
