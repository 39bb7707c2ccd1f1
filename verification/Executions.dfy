/**
 The active executions of one process as a state machine.

 Every `await` of `ActiveExecutions.add` cuts it into steps: the call itself, the return of
 `createNewExecution`, the registration, and later the settle callback of the record's post-execution
 promise. The steps of different calls, the other methods, and the removals from the concurrency queue
 interleave freely. Records have an identity of their own, their position in `recs`, because an entry of
 the map can be replaced while the callback of an earlier record is still pending.
 */
module Executions {
  import opened Prelude
  import opened ConcurrencyQueues
  import opened ConcurrencyControl

  datatype Status = New | Running | Waiting | Success | Error | Canceled | Crashed | Unknown

  /** The post-execution promise of a record: the first settlement wins. */
  datatype Promise = Pending | Resolved(run: Option<nat>) | Cancelled

  /** `workflowExecution` and `responsePromise` are references, given as numbers. */
  datatype Rec = Rec(
    executionId: string,
    mode: Mode,
    call: nat,
    startedAt: nat,
    status: Status,
    responsePromise: Option<nat>,
    workflowExecution: Option<nat>,
    promise: Promise,
    callbackRan: bool)

  /**
   Where a call of `add` stands: waiting for the id of its new execution, queued, past the throttle,
   registered, its slot released by the settle callback, failed with an exception, or removed from the
   queue, which leaves it pending forever.
   */
  datatype Phase = Creating | Queued | Admitted | Registered | Released | Failed(afterThrottle: bool) | Dropped

  datatype AddCall = AddCall(mode: Mode, executionId: string, resuming: bool, phase: Phase)

  /** How a response promise was settled. */
  datatype Answer = Answered(value: nat) | EmptyAnswer | Refused

  datatype State = State(
    regular: bool,
    control: Control,
    adds: seq<AddCall>,
    recs: seq<Rec>,
    active: map<string, nat>,
    answers: map<nat, Answer>,
    cancelledRuns: set<nat>)

  datatype Event =
    | Begin(mode: Mode, executionId: Option<string>)
    | Created(call: nat, newId: string)
    | CreationFails(call: nat)
    | UpdateFails(call: nat)
    | Register(call: nat, now: nat)
    | Settle(rec: nat)
    | Stop(id: string)
    | Finalize(id: string, run: Option<nat>)
    | SetStatus(id: string, status: Status)
    | AttachWorkflowExecution(id: string, workflowExecution: nat)
    | AttachResponsePromise(id: string, responsePromise: nat)
    | ResolveResponsePromise(id: string, answer: nat)
    | ResolveExecutionResponsePromise(id: string)
    | RemoveQueued(mode: Mode, id: string)
    | Shutdown(cancelAll: bool)

  function Start(regular: bool, control: Control): State {
    State(regular, control, [], [], map[], map[], {})
  }

  // ---------- Parts of a step ----------

  function SettleOnce(p: Promise, outcome: Promise): Promise {
    if p == Pending then outcome else p
  }

  function AnswerOnce(answers: map<nat, Answer>, p: Option<nat>, a: Answer): map<nat, Answer> {
    if p.Some? && p.value !in answers then answers[p.value := a] else answers
  }

  function Relabel(adds: seq<AddCall>, t: nat, phase: Phase): seq<AddCall> {
    if t < |adds| then adds[t := adds[t].(phase := phase)] else adds
  }

  function RelabelAll(adds: seq<AddCall>, ws: seq<Waiter>, phase: Phase): seq<AddCall>
    decreases |ws|
  {
    if ws == [] then adds else RelabelAll(Relabel(adds, ws[0].ticket, phase), ws[1..], phase)
  }

  /** Rejects those of the promises that are not settled yet. */
  function Refuse(answers: map<nat, Answer>, ps: set<nat>): map<nat, Answer> {
    answers + map p | p in ps && p !in answers :: Refused
  }

  /** The record an id stands for. */
  function Find(s: State, id: string): Option<nat> {
    if id in s.active && s.active[id] < |s.recs| then Some(s.active[id]) else None
  }

  /** `r` is the record its id stands for. */
  predicate Current(s: State, r: nat) {
    r < |s.recs| && Find(s, s.recs[r].executionId) == Some(r)
  }

  function Throttled(s: State, t: nat): State
    requires t < |s.adds|
  {
    var c := s.adds[t];
    var e := ThrottleEffect(s.control, c.mode, Waiter(c.executionId, t));
    s.(control := e.control, adds := RelabelAll(Relabel(s.adds, t, Queued), e.admitted, Admitted))
  }

  /** `createNewExecution` returned: an empty id fails an assertion; only regular mode throttles. */
  function AfterCreation(s: State, t: nat, id: string): State
    requires t < |s.adds|
  {
    var named := s.(adds := s.adds[t := s.adds[t].(executionId := id)]);
    if id == "" then named.(adds := Relabel(named.adds, t, Failed(false)))
    else if s.regular then Throttled(named, t)
    else named.(adds := Relabel(named.adds, t, Admitted))
  }

  function NewRec(s: State, t: nat, now: nat): Rec
    requires t < |s.adds|
  {
    var c := s.adds[t];
    var resumed := Find(s, c.executionId);
    Rec(c.executionId, c.mode, t,
        if resumed.Some? then s.recs[resumed.value].startedAt else now,
        if c.resuming && c.executionId == "" then New else Running,
        if resumed.Some? then s.recs[resumed.value].responsePromise else None,
        None, Pending, false)
  }

  function Registration(s: State, t: nat, now: nat): State
    requires t < |s.adds|
  {
    s.(adds := Relabel(s.adds, t, Registered),
       recs := s.recs + [NewRec(s, t, now)],
       active := s.active[s.adds[t].executionId := |s.recs|])
  }

  function AfterCallback(rec: Rec): Rec {
    if rec.status == Waiting then rec.(workflowExecution := None, callbackRan := true) else rec.(callbackRan := true)
  }

  /** The settle callback: releases a slot of its mode; unless waiting, deletes the entry of its id. */
  function Callback(s: State, r: nat): State
    requires r < |s.recs|
  {
    var rec := s.recs[r];
    var e := ReleaseEffect(s.control, rec.mode);
    s.(control := e.control,
       adds := RelabelAll(Relabel(s.adds, rec.call, Released), e.admitted, Admitted),
       recs := s.recs[r := AfterCallback(rec)],
       active := if rec.status == Waiting then s.active else s.active - {rec.executionId})
  }

  function Stopped(s: State, id: string): State {
    var found := Find(s, id);
    if found.None? then s
    else
      var rec := s.recs[found.value];
      var answers := AnswerOnce(s.answers, rec.responsePromise, Refused);
      if rec.status == Waiting then s.(answers := answers, active := s.active - {id})
      else
        s.(answers := answers,
           cancelledRuns := s.cancelledRuns + OptionSet(rec.workflowExecution),
           recs := s.recs[found.value := rec.(promise := SettleOnce(rec.promise, Cancelled))])
  }

  function OptionSet(o: Option<nat>): set<nat> {
    if o.Some? then {o.value} else {}
  }

  /** What the plain updates do to the record of their id. */
  function Edit(rec: Rec, e: Event): Rec {
    match e
    case Finalize(_, run) => rec.(promise := SettleOnce(rec.promise, Resolved(run)))
    case SetStatus(_, status) => rec.(status := status)
    case AttachWorkflowExecution(_, w) => rec.(workflowExecution := Some(w))
    case AttachResponsePromise(_, p) => rec.(responsePromise := Some(p))
    case _ => rec
  }

  /** An update of an absent entry changes nothing; all but `Finalize` throw. */
  function Edited(s: State, id: string, e: Event): State {
    var found := Find(s, id);
    if found.None? then s else s.(recs := s.recs[found.value := Edit(s.recs[found.value], e)])
  }

  /** Answers the response promise of the entry, if there are both. */
  function Responded(s: State, id: string, a: Answer): State {
    var found := Find(s, id);
    if found.None? then s
    else s.(answers := AnswerOnce(s.answers, s.recs[found.value].responsePromise, a))
  }

  predicate IsWaiting(s: State, id: string) {
    var found := Find(s, id);
    found.Some? && s.recs[found.value].status == Waiting
  }

  function Removal(s: State, mode: Mode, id: string): State {
    var e := RemoveEffectFor(s.control, mode, id);
    s.(control := e.control, adds := RelabelAll(RelabelAll(s.adds, e.dropped, Dropped), e.admitted, Admitted))
  }

  // ---------- The shutdown sweep, as what it does to each entry ----------

  /** The entries the sweep stops. */
  predicate Doomed(s: State, cancelAll: bool, id: string) {
    var found := Find(s, id);
    found.Some? && (s.recs[found.value].responsePromise.Some? || (s.regular && cancelAll))
  }

  /** The entries still in the map after the sweep. */
  predicate Survives(s: State, cancelAll: bool, id: string) {
    var found := Find(s, id);
    && found.Some?
    && s.recs[found.value].status != Waiting
    && (s.recs[found.value].status == New ==> Doomed(s, cancelAll, id))
  }

  function SweptRec(s: State, cancelAll: bool, r: nat): Rec
    requires r < |s.recs|
  {
    var rec := s.recs[r];
    if Current(s, r) && Doomed(s, cancelAll, rec.executionId) && rec.status != Waiting
    then rec.(promise := SettleOnce(rec.promise, Cancelled))
    else rec
  }

  /** The response promises of the visited entries that are rejected. */
  function RefusedAt(s: State, cancelAll: bool, done: set<string>): set<nat> {
    set id | id in s.active && id in done && Doomed(s, cancelAll, id) && s.recs[s.active[id]].responsePromise.Some?
      :: s.recs[s.active[id]].responsePromise.value
  }

  /** The workflow executions of the visited entries that are cancelled. */
  function CancelledAt(s: State, cancelAll: bool, done: set<string>): set<nat> {
    set id | id in s.active && id in done && Doomed(s, cancelAll, id) && Survives(s, cancelAll, id)
             && s.recs[s.active[id]].workflowExecution.Some?
      :: s.recs[s.active[id]].workflowExecution.value
  }

  /** The visited entries that the sweep removes. */
  function Gone(s: State, cancelAll: bool, done: set<string>): set<string> {
    set id | id in s.active && id in done && !Survives(s, cancelAll, id)
  }

  function ToCancel(s: State, cancelAll: bool): set<string> {
    set id | id in s.active && Doomed(s, cancelAll, id)
  }

  function SweptRecs(s: State, cancelAll: bool, done: set<string>): (recs: seq<Rec>)
    ensures |recs| == |s.recs|
  {
    seq(|s.recs|, r requires 0 <= r < |s.recs| =>
      if s.recs[r].executionId in done then SweptRec(s, cancelAll, r) else s.recs[r])
  }

  /** The state once the entries in `done` have been visited. */
  function SweptAt(s: State, cancelAll: bool, done: set<string>): State {
    s.(recs := SweptRecs(s, cancelAll, done),
       active := s.active - Gone(s, cancelAll, done),
       answers := Refuse(s.answers, RefusedAt(s, cancelAll, done)),
       cancelledRuns := s.cancelledRuns + CancelledAt(s, cancelAll, done))
  }

  function Swept(s: State, cancelAll: bool): State {
    SweptAt(s, cancelAll, s.active.Keys)
  }

  function ConcurrencyOff(s: State): State {
    if s.regular then s.(control := Disable(s.control)) else s
  }

  function Emptied(s: State, toCancel: set<string>): State {
    var e := RemoveAllEffect(s.control, toCancel);
    s.(control := e.control, adds := RelabelAll(RelabelAll(s.adds, e.dropped, Dropped), e.admitted, Admitted))
  }

  /** Shutdown up to its waiting loop: in regular mode the concurrency service is turned off first. */
  function AfterShutdown(s: State, cancelAll: bool): State {
    Emptied(Swept(ConcurrencyOff(s), cancelAll), ToCancel(s, cancelAll))
  }

  // ---------- Steps and runs ----------

  /** When a step can happen; the methods can be called at any time. */
  predicate Enabled(s: State, e: Event) {
    match e
    case Created(t, _) => t < |s.adds| && s.adds[t].phase == Creating
    case CreationFails(t) => t < |s.adds| && s.adds[t].phase == Creating
    case UpdateFails(t) => t < |s.adds| && s.adds[t].phase == Admitted && (s.regular || s.adds[t].resuming)
    case Register(t, _) => t < |s.adds| && s.adds[t].phase == Admitted
    case Settle(r) => r < |s.recs| && s.recs[r].promise != Pending && !s.recs[r].callbackRan
    case _ => true
  }

  function Next(s: State, e: Event): State
    requires Enabled(s, e)
  {
    match e
    case Begin(mode, None) => s.(adds := s.adds + [AddCall(mode, "", false, Creating)])
    case Begin(mode, Some(id)) => Throttled(s.(adds := s.adds + [AddCall(mode, id, true, Creating)]), |s.adds|)
    case Created(t, id) => AfterCreation(s, t, id)
    case CreationFails(t) => s.(adds := Relabel(s.adds, t, Failed(false)))
    case UpdateFails(t) => s.(adds := Relabel(s.adds, t, Failed(true)))
    case Register(t, now) => Registration(s, t, now)
    case Settle(r) => Callback(s, r)
    case Stop(id) => Stopped(s, id)
    case Finalize(id, _) => Edited(s, id, e)
    case SetStatus(id, _) => Edited(s, id, e)
    case AttachWorkflowExecution(id, _) => Edited(s, id, e)
    case AttachResponsePromise(id, _) => Edited(s, id, e)
    case ResolveResponsePromise(id, a) => Responded(s, id, Answered(a))
    case ResolveExecutionResponsePromise(id) => if IsWaiting(s, id) then s else Responded(s, id, EmptyAnswer)
    case RemoveQueued(mode, id) => Removal(s, mode, id)
    case Shutdown(cancelAll) => AfterShutdown(s, cancelAll)
  }

  ghost predicate Legal(s: State, es: seq<Event>)
    decreases |es|
  {
    es == [] || (Enabled(s, es[0]) && Legal(Next(s, es[0]), es[1..]))
  }

  ghost function Run(s: State, es: seq<Event>): State
    requires Legal(s, es)
    decreases |es|
  {
    if es == [] then s else Run(Next(s, es[0]), es[1..])
  }

  lemma {:induction false} RunAppend(s: State, es: seq<Event>, fs: seq<Event>)
    requires Legal(s, es) && Legal(Run(s, es), fs)
    ensures Legal(s, es + fs) && Run(s, es + fs) == Run(Run(s, es), fs)
    decreases |es|
  {
    if es == [] {
      assert es + fs == fs;
    } else {
      assert (es + fs)[1..] == es[1..] + fs;
      RunAppend(Next(s, es[0]), es[1..], fs);
    }
  }

  lemma RunStep(s: State, es: seq<Event>, e: Event)
    requires Enabled(s, e) && Legal(Next(s, e), es)
    ensures Legal(s, [e] + es) && Run(s, [e] + es) == Run(Next(s, e), es)
  {
    assert ([e] + es)[1..] == es;
  }
}
