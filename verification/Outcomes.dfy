/**
 What each operation leaves behind, field by field, and for how long: what a resumed execution starts with, what
 the waiters of a finished one get, what a callback forgets, what is answered, refused and cancelled.
 */
module Outcomes {
  import opened Prelude
  import opened ConcurrencyQueues
  import opened ConcurrencyControl
  import opened Executions
  import opened Slots
  import opened Invariants
  import opened History
  import opened Ownership
  import opened Draining

  // ---------- Calls of add ----------

  /** All calls but the given ones are as before. */
  ghost predicate OtherCallsKept(adds: seq<AddCall>, after: seq<AddCall>, changed: set<nat>) {
    |adds| <= |after| && forall t :: 0 <= t < |adds| && t !in changed ==> after[t] == adds[t]
  }

  /** A new execution waits for its id; a resumed one has it, and is let through or queued. */
  lemma BeginsCall(s: State, mode: Mode, id: string)
    requires Inv(s)
    ensures Next(s, Begin(mode, None)) == s.(adds := s.adds + [AddCall(mode, "", false, Creating)])
    ensures var m, n := Next(s, Begin(mode, Some(id))), |s.adds|;
            && |m.adds| == n + 1 && OtherCallsKept(s.adds, m.adds, {})
            && (m.adds[n] == AddCall(mode, id, true, Admitted) || m.adds[n] == AddCall(mode, id, true, Queued))
            && (m.adds[n].phase.Queued? <==> QueuedLast(s, m, mode, Waiter(id, n)))
            && m == s.(adds := m.adds, control := m.control)
  {
    var begun := s.(adds := s.adds + [AddCall(mode, id, true, Creating)]);
    ThrottledCall(begun, |s.adds|);
  }

  /** The waiter is the last one in the queue of the mode, and was not there before. */
  ghost predicate QueuedLast(s: State, m: State, mode: Mode, w: Waiter) {
    && Limits(s.control, mode)
    && var k := KindOf(mode).value;
       k in m.control.queues && m.control.queues[k].waiting == s.control.queues[k].waiting + [w]
  }

  lemma ThrottledCall(s: State, t: nat)
    requires t < |s.adds|
    ensures var m, c := Throttled(s, t), s.adds[t];
            && (m.adds == s.adds[t := c.(phase := Admitted)] || m.adds == s.adds[t := c.(phase := Queued)])
            && (m.adds[t].phase.Queued? <==> QueuedLast(s, m, c.mode, Waiter(c.executionId, t)))
  {
    var w := Waiter(s.adds[t].executionId, t);
    RelabelOne(Relabel(s.adds, t, Queued), w, Admitted);
    var e := ThrottleEffect(s.control, s.adds[t].mode, w);
    if e.admitted == [] {
      assert Throttled(s, t).adds == Relabel(s.adds, t, Queued);
    } else {
      assert e.admitted == [w];
      assert Relabel(Relabel(s.adds, t, Queued), t, Admitted) == s.adds[t := s.adds[t].(phase := Admitted)];
      if Limits(s.control, s.adds[t].mode) {
        LetThroughNotQueued(s.control, s.adds[t].mode, w);
      }
    }
  }

  lemma LetThroughNotQueued(c: Control, mode: Mode, w: Waiter)
    requires ThrottleEffect(c, mode, w).admitted != [] && Limits(c, mode)
    ensures var k := KindOf(mode).value;
            ThrottleEffect(c, mode, w).control.queues[k].waiting == c.queues[k].waiting
  {
  }

  /** The new id is stored; an empty one fails the call, and outside regular mode nothing is throttled. */
  lemma CreatedNames(s: State, t: nat, id: string)
    requires Enabled(s, Created(t, id))
    ensures var m, c := Next(s, Created(t, id)), s.adds[t];
            && |m.adds| == |s.adds| && OtherCallsKept(s.adds, m.adds, {t})
            && m.adds[t].mode == c.mode && m.adds[t].executionId == id && m.adds[t].resuming == c.resuming
            && (id == "" ==> m.adds[t].phase == Failed(false))
            && (id != "" && !s.regular ==> m.adds[t].phase == Admitted)
            && (id == "" || !s.regular ==> m.control == s.control)
            && (id != "" && s.regular ==>
                  m.adds[t].phase == if QueuedLast(s, m, c.mode, Waiter(id, t)) then Queued else Admitted)
            && m == s.(adds := m.adds, control := m.control)
  {
    if id != "" && s.regular {
      ThrottledCall(s.(adds := s.adds[t := s.adds[t].(executionId := id)]), t);
    }
  }

  lemma FailuresMark(s: State, t: nat)
    requires t < |s.adds|
    ensures s.adds[t].phase == Creating ==>
              Next(s, CreationFails(t)) == s.(adds := s.adds[t := s.adds[t].(phase := Failed(false))])
    ensures s.adds[t].phase == Admitted && (s.regular || s.adds[t].resuming) ==>
              Next(s, UpdateFails(t)) == s.(adds := s.adds[t := s.adds[t].(phase := Failed(true))])
  {
  }

  lemma QueuedCall(s: State, k: Kind, i: nat)
    requires Inv(s) && k in s.control.queues && i < |s.control.queues[k].waiting|
    ensures var t := s.control.queues[k].waiting[i].ticket;
            t < |s.adds| && s.adds[t].phase.Queued? && KindOf(s.adds[t].mode) == Some(k)
  {
    assert QueueAgrees(s.control.queues[k], s.adds, k);
    assert Belongs(s.adds, k, s.control.queues[k].waiting[i]);
  }

  /** A callback releases its call and starts the head of the queue of its mode; no other call moves. */
  lemma SettleStarts(s: State, r: nat)
    requires Inv(s) && Enabled(s, Settle(r)) && Limits(s.control, s.recs[r].mode)
    ensures var k, t, m := KindOf(s.recs[r].mode).value, s.recs[r].call, Next(s, Settle(r));
            var q := s.control.queues[k];
            && t < |s.adds| && |m.adds| == |s.adds| && m.adds[t] == s.adds[t].(phase := Released)
            && (if q.waiting == [] then
                  && OtherCallsKept(s.adds, m.adds, {t})
                  && m.control.queues == s.control.queues[k := QueueState(q.capacity + 1, [])]
                else
                  var head := q.waiting[0].ticket;
                  && head < |s.adds| && m.adds[head] == s.adds[head].(phase := Admitted)
                  && OtherCallsKept(s.adds, m.adds, {t, head})
                  && m.control.queues == s.control.queues[k := QueueState(q.capacity + 1, q.waiting[1..])])
  {
    assert RecordOk(s, r);
    var k := KindOf(s.recs[r].mode).value;
    if s.control.queues[k].waiting != [] {
      QueuedCall(s, k, 0);
      RelabelOne(Relabel(s.adds, s.recs[r].call, Released), s.control.queues[k].waiting[0], Admitted);
    }
  }

  /** Of a mode without a limit, it only releases its call. */
  lemma SettleUnlimited(s: State, r: nat)
    requires Inv(s) && Enabled(s, Settle(r)) && !Limits(s.control, s.recs[r].mode)
    ensures var t, m := s.recs[r].call, Next(s, Settle(r));
            t < |s.adds| && m.adds == s.adds[t := s.adds[t].(phase := Released)] && m.control == s.control
  {
    assert RecordOk(s, r);
  }

  /** The entry at position i is the first one of the execution in the queue. */
  ghost predicate FirstOf(ws: seq<Waiter>, id: string, i: nat) {
    i < |ws| && ws[i].executionId == id && forall j :: 0 <= j < i ==> ws[j].executionId != id
  }

  lemma RemovedQueue(q: QueueState, id: string, i: nat)
    requires FirstOf(q.waiting, id, i)
    ensures FindIndex(q.waiting, id) == i
    ensures var e, rest := RemoveEffect(q, id), q.waiting[..i] + q.waiting[i + 1..];
            && e.dropped == [q.waiting[i]]
            && (rest == [] ==> e.admitted == [] && e.state == QueueState(q.capacity + 1, []))
            && (rest != [] ==> e.admitted == [q.waiting[if i == 0 then 1 else 0]]
                               && e.state == QueueState(q.capacity + 1, rest[1..]))
  {
    assert FindIndex(q.waiting, id) == i;
  }

  /** What a removal that finds its entry leaves in the queue. */
  lemma RemovalShortens(s: State, mode: Mode, id: string, i: nat)
    requires Limits(s.control, mode) && FirstOf(s.control.queues[KindOf(mode).value].waiting, id, i)
    ensures var k, m := KindOf(mode).value, Next(s, RemoveQueued(mode, id)).control;
            var q := s.control.queues[k];
            var rest := q.waiting[..i] + q.waiting[i + 1..];
            && k in m.queues && m.queues[k] == QueueState(q.capacity + 1, if rest == [] then [] else rest[1..])
            && (forall l :: l in s.control.queues && l != k ==> l in m.queues && m.queues[l] == s.control.queues[l])
  {
    RemovedQueue(s.control.queues[KindOf(mode).value], id, i);
  }

  /** Removing the only queued call strands it; no other call moves. */
  lemma RemovalOfOnly(s: State, mode: Mode, id: string)
    requires Inv(s) && Limits(s.control, mode)
    requires |s.control.queues[KindOf(mode).value].waiting| == 1
    requires FirstOf(s.control.queues[KindOf(mode).value].waiting, id, 0)
    ensures var k, m := KindOf(mode).value, Next(s, RemoveQueued(mode, id));
            var q := s.control.queues[k];
            var t := q.waiting[0].ticket;
            && t < |s.adds| && |m.adds| == |s.adds| && m.adds[t] == s.adds[t].(phase := Dropped)
            && OtherCallsKept(s.adds, m.adds, {t})
  {
    var k := KindOf(mode).value;
    RemovedQueue(s.control.queues[k], id, 0);
    QueuedCall(s, k, 0);
    RelabelOne(s.adds, s.control.queues[k].waiting[0], Dropped);
  }

  lemma RemovalRelabels(s: State, mode: Mode, id: string, i: nat)
    requires Limits(s.control, mode) && |s.control.queues[KindOf(mode).value].waiting| > 1
    requires FirstOf(s.control.queues[KindOf(mode).value].waiting, id, i)
    ensures var ws := s.control.queues[KindOf(mode).value].waiting;
            Next(s, RemoveQueued(mode, id)).adds
            == Relabel(Relabel(s.adds, ws[i].ticket, Dropped), ws[if i == 0 then 1 else 0].ticket, Admitted)
  {
    var q := s.control.queues[KindOf(mode).value];
    RemovedQueue(q, id, i);
    RelabelOne(s.adds, q.waiting[i], Dropped);
    RelabelOne(Relabel(s.adds, q.waiting[i].ticket, Dropped), q.waiting[if i == 0 then 1 else 0], Admitted);
  }

  /** Removing one of several strands its first queued call and starts the then first one; no other call moves. */
  lemma RemovalStrands(s: State, mode: Mode, id: string, i: nat)
    requires Inv(s) && Limits(s.control, mode)
    requires |s.control.queues[KindOf(mode).value].waiting| > 1
    requires FirstOf(s.control.queues[KindOf(mode).value].waiting, id, i)
    ensures var k, m := KindOf(mode).value, Next(s, RemoveQueued(mode, id));
            var q := s.control.queues[k];
            var t, head := q.waiting[i].ticket, q.waiting[if i == 0 then 1 else 0].ticket;
            && t < |s.adds| && head < |s.adds| && head != t && |m.adds| == |s.adds|
            && m.adds[t] == s.adds[t].(phase := Dropped) && m.adds[head] == s.adds[head].(phase := Admitted)
            && OtherCallsKept(s.adds, m.adds, {t, head})
  {
    var k := KindOf(mode).value;
    var h := if i == 0 then 1 else 0;
    RemovalRelabels(s, mode, id, i);
    QueuedCall(s, k, i);
    QueuedCall(s, k, h);
    assert QueueAgrees(s.control.queues[k], s.adds, k);
  }

  /** Removing an execution that is not queued, or of a mode without a limit, changes nothing. */
  lemma RemovalOfAbsent(s: State, mode: Mode, id: string)
    requires Limits(s.control, mode) ==>
               forall w :: w in s.control.queues[KindOf(mode).value].waiting ==> w.executionId != id
    ensures Next(s, RemoveQueued(mode, id)) == s
  {
    if Limits(s.control, mode) {
      var k := KindOf(mode).value;
      assert FindIndex(s.control.queues[k].waiting, id) == |s.control.queues[k].waiting|;
      assert s.control.queues[k := s.control.queues[k]] == s.control.queues;
    }
  }

  // ---------- Registration ----------

  /** The new record takes over the start time and the response promise of the id's entry, and nothing else. */
  lemma RegistersFreshRecord(s: State, t: nat, now: nat)
    requires Inv(s) && Enabled(s, Register(t, now))
    ensures var id, m, r := s.adds[t].executionId, Next(s, Register(t, now)), |s.recs|;
            && |m.recs| == r + 1 && m.recs[..r] == s.recs
            && id in m.active && m.active[id] == r
            && m.recs[r].executionId == id && m.recs[r].mode == s.adds[t].mode && m.recs[r].call == t
            && m.recs[r].promise == Pending && !m.recs[r].callbackRan && m.recs[r].workflowExecution == None
            && (id != "" || !s.adds[t].resuming ==> m.recs[r].status == Running)
            && (id == "" && s.adds[t].resuming ==> m.recs[r].status == New)
            && m.recs[r].startedAt == (if id in s.active then s.recs[s.active[id]].startedAt else now)
            && m.recs[r].responsePromise == (if id in s.active then s.recs[s.active[id]].responsePromise else None)
    ensures var id, m := s.adds[t].executionId, Next(s, Register(t, now));
            && (forall other :: other != id ==> (other in m.active <==> other in s.active))
            && (forall other :: other != id && other in s.active ==> m.active[other] == s.active[other])
            && m.control == s.control && m.answers == s.answers && m.cancelledRuns == s.cancelledRuns
            && |m.adds| == |s.adds| && m.adds[t].phase == Registered
            && (forall c :: 0 <= c < |s.adds| && c != t ==> m.adds[c] == s.adds[c])
  {
    assert s.adds[t].executionId in s.active ==> EntryOk(s, s.adds[t].executionId);
  }

  /** No event sets the status of the execution. */
  ghost predicate StatusLeft(es: seq<Event>, id: string) {
    forall i :: 0 <= i < |es| && es[i].SetStatus? ==> es[i].id != id
  }

  lemma {:induction false} StatusStays(s: State, es: seq<Event>, r: nat)
    requires Inv(s) && Legal(s, es) && r < |s.recs| && StatusLeft(es, s.recs[r].executionId)
    ensures r < |Run(s, es).recs| && Run(s, es).recs[r].status == s.recs[r].status
    decreases |es|
  {
    if es != [] {
      var e := es[0];
      StatusAfter(s, e, r);
      NextRecordIsLater(s, e, r);
      assert e.SetStatus? && e.id in s.active ==> EntryOk(s, e.id);
      NextKeeps(s, e);
      assert forall i :: 0 <= i < |es[1..]| ==> es[1..][i] == es[i + 1];
      StatusStays(Next(s, e), es[1..], r);
    }
  }

  /**
   A registered execution runs, whatever its earlier record was, until its status is set; and its callback
   then takes the entry of its id out of the map.
   */
  lemma RegisteredRuns(s: State, t: nat, now: nat, es: seq<Event>)
    requires Inv(s) && Enabled(s, Register(t, now)) && s.adds[t].executionId != ""
    requires Legal(Next(s, Register(t, now)), es) && StatusLeft(es, s.adds[t].executionId)
    ensures var r, m := |s.recs|, Run(Next(s, Register(t, now)), es);
            && r < |m.recs| && m.recs[r].status == Running
            && (Enabled(m, Settle(r)) ==> s.adds[t].executionId !in Next(m, Settle(r)).active)
  {
    var n, r := Next(s, Register(t, now)), |s.recs|;
    RegistersFreshRecord(s, t, now);
    NextKeeps(s, Register(t, now));
    StatusStays(n, es, r);
    RunIsLater(n, es);
    assert LaterRecord(n.recs[r], Run(n, es).recs[r]);
  }

  // ---------- Finishing ----------

  lemma FinalizeSettles(s: State, id: string, run: Option<nat>)
    requires Inv(s) && id in s.active
    ensures var r, m := s.active[id], Next(s, Finalize(id, run));
            && r < |s.recs| == |m.recs|
            && m.recs[r]
               == s.recs[r].(promise := if s.recs[r].promise == Pending then Resolved(run) else s.recs[r].promise)
            && (forall q :: 0 <= q < |s.recs| && q != r ==> m.recs[q] == s.recs[q])
            && m == s.(recs := m.recs)
  {
    assert EntryOk(s, id);
  }

  /**
   Finalising a pending execution gives its waiters the run, for good: no later stop, finalisation or sweep
   shows. Its callback runs once; as long as it has not, it is due.
   */
  lemma FinalizeDelivers(s: State, id: string, run: Option<nat>, es: seq<Event>)
    requires Inv(s) && id in s.active && s.recs[s.active[id]].promise == Pending
    requires Legal(Next(s, Finalize(id, run)), es)
    ensures var r, m := s.active[id], Run(Next(s, Finalize(id, run)), es);
            && r < |m.recs| && m.recs[r].promise == Resolved(run)
            && CallbacksOf(es, r) == Once(m.recs[r].callbackRan)
            && (m.recs[r].callbackRan || Enabled(m, Settle(r)))
  {
    var r, n := s.active[id], Next(s, Finalize(id, run));
    FinalizeSettles(s, id, run);
    NextKeeps(s, Finalize(id, run));
    assert EntryOk(s, id) && RecordOk(s, r);
    PromiseSettlesOnce(n, es, r);
    CallbackRunsOnce(n, es, r);
  }

  /** Stopping refuses the response; it deletes a waiting entry, and else cancels the run and a pending promise. */
  lemma StopDoes(s: State, id: string)
    requires Inv(s) && id in s.active
    ensures s.active[id] < |s.recs|
    ensures var r, m := s.active[id], Next(s, Stop(id));
            var rec := s.recs[r];
            && (if rec.status == Waiting then m.recs == s.recs && m.active == s.active - {id}
                else
                  && m.active == s.active && |m.recs| == |s.recs|
                  && m.recs[r] == rec.(promise := if rec.promise == Pending then Cancelled else rec.promise)
                  && (forall q :: 0 <= q < |s.recs| && q != r ==> m.recs[q] == s.recs[q]))
            && (forall w :: w in m.cancelledRuns <==>
                  w in s.cancelledRuns || (rec.status != Waiting && rec.workflowExecution == Some(w)))
            && (forall p :: p in m.answers <==> p in s.answers || rec.responsePromise == Some(p))
            && (forall p :: p in m.answers ==> m.answers[p] == if p in s.answers then s.answers[p] else Refused)
            && m.control == s.control && m.adds == s.adds
  {
    assert EntryOk(s, id);
  }

  // ---------- The callback ----------

  /** A waiting record only forgets its workflow execution; any other loses the entry of its id. */
  lemma CallbackForgets(s: State, r: nat)
    requires Inv(s) && Enabled(s, Settle(r))
    ensures var m, rec := Next(s, Settle(r)), s.recs[r];
            && |m.recs| == |s.recs|
            && m.recs[r].callbackRan
            && m.recs[r].workflowExecution == (if rec.status == Waiting then None else rec.workflowExecution)
            && m.recs[r].executionId == rec.executionId && m.recs[r].mode == rec.mode && m.recs[r].call == rec.call
            && m.recs[r].startedAt == rec.startedAt && m.recs[r].status == rec.status
            && m.recs[r].responsePromise == rec.responsePromise && m.recs[r].promise == rec.promise
            && (forall q :: 0 <= q < |s.recs| && q != r ==> m.recs[q] == s.recs[q])
            && (forall id :: id in m.active <==> id in s.active && (rec.status == Waiting || id != rec.executionId))
            && (forall id :: id in m.active ==> m.active[id] == s.active[id])
            && m.answers == s.answers && m.cancelledRuns == s.cancelledRuns
  {
  }

  /** No event attaches a workflow execution to the execution. */
  ghost predicate WorkflowLeft(es: seq<Event>, id: string) {
    forall i :: 0 <= i < |es| && es[i].AttachWorkflowExecution? ==> es[i].id != id
  }

  lemma NoWorkflowStays(s: State, e: Event, r: nat)
    requires Keyed(s) && Enabled(s, e) && r < |s.recs| && s.recs[r].workflowExecution == None
    requires e.AttachWorkflowExecution? ==> e.id != s.recs[r].executionId
    ensures r < |Next(s, e).recs| && Next(s, e).recs[r].workflowExecution == None
  {
    assert e.AttachWorkflowExecution? && e.id in s.active ==> EntryOk(s, e.id);
  }

  lemma {:induction false} NoWorkflowUntilAttached(s: State, es: seq<Event>, r: nat)
    requires Inv(s) && Legal(s, es) && r < |s.recs| && s.recs[r].workflowExecution == None
    requires WorkflowLeft(es, s.recs[r].executionId)
    ensures r < |Run(s, es).recs| && Run(s, es).recs[r].workflowExecution == None
    decreases |es|
  {
    if es != [] {
      NoWorkflowStays(s, es[0], r);
      NextRecordIsLater(s, es[0], r);
      NextKeeps(s, es[0]);
      assert forall i :: 0 <= i < |es[1..]| ==> es[1..][i] == es[i + 1];
      NoWorkflowUntilAttached(Next(s, es[0]), es[1..], r);
    }
  }

  /**
   After the callback of a waiting record no earlier run hangs on it: until a workflow execution is attached
   again it holds none, and stopping its entry cancels none.
   */
  lemma WaitingHoldsNoRun(s: State, r: nat, es: seq<Event>)
    requires Inv(s) && Enabled(s, Settle(r)) && s.recs[r].status == Waiting
    requires Legal(Next(s, Settle(r)), es) && WorkflowLeft(es, s.recs[r].executionId)
    ensures var m, id := Run(Next(s, Settle(r)), es), s.recs[r].executionId;
            && r < |m.recs| && m.recs[r].workflowExecution == None
            && (id in m.active && m.active[id] == r ==> Next(m, Stop(id)).cancelledRuns == m.cancelledRuns)
  {
    var n := Next(s, Settle(r));
    CallbackForgets(s, r);
    NextKeeps(s, Settle(r));
    NoWorkflowUntilAttached(n, es, r);
  }

  // ---------- The other methods ----------

  /** Setting a status and attaching store their argument in the record of the id, and nothing else changes. */
  lemma StoresArgument(s: State, id: string, status: Status, value: nat)
    requires Inv(s) && id in s.active
    ensures var r := s.active[id];
            && r < |s.recs|
            && Next(s, SetStatus(id, status)) == s.(recs := s.recs[r := s.recs[r].(status := status)])
            && Next(s, AttachWorkflowExecution(id, value))
               == s.(recs := s.recs[r := s.recs[r].(workflowExecution := Some(value))])
            && Next(s, AttachResponsePromise(id, value))
               == s.(recs := s.recs[r := s.recs[r].(responsePromise := Some(value))])
  {
    assert EntryOk(s, id);
  }

  /** Methods called with an id that has no entry change nothing. */
  lemma AbsentIdChangesNothing(s: State, e: Event, id: string)
    requires id !in s.active
    requires || e == Stop(id) || e == ResolveExecutionResponsePromise(id)
             || (e.Finalize? && e.id == id) || (e.SetStatus? && e.id == id)
             || (e.AttachWorkflowExecution? && e.id == id) || (e.AttachResponsePromise? && e.id == id)
             || (e.ResolveResponsePromise? && e.id == id)
    ensures Next(s, e) == s
  {
  }

  /** A response promise gets the given answer if it has none yet; a waiting execution's is not cleared. */
  lemma Answers(s: State, id: string, value: nat)
    requires Inv(s) && id in s.active
    ensures s.active[id] < |s.recs|
    ensures var rec, m, n := s.recs[s.active[id]], Next(s, ResolveResponsePromise(id, value)),
                             Next(s, ResolveExecutionResponsePromise(id));
            && m == s.(answers := m.answers) && n == s.(answers := n.answers)
            && (forall p :: p in m.answers <==> p in s.answers || rec.responsePromise == Some(p))
            && (forall p :: p in m.answers ==> m.answers[p] == if p in s.answers then s.answers[p] else Answered(value))
            && (forall p :: p in n.answers <==>
                  p in s.answers || (rec.status != Waiting && rec.responsePromise == Some(p)))
            && (forall p :: p in n.answers ==> n.answers[p] == if p in s.answers then s.answers[p] else EmptyAnswer)
  {
    assert EntryOk(s, id);
  }

  /** So the value an attached promise is first answered with is the one its caller gets in the end. */
  lemma AnswerStands(s: State, id: string, value: nat, es: seq<Event>)
    requires Inv(s) && id in s.active && s.active[id] < |s.recs|
    requires s.recs[s.active[id]].responsePromise.Some? && s.recs[s.active[id]].responsePromise.value !in s.answers
    requires Legal(Next(s, ResolveResponsePromise(id, value)), es)
    ensures var p, m := s.recs[s.active[id]].responsePromise.value, Run(Next(s, ResolveResponsePromise(id, value)), es);
            p in m.answers && m.answers[p] == Answered(value)
  {
    Answers(s, id, value);
    NextKeeps(s, ResolveResponsePromise(id, value));
    RunIsLater(Next(s, ResolveResponsePromise(id, value)), es);
  }

  // ---------- Shutdown ----------

  /** The sweep refuses exactly the unanswered response promises of the entries. */
  lemma SweepRefuses(s: State, cancelAll: bool, p: nat)
    requires Inv(s)
    ensures var m := Next(s, Shutdown(cancelAll));
            && (p in m.answers <==>
                  p in s.answers || exists id :: id in s.active && s.recs[s.active[id]].responsePromise == Some(p))
            && (p in m.answers ==> m.answers[p] == if p in s.answers then s.answers[p] else Refused)
  {
    var n := ConcurrencyOff(s);
    forall id | id in s.active ensures s.active[id] < |s.recs| {
      assert EntryOk(s, id);
    }
    assert Next(s, Shutdown(cancelAll)).answers == Refuse(s.answers, RefusedAt(n, cancelAll, n.active.Keys));
    if id :| id in s.active && s.recs[s.active[id]].responsePromise == Some(p) {
      assert Doomed(n, cancelAll, id);
      assert p in RefusedAt(n, cancelAll, n.active.Keys);
    }
  }

  /** It cancels exactly the workflow executions of the entries it stops that are not waiting. */
  lemma SweepCancels(s: State, cancelAll: bool, w: nat)
    requires Inv(s)
    ensures w in Next(s, Shutdown(cancelAll)).cancelledRuns
       <==> w in s.cancelledRuns || exists id :: RunStopped(s, cancelAll, id, w)
  {
    var n := ConcurrencyOff(s);
    forall id | id in s.active ensures s.active[id] < |s.recs| {
      assert EntryOk(s, id);
    }
    assert Next(s, Shutdown(cancelAll)).cancelledRuns == s.cancelledRuns + CancelledAt(n, cancelAll, n.active.Keys);
    if id :| RunStopped(s, cancelAll, id, w) {
      assert Doomed(n, cancelAll, id) && Survives(n, cancelAll, id);
      assert w in CancelledAt(n, cancelAll, n.active.Keys);
    }
    if w in CancelledAt(n, cancelAll, n.active.Keys) {
      var id :| id in n.active && Doomed(n, cancelAll, id) && Survives(n, cancelAll, id)
                && n.recs[n.active[id]].workflowExecution == Some(w);
      assert RunStopped(s, cancelAll, id, w);
    }
  }

  ghost predicate RunStopped(s: State, cancelAll: bool, id: string, w: nat) {
    && id in s.active && s.active[id] < |s.recs|
    && var rec := s.recs[s.active[id]];
       && (rec.responsePromise.Some? || (s.regular && cancelAll))
       && rec.status != Waiting && rec.workflowExecution == Some(w)
  }
}
