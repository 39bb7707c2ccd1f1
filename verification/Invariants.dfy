/**
 What every step keeps: the slot books, the link between records and the calls of `add` that registered
 them, and the keys of the map. The main results about slots are stated over whole runs.
 */
module Invariants {
  import opened Prelude
  import opened ConcurrencyQueues
  import opened ConcurrencyControl
  import opened Executions
  import opened Slots

  /** A record against the call that registered it. */
  ghost predicate RecordOk(s: State, r: nat)
    requires r < |s.recs|
  {
    var rec := s.recs[r];
    && rec.call < |s.adds|
    && s.adds[rec.call].mode == rec.mode
    && s.adds[rec.call].phase == (if rec.callbackRan then Released else Registered)
    && (rec.callbackRan ==> rec.promise != Pending)
  }

  ghost predicate EntryOk(s: State, id: string)
    requires id in s.active
  {
    s.active[id] < |s.recs| && s.recs[s.active[id]].executionId == id
  }

  /** Every entry is of a record with that id. */
  ghost predicate Keyed(s: State) {
    forall id :: id in s.active ==> EntryOk(s, id)
  }

  ghost predicate RecordsOk(s: State) {
    && Keyed(s)
    && (forall r :: 0 <= r < |s.recs| ==> RecordOk(s, r))
    && (forall r, q :: 0 <= r < q < |s.recs| ==> s.recs[r].call != s.recs[q].call)
  }

  ghost predicate Inv(s: State) {
    && RecordsOk(s)
    && Sane(s.control, s.adds)
    && (forall k :: k in s.control.queues ==> Bounded(s.control.queues[k]))
    && (!s.regular ==> !s.control.isEnabled)
    && s.control.queues.Keys <= s.control.limits.Keys
  }

  /** Calls that have registered are left alone. */
  ghost predicate KeepsRegistered(adds: seq<AddCall>, after: seq<AddCall>) {
    && |adds| <= |after|
    && forall t :: 0 <= t < |adds| && (adds[t].phase.Registered? || adds[t].phase.Released?) ==> after[t] == adds[t]
  }

  lemma RecordsSurvive(s: State, control: Control, adds: seq<AddCall>)
    requires RecordsOk(s) && KeepsRegistered(s.adds, adds)
    ensures RecordsOk(s.(control := control, adds := adds))
  {
    var m := s.(control := control, adds := adds);
    forall id | id in m.active ensures EntryOk(m, id) {
      assert EntryOk(s, id);
    }
    forall r | 0 <= r < |m.recs| ensures RecordOk(m, r) {
      assert RecordOk(s, r);
    }
  }

  /** Those let through by a queue operation were queued, and nothing else is relabelled. */
  lemma AdmittedWereQueued(c: Control, adds: seq<AddCall>, mode: Mode, op: Op, phase: Phase)
    requires Sane(c, adds) && !op.Enqueue?
    ensures var e := OnQueue(c, mode, op);
            && |e.admitted| <= 1 && |e.dropped| <= 1
            && (forall w :: w in e.admitted || w in e.dropped ==> w.ticket < |adds| && adds[w.ticket].phase.Queued?)
            && (forall w, v :: w in e.admitted && v in e.dropped ==> w.ticket != v.ticket)
  {
    if Limits(c, mode) {
      var k := KindOf(mode).value;
      var q := c.queues[k];
      assert QueueAgrees(q, adds, k);
      forall i | 0 <= i < |q.waiting| ensures q.waiting[i].ticket < |adds| && adds[q.waiting[i].ticket].phase.Queued? {
        assert Belongs(adds, k, q.waiting[i]);
      }
    }
  }

  lemma RelabelQueued(adds: seq<AddCall>, ws: seq<Waiter>, phase: Phase)
    requires |ws| <= 1
    requires forall w :: w in ws ==>
               w.ticket < |adds| && !adds[w.ticket].phase.Registered? && !adds[w.ticket].phase.Released?
    ensures KeepsRegistered(adds, RelabelAll(adds, ws, phase))
    ensures |RelabelAll(adds, ws, phase)| == |adds|
    ensures forall t :: 0 <= t < |adds| && (ws == [] || ws[0].ticket != t) ==> RelabelAll(adds, ws, phase)[t] == adds[t]
  {
    if ws != [] {
      assert ws == [ws[0]];
      RelabelOne(adds, ws[0], phase);
    }
  }

  // ---------- One lemma a group of events ----------

  lemma ThrottledKeeps(s: State, t: nat)
    requires Inv(s) && t < |s.adds| && s.adds[t].phase.Creating?
    ensures Inv(Throttled(s, t))
  {
    var call := s.adds[t];
    var w := Waiter(call.executionId, t);
    var e := ThrottleEffect(s.control, call.mode, w);
    SaneThrottle(s.control, s.adds, t);
    if Limits(s.control, call.mode) {
      BoundedStep(s.control.queues[KindOf(call.mode).value], Enqueue(w));
    }
    assert e.admitted == [] || e.admitted == [w];
    RelabelQueued(Relabel(s.adds, t, Queued), e.admitted, Admitted);
    RecordsSurvive(s, e.control, Throttled(s, t).adds);
  }

  lemma BeginKeeps(s: State, e: Event)
    requires Inv(s) && (e.Begin? || e.Created?) && Enabled(s, e)
    ensures Inv(Next(s, e))
  {
    match e
    case Begin(mode, id) =>
      var call := AddCall(mode, if id.Some? then id.value else "", id.Some?, Creating);
      SaneAppend(s.control, s.adds, call);
      RecordsSurvive(s, s.control, s.adds + [call]);
      if id.Some? {
        ThrottledKeeps(s.(adds := s.adds + [call]), |s.adds|);
      }
    case Created(t, id) =>
      var named := s.adds[t].(executionId := id);
      SaneUpdate(s.control, s.adds, t, named);
      var m := s.(adds := s.adds[t := named]);
      RecordsSurvive(s, s.control, m.adds);
      if id != "" && s.regular {
        ThrottledKeeps(m, t);
      } else {
        var call := named.(phase := if id == "" then Failed(false) else Admitted);
        SaneUpdate(s.control, m.adds, t, call);
        RecordsSurvive(m, s.control, m.adds[t := call]);
      }
  }

  lemma FailureKeeps(s: State, e: Event)
    requires Inv(s) && (e.CreationFails? || e.UpdateFails?) && Enabled(s, e)
    ensures Inv(Next(s, e))
  {
    var t := e.call;
    var call := s.adds[t].(phase := Failed(e.UpdateFails?));
    SaneUpdate(s.control, s.adds, t, call);
    RecordsSurvive(s, s.control, s.adds[t := call]);
  }

  lemma RegisterKeeps(s: State, t: nat, now: nat)
    requires Inv(s) && Enabled(s, Register(t, now))
    ensures Inv(Registration(s, t, now))
  {
    var call := s.adds[t].(phase := Registered);
    SaneUpdate(s.control, s.adds, t, call);
    var m := Registration(s, t, now);
    forall r | 0 <= r < |s.recs| ensures RecordOk(m, r) && s.recs[r].call != t {
      assert RecordOk(s, r);
    }
    forall id | id in m.active ensures EntryOk(m, id) {
      if id != s.adds[t].executionId {
        assert EntryOk(s, id);
      }
    }
  }

  lemma CallbackKeepsRecords(s: State, r: nat, control: Control, adds: seq<AddCall>)
    requires RecordsOk(s) && Enabled(s, Settle(r))
    requires s.recs[r].call < |s.adds| && KeepsRegistered(Relabel(s.adds, s.recs[r].call, Released), adds)
    ensures RecordsOk(Callback(s, r).(control := control, adds := adds))
  {
    var rec := s.recs[r];
    var m := Callback(s, r).(control := control, adds := adds);
    assert RecordOk(s, r);
    forall q | 0 <= q < |m.recs| ensures RecordOk(m, q) {
      assert RecordOk(s, q);
    }
    forall id | id in m.active ensures EntryOk(m, id) {
      assert EntryOk(s, id);
    }
  }

  lemma SettleKeeps(s: State, r: nat)
    requires Inv(s) && Enabled(s, Settle(r))
    ensures Inv(Callback(s, r))
  {
    var rec := s.recs[r];
    assert RecordOk(s, r);
    var e := ReleaseEffect(s.control, rec.mode);
    SaneRelease(s.control, s.adds, rec.call);
    if Limits(s.control, rec.mode) {
      BoundedStep(s.control.queues[KindOf(rec.mode).value], Dequeue);
    }
    AdmittedWereQueued(s.control, s.adds, rec.mode, Dequeue, Admitted);
    RelabelQueued(Relabel(s.adds, rec.call, Released), e.admitted, Admitted);
    CallbackKeepsRecords(s, r, e.control, Callback(s, r).adds);
  }

  lemma RemovalKeeps(s: State, mode: Mode, id: string)
    requires Inv(s)
    ensures Inv(Removal(s, mode, id))
  {
    var e := RemoveEffectFor(s.control, mode, id);
    SaneRemove(s.control, s.adds, mode, id);
    if Limits(s.control, mode) {
      BoundedStep(s.control.queues[KindOf(mode).value], Remove(id));
    }
    AdmittedWereQueued(s.control, s.adds, mode, Remove(id), Admitted);
    var stranded := RelabelAll(s.adds, e.dropped, Dropped);
    RelabelQueued(s.adds, e.dropped, Dropped);
    RelabelQueued(stranded, e.admitted, Admitted);
    RecordsSurvive(s, e.control, RelabelAll(stranded, e.admitted, Admitted));
  }

  /** The methods that leave slots and calls alone: they keep every record's call and never unsettle a promise. */
  ghost predicate OnlyRecords(s: State, m: State) {
    && m.regular == s.regular && m.control == s.control && m.adds == s.adds
    && |m.recs| == |s.recs|
    && (forall r :: 0 <= r < |s.recs| ==> SameRecord(s.recs[r], m.recs[r]))
    && (forall id :: id in m.active ==> id in s.active && m.active[id] == s.active[id])
  }

  ghost predicate SameRecord(a: Rec, b: Rec) {
    && b.executionId == a.executionId && b.mode == a.mode && b.call == a.call && b.startedAt == a.startedAt
    && b.callbackRan == a.callbackRan
    && (a.promise != Pending ==> b.promise == a.promise)
  }

  predicate IsMethod(e: Event) {
    || e.Stop? || e.Finalize? || e.SetStatus? || e.AttachWorkflowExecution? || e.AttachResponsePromise?
    || e.ResolveResponsePromise? || e.ResolveExecutionResponsePromise?
  }

  lemma MethodsOnlyTouchRecords(s: State, e: Event)
    requires IsMethod(e)
    ensures OnlyRecords(s, Next(s, e))
  {
    match e
    case Stop(id) => StoppedOnlyTouchesRecords(s, id);
    case ResolveResponsePromise(_, _) =>
    case ResolveExecutionResponsePromise(_) =>
    case Finalize(id, _) => EditedOnlyTouchesRecords(s, id, e);
    case SetStatus(id, _) => EditedOnlyTouchesRecords(s, id, e);
    case AttachWorkflowExecution(id, _) => EditedOnlyTouchesRecords(s, id, e);
    case AttachResponsePromise(id, _) => EditedOnlyTouchesRecords(s, id, e);
  }

  lemma StoppedOnlyTouchesRecords(s: State, id: string)
    ensures OnlyRecords(s, Stopped(s, id))
  {
  }

  lemma EditedOnlyTouchesRecords(s: State, id: string, e: Event)
    ensures OnlyRecords(s, Edited(s, id, e))
  {
  }

  lemma OnlyRecordsKeeps(s: State, m: State)
    requires Inv(s) && OnlyRecords(s, m)
    ensures Inv(m)
  {
    forall r | 0 <= r < |m.recs| ensures RecordOk(m, r) {
      assert RecordOk(s, r) && SameRecord(s.recs[r], m.recs[r]);
    }
    forall r, q | 0 <= r < q < |m.recs| ensures m.recs[r].call != m.recs[q].call {
      assert SameRecord(s.recs[r], m.recs[r]) && SameRecord(s.recs[q], m.recs[q]);
    }
    forall id | id in m.active ensures EntryOk(m, id) {
      assert EntryOk(s, id) && SameRecord(s.recs[s.active[id]], m.recs[s.active[id]]);
    }
  }

  /** At shutdown the service is already off when `removeAll` is called, so that call does nothing. */
  lemma ShutdownNeverCancels(s: State, cancelAll: bool)
    requires Inv(s)
    ensures var m := AfterShutdown(s, cancelAll);
            && m.control == s.control.(isEnabled := false)
            && m.adds == s.adds
  {
  }

  lemma ShutdownOnlyTouchesRecords(s: State, cancelAll: bool)
    requires Inv(s)
    ensures OnlyRecords(s.(control := s.control.(isEnabled := false)), AfterShutdown(s, cancelAll))
  {
    ShutdownNeverCancels(s, cancelAll);
  }

  lemma OffKeeps(s: State)
    requires Inv(s)
    ensures Inv(s.(control := s.control.(isEnabled := false)))
  {
    assert forall k :: k in s.control.queues ==> QueueAgrees(s.control.queues[k], s.adds, k);
    RecordsSurvive(s, s.control.(isEnabled := false), s.adds);
  }

  lemma ShutdownKeeps(s: State, cancelAll: bool)
    requires Inv(s)
    ensures Inv(AfterShutdown(s, cancelAll))
  {
    OffKeeps(s);
    ShutdownOnlyTouchesRecords(s, cancelAll);
    OnlyRecordsKeeps(s.(control := s.control.(isEnabled := false)), AfterShutdown(s, cancelAll));
  }

  lemma NextKeeps(s: State, e: Event)
    requires Inv(s) && Enabled(s, e)
    ensures Inv(Next(s, e))
  {
    match e
    case Begin(_, _) => BeginKeeps(s, e);
    case Created(_, _) => BeginKeeps(s, e);
    case CreationFails(_) => FailureKeeps(s, e);
    case UpdateFails(_) => FailureKeeps(s, e);
    case Register(t, now) => RegisterKeeps(s, t, now);
    case Settle(r) => SettleKeeps(s, r);
    case RemoveQueued(mode, id) => RemovalKeeps(s, mode, id);
    case Shutdown(cancelAll) => ShutdownKeeps(s, cancelAll);
    case _ =>
      MethodsOnlyTouchRecords(s, e);
      OnlyRecordsKeeps(s, Next(s, e));
  }

  lemma {:induction false} RunKeeps(s: State, es: seq<Event>)
    requires Inv(s) && Legal(s, es)
    ensures Inv(Run(s, es))
    decreases |es|
  {
    if es != [] {
      NextKeeps(s, es[0]);
      RunKeeps(Next(s, es[0]), es[1..]);
    }
  }
}
