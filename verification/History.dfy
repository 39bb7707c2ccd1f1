/** What no later step undoes: settled promises, callbacks that ran, calls that ended, and lost records. */
module History {
  import opened Prelude
  import opened ConcurrencyQueues
  import opened ConcurrencyControl
  import opened Executions
  import opened Slots
  import opened Invariants

  predicate Ended(p: Phase) {
    p.Released? || p.Failed? || p.Dropped?
  }

  ghost predicate LaterRecord(a: Rec, b: Rec) {
    && b.executionId == a.executionId && b.mode == a.mode && b.call == a.call && b.startedAt == a.startedAt
    && (a.callbackRan ==> b.callbackRan)
    && (a.promise != Pending ==> b.promise == a.promise)
  }

  ghost predicate Later(s: State, m: State) {
    && |s.recs| <= |m.recs| && (forall r :: 0 <= r < |s.recs| ==> LaterRecord(s.recs[r], m.recs[r]))
    && |s.adds| <= |m.adds| && (forall t :: 0 <= t < |s.adds| && Ended(s.adds[t].phase) ==> m.adds[t] == s.adds[t])
    && (forall p :: p in s.answers ==> p in m.answers && m.answers[p] == s.answers[p])
    && (m.control.isEnabled ==> s.control.isEnabled)
  }

  ghost predicate EndedKept(adds: seq<AddCall>, after: seq<AddCall>) {
    |adds| <= |after| && forall t :: 0 <= t < |adds| && Ended(adds[t].phase) ==> after[t] == adds[t]
  }

  lemma RelabelKeepsEnded(adds: seq<AddCall>, ws: seq<Waiter>, phase: Phase)
    requires |ws| <= 1 && forall w :: w in ws ==> w.ticket < |adds| && !Ended(adds[w.ticket].phase)
    ensures EndedKept(adds, RelabelAll(adds, ws, phase))
    ensures |RelabelAll(adds, ws, phase)| == |adds|
    ensures forall t :: 0 <= t < |adds| && (ws == [] || ws[0].ticket != t) ==> RelabelAll(adds, ws, phase)[t] == adds[t]
  {
    if ws != [] {
      assert ws == [ws[0]];
      RelabelOne(adds, ws[0], phase);
    }
  }

  lemma ThrottledKeepsEnded(s: State, t: nat)
    requires t < |s.adds| && s.adds[t].phase.Creating?
    ensures EndedKept(s.adds, Throttled(s, t).adds)
  {
    var w := Waiter(s.adds[t].executionId, t);
    var e := ThrottleEffect(s.control, s.adds[t].mode, w);
    assert e.admitted == [] || e.admitted == [w];
    RelabelKeepsEnded(Relabel(s.adds, t, Queued), e.admitted, Admitted);
  }

  lemma CallbackKeepsEnded(s: State, r: nat)
    requires Inv(s) && Enabled(s, Settle(r))
    ensures EndedKept(s.adds, Callback(s, r).adds)
  {
    var rec := s.recs[r];
    assert RecordOk(s, r);
    AdmittedWereQueued(s.control, s.adds, rec.mode, Dequeue, Admitted);
    RelabelKeepsEnded(Relabel(s.adds, rec.call, Released), ReleaseEffect(s.control, rec.mode).admitted, Admitted);
  }

  lemma RemovalKeepsEnded(s: State, mode: Mode, id: string)
    requires Inv(s)
    ensures EndedKept(s.adds, Removal(s, mode, id).adds)
  {
    var e := RemoveEffectFor(s.control, mode, id);
    AdmittedWereQueued(s.control, s.adds, mode, Remove(id), Admitted);
    RelabelKeepsEnded(s.adds, e.dropped, Dropped);
    RelabelKeepsEnded(RelabelAll(s.adds, e.dropped, Dropped), e.admitted, Admitted);
  }

  lemma NextKeepsEnded(s: State, e: Event)
    requires Inv(s) && Enabled(s, e)
    ensures EndedKept(s.adds, Next(s, e).adds)
  {
    match e
    case Begin(mode, Some(id)) =>
      ThrottledKeepsEnded(s.(adds := s.adds + [AddCall(mode, id, true, Creating)]), |s.adds|);
    case Created(t, id) =>
      if id != "" && s.regular {
        ThrottledKeepsEnded(s.(adds := s.adds[t := s.adds[t].(executionId := id)]), t);
      }
    case Settle(r) => CallbackKeepsEnded(s, r);
    case RemoveQueued(mode, id) => RemovalKeepsEnded(s, mode, id);
    case Shutdown(cancelAll) => ShutdownNeverCancels(s, cancelAll);
    case _ =>
  }

  lemma NextRecordIsLater(s: State, e: Event, r: nat)
    requires Enabled(s, e) && r < |s.recs|
    ensures r < |Next(s, e).recs| && LaterRecord(s.recs[r], Next(s, e).recs[r])
  {
    if IsMethod(e) {
      MethodsOnlyTouchRecords(s, e);
      assert SameRecord(s.recs[r], Next(s, e).recs[r]);
    }
  }

  lemma NextAnswersAreLater(s: State, e: Event, p: nat)
    requires Enabled(s, e) && p in s.answers
    ensures p in Next(s, e).answers && Next(s, e).answers[p] == s.answers[p]
  {
  }

  lemma NextControlIsLater(s: State, e: Event)
    requires Enabled(s, e)
    ensures Next(s, e).control.isEnabled ==> s.control.isEnabled
    ensures |s.recs| <= |Next(s, e).recs|
  {
  }

  lemma NextIsLater(s: State, e: Event)
    requires Inv(s) && Enabled(s, e)
    ensures Later(s, Next(s, e))
  {
    NextKeepsEnded(s, e);
    NextControlIsLater(s, e);
    forall r | 0 <= r < |s.recs| ensures LaterRecord(s.recs[r], Next(s, e).recs[r]) {
      NextRecordIsLater(s, e, r);
    }
    forall p | p in s.answers ensures p in Next(s, e).answers && Next(s, e).answers[p] == s.answers[p] {
      NextAnswersAreLater(s, e, p);
    }
  }

  lemma {:induction false} RunIsLater(s: State, es: seq<Event>)
    requires Inv(s) && Legal(s, es)
    ensures Later(s, Run(s, es))
    decreases |es|
  {
    if es != [] {
      var n := Next(s, es[0]);
      NextIsLater(s, es[0]);
      NextKeeps(s, es[0]);
      RunIsLater(n, es[1..]);
      forall r | 0 <= r < |s.recs| ensures LaterRecord(s.recs[r], Run(n, es[1..]).recs[r]) {
        assert LaterRecord(s.recs[r], n.recs[r]) && LaterRecord(n.recs[r], Run(n, es[1..]).recs[r]);
      }
    }
  }

  /** A post-execution promise settles at most once: what its waiters see never changes afterwards. */
  lemma PromiseSettlesOnce(s: State, es: seq<Event>, r: nat)
    requires Inv(s) && Legal(s, es) && r < |s.recs| && s.recs[r].promise != Pending
    ensures r < |Run(s, es).recs| && Run(s, es).recs[r].promise == s.recs[r].promise
  {
    RunIsLater(s, es);
    assert LaterRecord(s.recs[r], Run(s, es).recs[r]);
  }

  /** A call that failed after the throttle never gives its slot back. */
  lemma FailedCallsKeepTheirSlot(s: State, es: seq<Event>, t: nat, k: Kind)
    requires Inv(s) && Legal(s, es) && t < |s.adds|
    requires s.adds[t].phase == Failed(true) && KindOf(s.adds[t].mode) == Some(k)
    ensures t < |Run(s, es).adds| && Holds(Run(s, es).adds[t], k)
  {
    RunIsLater(s, es);
  }

  // ---------- Callbacks ----------

  function CallbacksOf(es: seq<Event>, r: nat): nat {
    if es == [] then 0 else (if es[0] == Settle(r) then 1 else 0) + CallbacksOf(es[1..], r)
  }

  function Once(ran: bool): nat { if ran then 1 else 0 }

  lemma NextCallback(s: State, e: Event, r: nat)
    requires Inv(s) && Enabled(s, e) && r < |s.recs|
    ensures r < |Next(s, e).recs| && Next(s, e).recs[r].callbackRan == (s.recs[r].callbackRan || e == Settle(r))
  {
    if IsMethod(e) {
      MethodsOnlyTouchRecords(s, e);
      assert SameRecord(s.recs[r], Next(s, e).recs[r]);
    }
  }

  /** The callback of a record runs at most once in any run, so each `add` releases at most once. */
  lemma {:induction false} CallbackRunsOnce(s: State, es: seq<Event>, r: nat)
    requires Inv(s) && Legal(s, es) && r < |s.recs|
    ensures r < |Run(s, es).recs|
    ensures CallbacksOf(es, r) + Once(s.recs[r].callbackRan) == Once(Run(s, es).recs[r].callbackRan)
    decreases |es|
  {
    if es != [] {
      NextCallback(s, es[0], r);
      NextKeeps(s, es[0]);
      CallbackRunsOnce(Next(s, es[0]), es[1..], r);
    }
  }

  /**
   Stopping an execution that is not waiting settles its waiters for good: no later finalisation shows. Its
   callback runs once; as long as it has not, it is due.
   */
  lemma StopWins(s: State, id: string, es: seq<Event>)
    requires Inv(s) && id in s.active && s.recs[s.active[id]].status != Waiting &&
             s.recs[s.active[id]].promise == Pending
    requires Legal(Stopped(s, id), es)
    ensures var r, m := s.active[id], Run(Stopped(s, id), es);
            && r < |m.recs| && m.recs[r].promise == Cancelled
            && CallbacksOf(es, r) == Once(m.recs[r].callbackRan)
            && (m.recs[r].callbackRan || Enabled(m, Settle(r)))
  {
    NextKeeps(s, Stop(id));
    assert EntryOk(s, id);
    assert RecordOk(s, s.active[id]);
    PromiseSettlesOnce(Stopped(s, id), es, s.active[id]);
    CallbackRunsOnce(Stopped(s, id), es, s.active[id]);
  }

  // ---------- Records that no id leads to ----------

  /** A pending record that is not in the map. */
  predicate Lost(s: State, r: nat) {
    r < |s.recs| && s.recs[r].promise == Pending && !Current(s, r)
  }

  /** An entry after a step was there before, or is of a record registered in the step. */
  lemma EntryAfter(s: State, e: Event, id: string)
    requires Enabled(s, e) && id in Next(s, e).active
    ensures (id in s.active && Next(s, e).active[id] == s.active[id])
         || (e.Register? && s.adds[e.call].executionId == id && Next(s, e).active[id] == |s.recs|)
  {
  }

  lemma PromiseStaysPending(s: State, e: Event, r: nat)
    requires Keyed(s) && Enabled(s, e) && Lost(s, r)
    ensures r < |Next(s, e).recs| && Next(s, e).recs[r].promise == Pending
  {
    NoEntryOfLost(s, r);
    if e.Shutdown? {
      assert AfterShutdown(s, e.cancelAll).recs[r] == SweptRec(ConcurrencyOff(s), e.cancelAll, r);
    }
  }

  lemma NoEntryOfLost(s: State, r: nat)
    requires Keyed(s) && Lost(s, r)
    ensures forall id :: id in s.active ==> s.active[id] != r
  {
    forall id | id in s.active ensures s.active[id] != r {
      assert EntryOk(s, id);
    }
  }

  lemma LostStays(s: State, e: Event, r: nat)
    requires Inv(s) && Enabled(s, e) && Lost(s, r)
    ensures Lost(Next(s, e), r)
  {
    NextRecordIsLater(s, e, r);
    PromiseStaysPending(s, e, r);
    var id := s.recs[r].executionId;
    if id in Next(s, e).active {
      EntryAfter(s, e, id);
    }
  }

  /** A record lost while pending never settles: its callback never runs and its slot stays taken. */
  lemma {:induction false} LostForever(s: State, es: seq<Event>, r: nat)
    requires Inv(s) && Legal(s, es) && Lost(s, r)
    ensures var m := Run(s, es);
            && Lost(m, r) && !m.recs[r].callbackRan
            && m.recs[r].call < |m.adds| && m.adds[m.recs[r].call].phase == Registered
    decreases |es|
  {
    if es == [] {
      assert RecordOk(s, r);
    } else {
      LostStays(s, es[0], r);
      NextKeeps(s, es[0]);
      LostForever(Next(s, es[0]), es[1..], r);
    }
  }
}
