/** Which calls that hold a slot can still give it back, and which have leaked it. */
module SlotLeaks {
  import opened Prelude
  import opened ConcurrencyQueues
  import opened ConcurrencyControl
  import opened Executions
  import opened Slots
  import opened Invariants
  import opened SlotTheorems
  import opened History
  import opened ThrottleBalance

  /** Some continuation runs the callback of the call's record. */
  ghost predicate CanRelease(s: State, t: nat) {
    exists es :: Releasing(s, es, t)
  }

  ghost predicate Releasing(s: State, es: seq<Event>, t: nat) {
    Legal(s, es) && t < |Run(s, es).adds| && Run(s, es).adds[t].phase.Released?
  }

  /** Some continuation gives the slot of the call back: the callback is due and the service will count it. */
  ghost predicate CanReturn(s: State, t: nat) {
    exists es, r: nat :: Returning(s, es, r, t)
  }

  ghost predicate Returning(s: State, es: seq<Event>, r: nat, t: nat) {
    && Legal(s, es) && Enabled(Run(s, es), Settle(r))
    && Run(s, es).recs[r].call == t && Limits(Run(s, es).control, Run(s, es).recs[r].mode)
  }

  /** The call is still to register, or its record can still be settled or has been. */
  ghost predicate HasReturn(s: State, t: nat)
    requires t < |s.adds|
  {
    s.adds[t].phase.Admitted? || exists r :: 0 <= r < |s.recs| && s.recs[r].call == t && !Lost(s, r)
  }

  // ---------- Towards the callback ----------

  /** No removal from a queue. */
  ghost predicate Unremoved(es: seq<Event>) {
    forall i :: 0 <= i < |es| ==> !es[i].RemoveQueued?
  }

  /** The events make the callback of the call's record due, and leave the concurrency service alone. */
  ghost predicate Ready(s: State, es: seq<Event>, r: nat, t: nat) {
    && Legal(s, es) && Unremoved(es) && Enabled(Run(s, es), Settle(r))
    && Run(s, es).recs[r].call == t && Run(s, es).control == s.control
  }

  lemma ReadyStep(s: State, e: Event, es: seq<Event>, r: nat, t: nat)
    requires Enabled(s, e) && !e.RemoveQueued? && Next(s, e).control == s.control && Ready(Next(s, e), es, r, t)
    ensures Ready(s, [e] + es, r, t)
  {
    RunStep(s, es, e);
  }

  lemma RecordReady(s: State, r: nat) returns (es: seq<Event>)
    requires Inv(s) && r < |s.recs| && !s.recs[r].callbackRan && !Lost(s, r)
    ensures Ready(s, es, r, s.recs[r].call)
  {
    if s.recs[r].promise == Pending {
      var finalize := Finalize(s.recs[r].executionId, None);
      assert Next(s, finalize).recs[r] == Edit(s.recs[r], finalize);
      assert Ready(Next(s, finalize), [], r, s.recs[r].call);
      es := [finalize] + [];
      ReadyStep(s, finalize, [], r, s.recs[r].call);
    } else {
      es := [];
    }
  }

  /** A call past the throttle with a return can be brought to its callback. */
  lemma CallReady(s: State, t: nat) returns (es: seq<Event>, r: nat)
    requires Inv(s) && t < |s.adds| && Outstanding(s.adds[t], s.adds[t].mode) && HasReturn(s, t)
    ensures Ready(s, es, r, t)
  {
    if s.adds[t].phase.Admitted? {
      var m := Registration(s, t, 0);
      NextKeeps(s, Register(t, 0));
      r := |s.recs|;
      assert Current(m, r) && m.recs[r].call == t;
      var rest := RecordReady(m, r);
      es := [Register(t, 0)] + rest;
      ReadyStep(s, Register(t, 0), rest, r, t);
    } else {
      r :| r < |s.recs| && s.recs[r].call == t && !Lost(s, r);
      assert RecordOk(s, r);
      es := RecordReady(s, r);
    }
  }

  lemma CallbackReleases(s: State, r: nat)
    requires Inv(s) && Enabled(s, Settle(r))
    ensures var t := s.recs[r].call; t < |Callback(s, r).adds| && Callback(s, r).adds[t].phase.Released?
  {
    var rec := s.recs[r];
    assert RecordOk(s, r);
    AdmittedWereQueued(s.control, s.adds, rec.mode, Dequeue, Admitted);
    RelabelQueued(Relabel(s.adds, rec.call, Released), ReleaseEffect(s.control, rec.mode).admitted, Admitted);
  }

  lemma DueReleases(s: State, es: seq<Event>, r: nat, t: nat)
    requires Inv(s) && Legal(s, es) && Enabled(Run(s, es), Settle(r)) && Run(s, es).recs[r].call == t
    ensures CanRelease(s, t)
  {
    RunKeeps(s, es);
    var m := Run(s, es);
    CallbackReleases(m, r);
    RunStep(m, [], Settle(r));
    assert [Settle(r)] + [] == [Settle(r)];
    RunAppend(s, es, [Settle(r)]);
    assert Releasing(s, es + [Settle(r)], t);
  }

  /** A registered call can release unless its record is lost. */
  lemma RegisteredReleasesIff(s: State, r: nat)
    requires Inv(s) && r < |s.recs| && !s.recs[r].callbackRan
    ensures CanRelease(s, s.recs[r].call) <==> !Lost(s, r)
  {
    if Lost(s, r) {
      forall es | Legal(s, es) ensures !Releasing(s, es, s.recs[r].call) {
        LostForever(s, es, r);
        RunIsLater(s, es);
      }
    } else {
      var es := RecordReady(s, r);
      DueReleases(s, es, r, s.recs[r].call);
    }
  }

  /** A call that failed after the throttle never releases. */
  lemma FailedNeverReleases(s: State, t: nat)
    requires Inv(s) && t < |s.adds| && s.adds[t].phase.Failed?
    ensures !CanRelease(s, t)
    ensures forall r :: 0 <= r < |s.recs| ==> s.recs[r].call != t
  {
    forall es | Legal(s, es) ensures !Releasing(s, es, t) {
      RunIsLater(s, es);
    }
    forall r | 0 <= r < |s.recs| ensures s.recs[r].call != t {
      assert RecordOk(s, r);
    }
  }

  /** The callback of an outstanding call can run exactly when it is to register, or its record is not lost. */
  lemma ReleasesIff(s: State, t: nat)
    requires Inv(s) && Backed(s) && t < |s.adds| && Outstanding(s.adds[t], s.adds[t].mode)
    ensures CanRelease(s, t) <==> HasReturn(s, t)
  {
    if s.adds[t].phase.Failed? {
      FailedNeverReleases(s, t);
    } else if HasReturn(s, t) {
      var es, r := CallReady(s, t);
      DueReleases(s, es, r, t);
    } else {
      assert HasRecord(s, t);
      var r :| 0 <= r < |s.recs| && s.recs[r].call == t;
      assert RecordOk(s, r);
      RegisteredReleasesIff(s, r);
    }
  }

  // ---------- What the service counts ----------

  lemma RelabelKeepsModes(adds: seq<AddCall>, ws: seq<Waiter>, phase: Phase, t: nat)
    requires t < |adds|
    ensures t < |RelabelAll(adds, ws, phase)| && RelabelAll(adds, ws, phase)[t].mode == adds[t].mode
    decreases |ws|
  {
    if ws != [] {
      RelabelKeepsModes(Relabel(adds, ws[0].ticket, phase), ws[1..], phase, t);
    }
  }

  lemma ThrottledKeepsModes(s: State, c: nat, t: nat)
    requires c < |s.adds| && t < |s.adds|
    ensures t < |Throttled(s, c).adds| && Throttled(s, c).adds[t].mode == s.adds[t].mode
  {
    var e := ThrottleEffect(s.control, s.adds[c].mode, Waiter(s.adds[c].executionId, c));
    RelabelKeepsModes(Relabel(s.adds, c, Queued), e.admitted, Admitted, t);
  }

  lemma RemovalKeepsModes(s: State, mode: Mode, id: string, t: nat)
    requires t < |s.adds|
    ensures t < |Removal(s, mode, id).adds| && Removal(s, mode, id).adds[t].mode == s.adds[t].mode
  {
    var gone := RemoveEffectFor(s.control, mode, id);
    RelabelKeepsModes(s.adds, gone.dropped, Dropped, t);
    RelabelKeepsModes(RelabelAll(s.adds, gone.dropped, Dropped), gone.admitted, Admitted, t);
  }

  lemma NextKeepsModes(s: State, e: Event, t: nat)
    requires Inv(s) && Enabled(s, e) && t < |s.adds|
    ensures t < |Next(s, e).adds| && Next(s, e).adds[t].mode == s.adds[t].mode
  {
    match e
    case Begin(mode, Some(id)) =>
      ThrottledKeepsModes(s.(adds := s.adds + [AddCall(mode, id, true, Creating)]), |s.adds|, t);
    case Created(c, id) =>
      if id != "" && s.regular {
        ThrottledKeepsModes(s.(adds := s.adds[c := s.adds[c].(executionId := id)]), c, t);
      }
    case Settle(r) =>
      var released := Relabel(s.adds, s.recs[r].call, Released);
      RelabelKeepsModes(released, ReleaseEffect(s.control, s.recs[r].mode).admitted, Admitted, t);
    case RemoveQueued(mode, id) =>
      RemovalKeepsModes(s, mode, id, t);
    case Shutdown(cancelAll) => ShutdownNeverCancels(s, cancelAll);
    case _ =>
  }

  /** Modes and the kinds of queues are kept by every run, and the service is never turned on again. */
  lemma {:induction false} RunKeepsKinds(s: State, es: seq<Event>, t: nat)
    requires Inv(s) && Legal(s, es) && t < |s.adds|
    ensures var m := Run(s, es);
            && m.control.queues.Keys == s.control.queues.Keys
            && (m.control.isEnabled ==> s.control.isEnabled)
            && t < |m.adds| && m.adds[t].mode == s.adds[t].mode
    decreases |es|
  {
    if es != [] {
      NextKeepsModes(s, es[0], t);
      SameKinds(s, es[0]);
      NextControlIsLater(s, es[0]);
      NextKeeps(s, es[0]);
      RunKeepsKinds(Next(s, es[0]), es[1..], t);
    }
  }

  /**
   A call past the throttle can give its slot back exactly when the service still limits its mode and the
   call is to register, or its record is not lost. Of the calls that hold a slot while the service is on, the
   others have leaked it: those that failed after the throttle and those whose record was lost while pending.
   */
  lemma SlotReturnsIff(s: State, t: nat)
    requires Inv(s) && Backed(s) && t < |s.adds| && Outstanding(s.adds[t], s.adds[t].mode)
    ensures CanReturn(s, t) <==> Limits(s.control, s.adds[t].mode) && HasReturn(s, t)
  {
    if CanReturn(s, t) {
      var es, r: nat :| Returning(s, es, r, t);
      DueIsLimited(s, es, r, t);
      DueReleases(s, es, r, t);
      ReleasesIff(s, t);
    } else if Limits(s.control, s.adds[t].mode) && HasReturn(s, t) {
      var es, r := CallReady(s, t);
      DueMode(s, es, r, t);
      assert Returning(s, es, r, t);
    }
  }

  lemma DueMode(s: State, es: seq<Event>, r: nat, t: nat)
    requires Inv(s) && t < |s.adds| && Legal(s, es) && Enabled(Run(s, es), Settle(r)) && Run(s, es).recs[r].call == t
    ensures Inv(Run(s, es)) && Run(s, es).recs[r].mode == s.adds[t].mode
  {
    RunKeepsKinds(s, es, t);
    RunKeeps(s, es);
    assert RecordOk(Run(s, es), r);
  }

  lemma DueIsLimited(s: State, es: seq<Event>, r: nat, t: nat)
    requires Inv(s) && t < |s.adds| && Returning(s, es, r, t)
    ensures Limits(s.control, s.adds[t].mode)
  {
    DueMode(s, es, r, t);
    RunKeepsKinds(s, es, t);
  }

  /** In every reachable state. */
  lemma ReachedSlotReturnsIff(regular: bool, production: int, evaluation: int, es: seq<Event>, t: nat)
    requires Init(!regular, production, evaluation).Some?
    requires Legal(Start(regular, Init(!regular, production, evaluation).value), es)
    requires var s := Run(Start(regular, Init(!regular, production, evaluation).value), es);
             t < |s.adds| && Outstanding(s.adds[t], s.adds[t].mode)
    ensures var s := Run(Start(regular, Init(!regular, production, evaluation).value), es);
            CanReturn(s, t) <==> Limits(s.control, s.adds[t].mode) && HasReturn(s, t)
  {
    StartIsSound(regular, production, evaluation);
    BackedRun(Start(regular, Init(!regular, production, evaluation).value), es);
    SlotReturnsIff(Run(Start(regular, Init(!regular, production, evaluation).value), es), t);
  }
}
