/**
 Which record an entry of the map belongs to. The settle callback deletes the entry of its id without
 looking whose record is there now; these lemmas say exactly when that is harmless.
 */
module Ownership {
  import opened Prelude
  import opened ConcurrencyQueues
  import opened ConcurrencyControl
  import opened Executions
  import opened Slots
  import opened Invariants
  import opened History

  /** The callback of `r` is due and will delete the entry of its id. */
  predicate DeletionDue(s: State, r: nat) {
    && r < |s.recs|
    && s.recs[r].promise != Pending
    && !s.recs[r].callbackRan
    && s.recs[r].status != Waiting
  }

  /** Every due deletion is of the record's own entry, or of none. */
  ghost predicate OwnDeletions(s: State) {
    forall r: nat :: DeletionDue(s, r) ==> s.recs[r].executionId !in s.active || s.active[s.recs[r].executionId] == r
  }

  /** Registering an id for which the callback of an earlier record is due. */
  ghost predicate Endangers(s: State, e: Event) {
    && e.Register? && e.call < |s.adds|
    && exists r: nat :: DeletionDue(s, r) && s.recs[r].executionId == s.adds[e.call].executionId
  }

  /** A method settles a promise, or takes a record out of the waiting ones, only where it leaves the entry. */
  lemma MethodMakesDue(s: State, e: Event, r: nat)
    requires IsMethod(e) && r < |s.recs| && r < |Next(s, e).recs|
    requires DeletionDue(Next(s, e), r) && !DeletionDue(s, r) && Keyed(s)
    ensures Current(s, r) && Next(s, e).active == s.active
  {
  }

  lemma ShutdownMakesDue(s: State, cancelAll: bool, r: nat)
    requires r < |s.recs| && DeletionDue(AfterShutdown(s, cancelAll), r) && !DeletionDue(s, r)
    ensures Current(s, r) && Survives(s, cancelAll, s.recs[r].executionId)
  {
    assert AfterShutdown(s, cancelAll).recs[r] == SweptRec(ConcurrencyOff(s), cancelAll, r);
  }

  lemma OthersMakeNoneDue(s: State, e: Event, r: nat)
    requires Enabled(s, e) && !IsMethod(e) && !e.Shutdown? && r < |s.recs|
    ensures r < |Next(s, e).recs| && (DeletionDue(Next(s, e), r) ==> DeletionDue(s, r))
  {
  }

  /** A deletion becomes due only for the record its id leads to, which it still does. */
  lemma RecordAfter(s: State, e: Event, r: nat)
    requires Inv(s) && Enabled(s, e) && r < |s.recs|
    ensures r < |Next(s, e).recs|
    ensures DeletionDue(Next(s, e), r) && !DeletionDue(s, r) ==> Current(s, r) && Current(Next(s, e), r)
    ensures Next(s, e).recs[r].executionId == s.recs[r].executionId
  {
    NextRecordIsLater(s, e, r);
    if DeletionDue(Next(s, e), r) && !DeletionDue(s, r) {
      if IsMethod(e) {
        MethodMakesDue(s, e, r);
      } else if e.Shutdown? {
        ShutdownMakesDue(s, e.cancelAll, r);
      } else {
        OthersMakeNoneDue(s, e, r);
      }
    }
  }

  lemma NewRecordsArePending(s: State, e: Event, r: nat)
    requires Enabled(s, e) && |s.recs| <= r < |Next(s, e).recs|
    ensures Next(s, e).recs[r].promise == Pending
  {
  }

  lemma OwnDeletionsStep(s: State, e: Event)
    requires Inv(s) && OwnDeletions(s) && Enabled(s, e) && !Endangers(s, e)
    ensures OwnDeletions(Next(s, e))
  {
    var m := Next(s, e);
    forall r: nat | DeletionDue(m, r)
      ensures m.recs[r].executionId !in m.active || m.active[m.recs[r].executionId] == r
    {
      if r < |s.recs| {
        var id := s.recs[r].executionId;
        RecordAfter(s, e, r);
        if id in m.active {
          EntryAfter(s, e, id);
        }
      } else {
        NewRecordsArePending(s, e, r);
      }
    }
  }

  /**
   The due deletions stay harmless in a step exactly when it does not register an id with a due deletion;
   otherwise the callback, which can run next, deletes the new record's entry.
   */
  lemma OwnDeletionsIff(s: State, e: Event)
    requires Inv(s) && OwnDeletions(s) && Enabled(s, e)
    ensures OwnDeletions(Next(s, e)) <==> !Endangers(s, e)
  {
    if Endangers(s, e) {
      var r: nat :| DeletionDue(s, r) && s.recs[r].executionId == s.adds[e.call].executionId;
      NewEntryIsDeleted(s, e.call, e.now, r);
    } else {
      OwnDeletionsStep(s, e);
    }
  }

  lemma NewEntryIsDeleted(s: State, t: nat, now: nat, r: nat)
    requires Inv(s) && Enabled(s, Register(t, now))
    requires DeletionDue(s, r) && s.recs[r].executionId == s.adds[t].executionId
    ensures var id, m := s.adds[t].executionId, Registration(s, t, now);
            && DeletionDue(m, r) && Enabled(m, Settle(r))
            && id in m.active && m.active[id] == |s.recs|
            && id !in Callback(m, r).active
            && Lost(Callback(m, r), |s.recs|)
  {
  }

  ghost predicate NeverEndangers(s: State, es: seq<Event>)
    requires Legal(s, es)
    decreases |es|
  {
    es == [] || (!Endangers(s, es[0]) && NeverEndangers(Next(s, es[0]), es[1..]))
  }

  ghost predicate AlwaysOwnDeletions(s: State, es: seq<Event>)
    requires Legal(s, es)
    decreases |es|
  {
    OwnDeletions(s) && (es == [] || AlwaysOwnDeletions(Next(s, es[0]), es[1..]))
  }

  /** Over every run, with any number of waits, resumptions and late callbacks. */
  lemma {:induction false} CallbacksDeleteOwnIff(s: State, es: seq<Event>)
    requires Inv(s) && OwnDeletions(s) && Legal(s, es)
    ensures AlwaysOwnDeletions(s, es) <==> NeverEndangers(s, es)
    decreases |es|
  {
    if es != [] {
      OwnDeletionsIff(s, es[0]);
      NextKeeps(s, es[0]);
      if !Endangers(s, es[0]) {
        CallbacksDeleteOwnIff(Next(s, es[0]), es[1..]);
      }
    }
  }

  /** In other words, no callback that can run next takes an entry of another record out of the map. */
  lemma OwnDeletionsMeans(s: State)
    requires Inv(s)
    ensures OwnDeletions(s) <==> forall r: nat, id :: OthersEntry(s, r, id) ==> id in Callback(s, r).active
  {
    forall r: nat, id | OwnDeletions(s) && OthersEntry(s, r, id) ensures id in Callback(s, r).active {
      assert s.recs[r].status != Waiting ==> DeletionDue(s, r);
    }
    if r: nat :| DeletionDue(s, r) && s.recs[r].executionId in s.active && s.active[s.recs[r].executionId] != r {
      assert OthersEntry(s, r, s.recs[r].executionId);
    }
  }

  /** The callback of `r` can run next, and `id` leads to another record. */
  predicate OthersEntry(s: State, r: nat, id: string) {
    Enabled(s, Settle(r)) && id in s.active && s.active[id] != r
  }

  /** What a callback then does to the map: its own entry goes unless it is waiting, every other one stays. */
  lemma CallbackTouchesOwnEntry(s: State, r: nat)
    requires Inv(s) && OwnDeletions(s) && Enabled(s, Settle(r))
    ensures forall id :: id in s.active && s.active[id] != r ==>
              id in Callback(s, r).active && Callback(s, r).active[id] == s.active[id]
    ensures Current(s, r) && s.recs[r].status != Waiting ==> !Current(Callback(s, r), r)
  {
    forall id | id in s.active && s.active[id] != r ensures id in Callback(s, r).active {
      assert s.recs[r].status != Waiting ==> DeletionDue(s, r);
    }
  }

  // ---------- The callers' discipline ----------

  /** Resume an execution only when each of its earlier records is waiting or has run its callback. */
  ghost predicate Disciplined(s: State, e: Event) {
    e.Register? && e.call < |s.adds| ==>
      forall r :: 0 <= r < |s.recs| && s.recs[r].executionId == s.adds[e.call].executionId ==>
        s.recs[r].status == Waiting || s.recs[r].callbackRan
  }

  lemma DisciplineSuffices(s: State, e: Event)
    requires Inv(s) && Enabled(s, e) && Disciplined(s, e)
    ensures !Endangers(s, e)
  {
  }

  ghost predicate AlwaysDisciplined(s: State, es: seq<Event>)
    requires Legal(s, es)
    decreases |es|
  {
    es == [] || (Disciplined(s, es[0]) && AlwaysDisciplined(Next(s, es[0]), es[1..]))
  }

  /** Disciplined callers never see a callback delete another record's entry, over any run. */
  lemma {:induction false} DisciplinedRuns(s: State, es: seq<Event>)
    requires Inv(s) && OwnDeletions(s) && Legal(s, es) && AlwaysDisciplined(s, es)
    ensures AlwaysOwnDeletions(s, es) && Inv(Run(s, es)) && OwnDeletions(Run(s, es))
    decreases |es|
  {
    if es != [] {
      DisciplineSuffices(s, es[0]);
      OwnDeletionsIff(s, es[0]);
      NextKeeps(s, es[0]);
      DisciplinedRuns(Next(s, es[0]), es[1..]);
    }
  }

  // ---------- How a record leaves the map ----------

  /** The steps that take a pending record out of the map; the first is another record's callback. */
  predicate Strands(s: State, e: Event, r: nat)
    requires r < |s.recs|
  {
    var rec := s.recs[r];
    match e
    case Settle(q) => DeletionDue(s, q) && s.recs[q].executionId == rec.executionId
    case Stop(id) => id == rec.executionId && rec.status == Waiting
    case Shutdown(cancelAll) => !Survives(s, cancelAll, rec.executionId)
    case Register(t, _) => t < |s.adds| && s.adds[t].executionId == rec.executionId
    case _ => false
  }

  /** A pending record leaves the map exactly in those steps; it is then lost for good (`LostForever`). */
  lemma PendingLeavesIff(s: State, e: Event, r: nat)
    requires Inv(s) && Enabled(s, e)
    requires Current(s, r) && s.recs[r].promise == Pending
    ensures !Current(Next(s, e), r) <==> Strands(s, e, r)
    ensures Strands(s, e, r) ==> Lost(Next(s, e), r)
  {
    NextRecordIsLater(s, e, r);
    if Strands(s, e, r) {
      StrandedStaysPending(s, e, r);
    }
    if e.Settle? {
      CallbackIff(s, e.rec, r);
    } else if e.Shutdown? {
      SweptIff(s, e.cancelAll, r);
    } else if e.Stop? {
      StoppedIff(s, e.id, r);
    } else if !e.Register? {
      MapUntouched(s, e);
    }
  }

  lemma StrandedStaysPending(s: State, e: Event, r: nat)
    requires Inv(s) && Enabled(s, e) && Current(s, r) && s.recs[r].promise == Pending && Strands(s, e, r)
    ensures r < |Next(s, e).recs| && Next(s, e).recs[r].promise == Pending
  {
    if e.Shutdown? {
      assert AfterShutdown(s, e.cancelAll).recs[r] == SweptRec(ConcurrencyOff(s), e.cancelAll, r);
    }
  }

  lemma SweptIff(s: State, cancelAll: bool, r: nat)
    requires Current(s, r)
    ensures Current(AfterShutdown(s, cancelAll), r) <==> Survives(s, cancelAll, s.recs[r].executionId)
  {
  }

  lemma StoppedIff(s: State, id: string, r: nat)
    requires Keyed(s) && Current(s, r)
    ensures Current(Stopped(s, id), r) <==> !(id == s.recs[r].executionId && s.recs[r].status == Waiting)
  {
    assert id in s.active ==> EntryOk(s, id);
  }

  lemma CallbackIff(s: State, q: nat, r: nat)
    requires Enabled(s, Settle(q)) && Current(s, r) && q != r
    ensures Current(Callback(s, q), r) <==> !(DeletionDue(s, q) && s.recs[q].executionId == s.recs[r].executionId)
  {
  }

  lemma MapUntouched(s: State, e: Event)
    requires Enabled(s, e) && !e.Settle? && !e.Shutdown? && !e.Register? && !e.Stop?
    ensures Next(s, e).active == s.active
  {
  }

  /** Under the discipline, a record that is neither waiting nor new leaves the map only after it settled. */
  lemma LeavesOnlySettled(s: State, e: Event, r: nat)
    requires Inv(s) && OwnDeletions(s) && Enabled(s, e) && Disciplined(s, e)
    requires Current(s, r) && s.recs[r].status != Waiting && s.recs[r].status != New
    requires !Current(Next(s, e), r)
    ensures s.recs[r].promise != Pending
  {
    assert RecordOk(s, r);
    if s.recs[r].promise == Pending {
      PendingLeavesIff(s, e, r);
    }
  }

  /** The same for every state that disciplined callers reach from the start. */
  lemma ReachedLeavesOnlySettled(regular: bool, control: Control, es: seq<Event>, e: Event, r: nat)
    requires Inv(Start(regular, control)) && Legal(Start(regular, control), es) &&
             AlwaysDisciplined(Start(regular, control), es)
    requires var s := Run(Start(regular, control), es);
             && Enabled(s, e) && Disciplined(s, e)
             && Current(s, r) && s.recs[r].status != Waiting && s.recs[r].status != New && !Current(Next(s, e), r)
    ensures Run(Start(regular, control), es).recs[r].promise != Pending
  {
    DisciplinedRuns(Start(regular, control), es);
    LeavesOnlySettled(Run(Start(regular, control), es), e, r);
  }

  // ---------- What a resumed execution keeps ----------

  ghost predicate PresentThroughout(s: State, es: seq<Event>, id: string)
    requires Legal(s, es)
    decreases |es|
  {
    id in s.active && (es == [] || PresentThroughout(Next(s, es[0]), es[1..], id))
  }

  ghost predicate Attaches(es: seq<Event>, id: string) {
    exists i :: 0 <= i < |es| && es[i].AttachResponsePromise? && es[i].id == id
  }

  lemma EntryKeeps(s: State, e: Event, id: string)
    requires Inv(s) && Enabled(s, e) && id in s.active && id in Next(s, e).active
    ensures Next(s, e).active[id] < |Next(s, e).recs|
    ensures var a, b := s.recs[s.active[id]], Next(s, e).recs[Next(s, e).active[id]];
            && b.startedAt == a.startedAt
            && (!(e.AttachResponsePromise? && e.id == id) ==> b.responsePromise == a.responsePromise)
  {
    assert EntryOk(s, id);
    EntryAfter(s, e, id);
    NextRecordIsLater(s, e, s.active[id]);
    if !(e.AttachResponsePromise? && e.id == id) {
      assert e.AttachResponsePromise? && e.id in s.active ==> EntryOk(s, e.id);
      ResponsePromiseKept(s, e, s.active[id]);
    }
  }

  lemma ResponsePromiseKept(s: State, e: Event, r: nat)
    requires Enabled(s, e) && r < |s.recs|
    requires e.AttachResponsePromise? ==> Find(s, e.id) != Some(r)
    ensures r < |Next(s, e).recs| && Next(s, e).recs[r].responsePromise == s.recs[r].responsePromise
  {
  }

  /**
   While an id stays in the map, its start time never changes, however often it is resumed, and its
   response promise changes only by being attached.
   */
  lemma {:induction false} ResumptionKeeps(s: State, es: seq<Event>, id: string)
    requires Inv(s) && Legal(s, es) && PresentThroughout(s, es, id)
    ensures var m := Run(s, es);
            && id in m.active && m.active[id] < |m.recs|
            && m.recs[m.active[id]].startedAt == s.recs[s.active[id]].startedAt
            && (!Attaches(es, id) ==> m.recs[m.active[id]].responsePromise == s.recs[s.active[id]].responsePromise)
    decreases |es|
  {
    if es == [] {
      assert EntryOk(s, id);
    } else {
      EntryKeeps(s, es[0], id);
      NextKeeps(s, es[0]);
      ResumptionKeeps(Next(s, es[0]), es[1..], id);
      if !Attaches(es, id) {
        assert !(es[0].AttachResponsePromise? && es[0].id == id);
        forall i | 0 <= i < |es[1..]| ensures !(es[1..][i].AttachResponsePromise? && es[1..][i].id == id) {
          assert es[1..][i] == es[i + 1];
        }
      }
    }
  }
}
