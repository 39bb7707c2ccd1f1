/** The shutdown sweep and the loop that then waits for the map to empty. */
module Draining {
  import opened Prelude
  import opened ConcurrencyQueues
  import opened ConcurrencyControl
  import opened Executions
  import opened Slots
  import opened Invariants
  import opened History
  import opened Ownership
  import opened SlotTheorems

  // ---------- The sweep, one entry after the other ----------

  /** The body of the sweep's loop. */
  function SweepOne(s: State, cancelAll: bool, id: string): State {
    var found := Find(s, id);
    if found.None? then s
    else
      var rec := s.recs[found.value];
      if rec.responsePromise.Some? || (s.regular && cancelAll) then Stopped(s, id)
      else if rec.status == Waiting || rec.status == New then s.(active := s.active - {id})
      else s
  }

  function SweepEach(s: State, cancelAll: bool, ids: seq<string>): State
    decreases |ids|
  {
    if ids == [] then s else SweepEach(SweepOne(s, cancelAll, ids[0]), cancelAll, ids[1..])
  }

  lemma NotYetVisited(s: State, cancelAll: bool, done: set<string>, id: string)
    requires Keyed(s) && id in s.active && id !in done
    ensures Find(s, id) == Some(s.active[id])
    ensures var m := SweptAt(s, cancelAll, done);
            && Find(m, id) == Some(s.active[id]) && m.recs[s.active[id]] == s.recs[s.active[id]]
            && Doomed(m, cancelAll, id) == Doomed(s, cancelAll, id)
            && Survives(m, cancelAll, id) == Survives(s, cancelAll, id)
  {
    assert EntryOk(s, id);
  }

  lemma SweepOneMap(s: State, cancelAll: bool, done: set<string>, id: string)
    requires Keyed(s) && id in s.active && id !in done
    ensures SweepOne(SweptAt(s, cancelAll, done), cancelAll, id).active == SweptAt(s, cancelAll, done + {id}).active
  {
    NotYetVisited(s, cancelAll, done, id);
    var m, n := SweptAt(s, cancelAll, done), SweptAt(s, cancelAll, done + {id});
    assert id in m.active;
    assert n.active == if Survives(s, cancelAll, id) then m.active else m.active - {id};
    SweepOneRemoves(m, cancelAll, id);
  }

  lemma SweepOneRemoves(s: State, cancelAll: bool, id: string)
    requires Find(s, id).Some?
    ensures SweepOne(s, cancelAll, id).active == if Survives(s, cancelAll, id) then s.active else s.active - {id}
  {
  }

  lemma SweepOneRecs(s: State, cancelAll: bool, done: set<string>, id: string)
    requires Keyed(s) && id in s.active && id !in done
    ensures SweepOne(SweptAt(s, cancelAll, done), cancelAll, id).recs == SweptAt(s, cancelAll, done + {id}).recs
  {
    NotYetVisited(s, cancelAll, done, id);
    var r := s.active[id];
    var m, n := SweptAt(s, cancelAll, done), SweptAt(s, cancelAll, done + {id});
    forall q | 0 <= q < |s.recs| && q != r ensures n.recs[q] == m.recs[q] {
      if s.recs[q].executionId == id {
        assert !Current(s, q);
      }
    }
    assert Current(s, r);
    var o := SweepOne(m, cancelAll, id);
    assert n.recs == m.recs[r := SweptRec(s, cancelAll, r)];
    assert o.recs == m.recs[r := SweptRec(s, cancelAll, r)] || o.recs == m.recs;
  }

  lemma RefuseTwice(answers: map<nat, Answer>, a: set<nat>, b: set<nat>)
    ensures Refuse(Refuse(answers, a), b) == Refuse(answers, a + b)
  {
  }

  lemma RefuseOption(answers: map<nat, Answer>, p: Option<nat>)
    ensures Refuse(answers, OptionSet(p)) == AnswerOnce(answers, p, Refused)
    ensures Refuse(answers, {}) == answers
  {
  }

  lemma SweepOneAnswers(s: State, cancelAll: bool, done: set<string>, id: string)
    requires Keyed(s) && id in s.active && id !in done
    ensures SweepOne(SweptAt(s, cancelAll, done), cancelAll, id).answers == SweptAt(s, cancelAll, done + {id}).answers
  {
    var m, p := SweptAt(s, cancelAll, done), s.recs[s.active[id]].responsePromise;
    var more := if Doomed(s, cancelAll, id) then OptionSet(p) else {};
    NotYetVisited(s, cancelAll, done, id);
    SweepOneEffects(m, cancelAll, id);
    RefuseOption(m.answers, p);
    assert SweepOne(m, cancelAll, id).answers == Refuse(m.answers, more);
    RefusedGrows(s, cancelAll, done, id);
    RefuseTwice(s.answers, RefusedAt(s, cancelAll, done), more);
  }

  lemma SweepOneCancels(s: State, cancelAll: bool, done: set<string>, id: string)
    requires Keyed(s) && id in s.active && id !in done
    ensures SweepOne(SweptAt(s, cancelAll, done), cancelAll, id).cancelledRuns
         == SweptAt(s, cancelAll, done + {id}).cancelledRuns
  {
    NotYetVisited(s, cancelAll, done, id);
    SweepOneEffects(SweptAt(s, cancelAll, done), cancelAll, id);
    CancelledGrows(s, cancelAll, done, id);
  }

  lemma SweepOneEffects(s: State, cancelAll: bool, id: string)
    requires Find(s, id).Some?
    ensures var o, rec := SweepOne(s, cancelAll, id), s.recs[s.active[id]];
            && o.answers == (if Doomed(s, cancelAll, id) then AnswerOnce(s.answers, rec.responsePromise, Refused)
                             else s.answers)
            && o.cancelledRuns == s.cancelledRuns
                 + (if Doomed(s, cancelAll, id) && Survives(s, cancelAll, id) then OptionSet(rec.workflowExecution)
                    else {})
  {
  }

  lemma SweepOneStep(s: State, cancelAll: bool, done: set<string>, id: string)
    requires Keyed(s) && id in s.active && id !in done
    ensures SweepOne(SweptAt(s, cancelAll, done), cancelAll, id) == SweptAt(s, cancelAll, done + {id})
  {
    SweepOneMap(s, cancelAll, done, id);
    SweepOneRecs(s, cancelAll, done, id);
    SweepOneAnswers(s, cancelAll, done, id);
    SweepOneCancels(s, cancelAll, done, id);
  }

  lemma RefusedGrows(s: State, cancelAll: bool, done: set<string>, id: string)
    requires Keyed(s) && id in s.active && id !in done
    ensures RefusedAt(s, cancelAll, done + {id})
         == RefusedAt(s, cancelAll, done) +
            (if Doomed(s, cancelAll, id) then OptionSet(s.recs[s.active[id]].responsePromise) else {})
  {
    assert EntryOk(s, id);
  }

  lemma CancelledGrows(s: State, cancelAll: bool, done: set<string>, id: string)
    requires Keyed(s) && id in s.active && id !in done
    ensures CancelledAt(s, cancelAll, done + {id})
         == CancelledAt(s, cancelAll, done)
            + (if Doomed(s, cancelAll, id) && Survives(s, cancelAll, id)
               then OptionSet(s.recs[s.active[id]].workflowExecution) else {})
  {
    assert EntryOk(s, id);
  }

  ghost predicate Enumerates(ids: seq<string>, keys: set<string>) {
    && Distinct(ids)
    && (forall id :: id in ids <==> id in keys)
  }

  ghost function SetOf(ids: seq<string>): set<string> {
    set id | id in ids
  }

  lemma SetOfPrefix(ids: seq<string>, i: nat)
    requires Distinct(ids) && i < |ids|
    ensures ids[i] in ids && ids[i] !in SetOf(ids[..i])
    ensures SetOf(ids[..i + 1]) == SetOf(ids[..i]) + {ids[i]}
  {
    PrefixGrows(ids, i);
  }

  lemma SetOfAll(ids: seq<string>, keys: set<string>)
    requires Enumerates(ids, keys)
    ensures SetOf(ids[..0]) == {} && SetOf(ids[..|ids|]) == keys
    ensures forall i :: 0 <= i < |ids| ==> ids[i] in keys
  {
    assert ids[..|ids|] == ids;
  }

  lemma {:induction false} SweepEachStep(s: State, cancelAll: bool, done: seq<string>, rest: seq<string>)
    requires Keyed(s) && Distinct(done + rest) && forall id :: id in done + rest ==> id in s.active
    ensures SweepEach(SweptAt(s, cancelAll, set id | id in done), cancelAll, rest)
         == SweptAt(s, cancelAll, set id | id in done + rest)
    decreases |rest|
  {
    if rest == [] {
      assert done + rest == done;
    } else {
      var id := rest[0];
      assert id in done + rest && (done + rest)[|done|] == id;
      assert id !in done by {
        assert forall k :: 0 <= k < |done| ==> (done + rest)[k] == done[k];
      }
      SweepOneStep(s, cancelAll, (set i | i in done), id);
      assert (set i | i in done) + {id} == set i | i in done + [id];
      assert done + [id] + rest[1..] == done + rest;
      SweepEachStep(s, cancelAll, done + [id], rest[1..]);
    }
  }

  lemma NothingSwept(s: State, cancelAll: bool)
    ensures SweptAt(s, cancelAll, {}) == s
  {
    var m := SweptAt(s, cancelAll, {});
    assert m.recs == s.recs && m.active == s.active;
    assert RefusedAt(s, cancelAll, {}) == {} && CancelledAt(s, cancelAll, {}) == {};
    assert m.answers == s.answers && m.cancelledRuns == s.cancelledRuns;
  }

  lemma SameToCancel(s: State, cancelAll: bool, toCancel: set<string>)
    ensures ToCancel(ConcurrencyOff(s), cancelAll) == ToCancel(s, cancelAll)
    ensures (forall id :: id in toCancel <==> id in ToCancel(ConcurrencyOff(s), cancelAll)) ==>
              toCancel == ToCancel(s, cancelAll)
  {
  }

  /** The sweep does not depend on the order in which the keys are visited. */
  lemma SweepOrderIrrelevant(s: State, cancelAll: bool, ids: seq<string>)
    requires Keyed(s) && Enumerates(ids, s.active.Keys)
    ensures SweepEach(s, cancelAll, ids) == Swept(s, cancelAll)
  {
    var none: seq<string> := [];
    assert none + ids == ids;
    assert (set id | id in none) == {} && (set id | id in ids) == s.active.Keys;
    SweepEachStep(s, cancelAll, none, ids);
    NothingSwept(s, cancelAll);
  }

  /** After the sweep no entry is waiting, and an entry that is still new has been cancelled. */
  lemma AfterTheSweep(s: State, cancelAll: bool, id: string)
    requires Keyed(s) && id in AfterShutdown(s, cancelAll).active
    ensures var m := AfterShutdown(s, cancelAll);
            && id in s.active && m.active[id] == s.active[id] && m.active[id] < |m.recs|
            && m.recs[m.active[id]].status != Waiting
            && (m.recs[m.active[id]].status == New ==> m.recs[m.active[id]].promise != Pending)
  {
    assert EntryOk(s, id);
    assert AfterShutdown(s, cancelAll).recs[s.active[id]] == SweptRec(s, cancelAll, s.active[id]);
  }

  /**
   Exactly the entries with a response promise, or all of them in regular mode when asked to, are stopped:
   those waiting leave the map, the others are settled and stay until their callback runs.
   */
  lemma WhoIsStopped(s: State, cancelAll: bool, id: string)
    requires Keyed(s) && id in s.active
    ensures s.active[id] < |s.recs|
    ensures var m, rec := AfterShutdown(s, cancelAll), s.recs[s.active[id]];
            && (id in ToCancel(s, cancelAll) <==> rec.responsePromise.Some? || (s.regular && cancelAll))
            && (id in ToCancel(s, cancelAll) && rec.status != Waiting ==>
                  id in m.active && m.recs[s.active[id]].promise != Pending)
            && (id in m.active <==> rec.status != Waiting && (id in ToCancel(s, cancelAll) || rec.status != New))
            && (id !in ToCancel(s, cancelAll) ==> m.recs[s.active[id]] == rec)
  {
    assert EntryOk(s, id);
    assert AfterShutdown(s, cancelAll).recs[s.active[id]] == SweptRec(s, cancelAll, s.active[id]);
  }

  // ---------- Draining ----------

  /** The steps that can happen while shutdown waits: nothing registers and nothing is set to waiting. */
  predicate DrainStep(e: Event) {
    !e.Register? && !(e.SetStatus? && e.status == Waiting) && !e.Shutdown?
  }

  ghost predicate NoneWaiting(s: State) {
    forall id :: id in s.active && s.active[id] < |s.recs| ==> s.recs[s.active[id]].status != Waiting
  }

  /** A callback is due that will delete the entry of the id, be it that entry's own or an earlier record's. */
  ghost predicate DueFor(s: State, id: string) {
    exists q: nat :: DeletionDue(s, q) && s.recs[q].executionId == id
  }

  /** In the map and not waiting, although its callback has run: its own callback will not remove it. */
  predicate StuckAt(s: State, id: string) {
    var found := Find(s, id);
    found.Some? && s.recs[found.value].callbackRan && s.recs[found.value].status != Waiting
  }

  /** No callback will remove the entry: its own has run, and none of an earlier record is due. */
  ghost predicate Blocks(s: State, id: string) {
    StuckAt(s, id) && !DueFor(s, id)
  }

  ghost predicate Settled(s: State) {
    && (forall id :: id in s.active && s.active[id] < |s.recs| ==> s.recs[s.active[id]].promise != Pending)
    && (forall r :: 0 <= r < |s.recs| && s.recs[r].promise != Pending ==> s.recs[r].callbackRan)
  }

  lemma DrainKeepsRecord(s: State, e: Event, r: nat)
    requires Inv(s) && Enabled(s, e) && DrainStep(e) && r < |s.recs| && e != Settle(r)
    ensures |Next(s, e).recs| == |s.recs|
    ensures Next(s, e).recs[r].executionId == s.recs[r].executionId
    ensures Next(s, e).recs[r].callbackRan == s.recs[r].callbackRan
    ensures Next(s, e).recs[r].status == Waiting ==> s.recs[r].status == Waiting
    ensures !Current(s, r) ==> Next(s, e).recs[r] == s.recs[r]
  {
    DrainStepAddsNone(s, e);
    if IsMethod(e) {
      MethodsOnlyTouchRecords(s, e);
      assert SameRecord(s.recs[r], Next(s, e).recs[r]);
      StatusAfter(s, e, r);
      if !Current(s, r) {
        MethodEditsCurrent(s, e, r);
      }
    } else {
      RecordsUntouched(s, e, r);
    }
  }

  lemma MethodEditsCurrent(s: State, e: Event, r: nat)
    requires IsMethod(e) && Keyed(s) && r < |s.recs| && !Current(s, r)
    ensures r < |Next(s, e).recs| && Next(s, e).recs[r] == s.recs[r]
  {
    if (e.Stop? || e.Finalize? || e.SetStatus?) && e.id in s.active {
      assert EntryOk(s, e.id);
    }
    if (e.AttachWorkflowExecution? || e.AttachResponsePromise?) && e.id in s.active {
      assert EntryOk(s, e.id);
    }
  }

  lemma RecordsUntouched(s: State, e: Event, r: nat)
    requires Enabled(s, e) && !IsMethod(e) && !e.Shutdown? && r < |s.recs| && e != Settle(r)
    ensures r < |Next(s, e).recs| && Next(s, e).recs[r] == s.recs[r]
  {
  }

  lemma DrainKeepsEntry(s: State, e: Event, id: string)
    requires Inv(s) && NoneWaiting(s) && Enabled(s, e) && DrainStep(e) && !e.Settle?
    ensures id in Next(s, e).active <==> id in s.active
    ensures id in s.active ==> Next(s, e).active[id] == s.active[id]
  {
    if e.Stop? {
      assert e.id in s.active ==> EntryOk(s, e.id);
    } else {
      MapUntouched(s, e);
    }
  }

  /** While shutdown waits, only callbacks change the map. */
  lemma DrainKeepsMap(s: State, e: Event)
    requires Inv(s) && NoneWaiting(s) && Enabled(s, e) && DrainStep(e) && !e.Settle?
    ensures Next(s, e).active == s.active && NoneWaiting(Next(s, e))
  {
    forall id ensures id in Next(s, e).active <==> id in s.active
      ensures id in s.active ==> Next(s, e).active[id] == s.active[id] < |s.recs|
      ensures id in s.active ==> s.active[id] < |Next(s, e).recs| && Next(s, e).recs[s.active[id]].status != Waiting
    {
      DrainKeepsEntry(s, e, id);
      if id in s.active {
        assert EntryOk(s, id);
        DrainKeepsRecord(s, e, s.active[id]);
      }
    }
  }

  /** If the entry of an id has run its callback, the due deletions of that id are of records not in the map. */
  lemma DueIsElsewhere(s: State, q: nat)
    requires Keyed(s) && DeletionDue(s, q)
    requires Find(s, s.recs[q].executionId).Some? && s.recs[s.active[s.recs[q].executionId]].callbackRan
    ensures !Current(s, q)
  {
  }

  lemma DueKept(s: State, e: Event, id: string)
    requires Inv(s) && NoneWaiting(s) && Enabled(s, e) && DrainStep(e)
    requires !(e.Settle? && s.recs[e.rec].executionId == id)
    requires Find(s, id).Some? && s.recs[s.active[id]].callbackRan
    requires Next(s, e).active.Keys <= s.active.Keys && Find(Next(s, e), id) == Find(s, id)
    requires Next(s, e).recs[s.active[id]].callbackRan
    ensures DueFor(Next(s, e), id) <==> DueFor(s, id)
  {
    var m := Next(s, e);
    forall q: nat | DeletionDue(s, q) && s.recs[q].executionId == id
      ensures DeletionDue(m, q) && m.recs[q].executionId == id
    {
      DueIsElsewhere(s, q);
      DrainKeepsRecord(s, e, q);
    }
    forall q: nat | DeletionDue(m, q) && m.recs[q].executionId == id
      ensures DeletionDue(s, q) && s.recs[q].executionId == id
    {
      DrainStepAddsNone(s, e);
      NextRecordIsLater(s, e, q);
      assert q != s.active[id];
      DrainKeepsRecord(s, e, q);
    }
  }

  lemma DrainStepAddsNone(s: State, e: Event)
    requires Enabled(s, e) && DrainStep(e)
    ensures |Next(s, e).recs| == |s.recs|
  {
  }

  /** The map after a callback; if nothing waits, the callback of an entry's record takes that entry out. */
  lemma DrainSettle(s: State, r: nat)
    requires Inv(s) && NoneWaiting(s) && Enabled(s, Settle(r))
    ensures Callback(s, r).active
         == if s.recs[r].status == Waiting then s.active else s.active - {s.recs[r].executionId}
    ensures s.recs[r].status == Waiting ==> !Current(s, r)
    ensures Find(s, s.recs[r].executionId).Some? && s.recs[r].status != Waiting ==>
              |Callback(s, r).active| == |s.active| - 1
    ensures NoneWaiting(Callback(s, r))
  {
    if s.recs[r].executionId in s.active {
      SmallerMap(s.active, s.recs[r].executionId);
    }
    OtherRecordsKept(s, r);
    SettleLeavesNoneWaiting(s, r);
  }

  lemma OtherRecordsKept(s: State, r: nat)
    requires r < |s.recs|
    ensures |Callback(s, r).recs| == |s.recs|
    ensures Callback(s, r).recs[r].status == s.recs[r].status
    ensures forall q :: 0 <= q < |s.recs| && q != r ==> Callback(s, r).recs[q] == s.recs[q]
  {
  }

  lemma SettleLeavesNoneWaiting(s: State, r: nat)
    requires Inv(s) && NoneWaiting(s) && Enabled(s, Settle(r))
    ensures NoneWaiting(Callback(s, r))
  {
    var m := Callback(s, r);
    OtherRecordsKept(s, r);
    forall id | id in m.active ensures m.active[id] < |m.recs| && m.recs[m.active[id]].status != Waiting {
      assert id in s.active && m.active[id] == s.active[id] && EntryOk(s, id);
    }
  }

  lemma SmallerMap(m: map<string, nat>, id: string)
    requires id in m
    ensures |m - {id}| == |m| - 1
  {
    assert m.Keys == (m - {id}).Keys + {id};
  }

  /** No step of the drain makes an entry stuck, or frees a stuck one. */
  lemma BlockKept(s: State, e: Event, id: string)
    requires Inv(s) && NoneWaiting(s) && Enabled(s, e) && DrainStep(e)
    ensures Blocks(Next(s, e), id) <==> Blocks(s, id)
  {
    if e.Settle? {
      BlockKeptBySettle(s, e.rec, id);
    } else {
      DrainKeepsMap(s, e);
      DrainStepAddsNone(s, e);
      if id in s.active {
        assert EntryOk(s, id);
        DrainKeepsRecord(s, e, s.active[id]);
        if s.recs[s.active[id]].callbackRan {
          DueKept(s, e, id);
        }
      }
    }
  }

  lemma BlockKeptBySettle(s: State, r: nat, id: string)
    requires Inv(s) && NoneWaiting(s) && Enabled(s, Settle(r))
    ensures Blocks(Callback(s, r), id) <==> Blocks(s, id)
  {
    DrainSettle(s, r);
    if s.recs[r].executionId == id && s.recs[r].status != Waiting {
      assert DeletionDue(s, r);
    } else if id in s.active {
      assert EntryOk(s, id);
      SettleKeepsStuck(s, r, id);
      SettleKeepsDue(s, r, id);
    }
  }

  lemma SettleKeepsStuck(s: State, r: nat, id: string)
    requires Keyed(s) && Enabled(s, Settle(r)) && id in s.active && s.active[id] < |s.recs|
    requires s.recs[r].executionId != id || (s.recs[r].status == Waiting && !Current(s, r))
    ensures StuckAt(Callback(s, r), id) <==> StuckAt(s, id)
  {
    OtherRecordsKept(s, r);
    assert EntryOk(s, id);
  }

  lemma SettleKeepsDue(s: State, r: nat, id: string)
    requires Enabled(s, Settle(r)) && (s.recs[r].executionId != id || s.recs[r].status == Waiting)
    ensures DueFor(Callback(s, r), id) <==> DueFor(s, id)
  {
    var m := Callback(s, r);
    OtherRecordsKept(s, r);
    forall q: nat | DeletionDue(s, q) && s.recs[q].executionId == id
      ensures DeletionDue(m, q) && m.recs[q].executionId == id
    {
    }
    forall q: nat | DeletionDue(m, q) && m.recs[q].executionId == id
      ensures DeletionDue(s, q) && s.recs[q].executionId == id
    {
    }
  }

  ghost predicate DrainSteps(s: State, es: seq<Event>)
    decreases |es|
  {
    Legal(s, es) && forall i :: 0 <= i < |es| ==> DrainStep(es[i])
  }

  ghost predicate NoneBlocks(s: State) {
    forall id :: !Blocks(s, id)
  }

  lemma DrainNext(s: State, e: Event)
    requires Inv(s) && NoneWaiting(s) && Enabled(s, e) && DrainStep(e)
    ensures Inv(Next(s, e)) && NoneWaiting(Next(s, e)) && (NoneBlocks(Next(s, e)) <==> NoneBlocks(s))
    ensures Next(s, e).active.Keys <= s.active.Keys
  {
    NextKeeps(s, e);
    if e.Settle? {
      DrainSettle(s, e.rec);
    } else {
      DrainKeepsMap(s, e);
    }
    forall id ensures Blocks(Next(s, e), id) <==> Blocks(s, id) {
      BlockKept(s, e, id);
    }
  }

  lemma {:induction false} DrainRun(s: State, es: seq<Event>)
    requires Inv(s) && NoneWaiting(s) && DrainSteps(s, es)
    ensures var m := Run(s, es);
            && Inv(m) && NoneWaiting(m) && (NoneBlocks(m) <==> NoneBlocks(s)) && m.active.Keys <= s.active.Keys
    decreases |es|
  {
    if es != [] {
      DrainNext(s, es[0]);
      assert forall i :: 0 <= i < |es[1..]| ==> es[1..][i] == es[i + 1];
      DrainRun(Next(s, es[0]), es[1..]);
    }
  }

  /** An entry that the sweep leaves in the map with its callback run, and that no due callback will delete. */
  ghost predicate Obstructs(s: State, cancelAll: bool, id: string) {
    Survives(s, cancelAll, id) && s.recs[s.active[id]].callbackRan && !DueFor(s, id)
  }

  ghost predicate NoneObstructs(s: State, cancelAll: bool) {
    forall id :: !Obstructs(s, cancelAll, id)
  }

  lemma EntrySwept(s: State, cancelAll: bool, id: string)
    requires Keyed(s)
    ensures var m := AfterShutdown(s, cancelAll);
            && |m.recs| == |s.recs|
            && (id in m.active <==> Survives(s, cancelAll, id))
            && (id in m.active ==> id in s.active && m.active[id] == s.active[id])
            && (id in s.active ==> m.recs[s.active[id]].callbackRan == s.recs[s.active[id]].callbackRan)
  {
    if id in s.active {
      assert EntryOk(s, id);
      assert AfterShutdown(s, cancelAll).recs[s.active[id]] == SweptRec(ConcurrencyOff(s), cancelAll, s.active[id]);
    }
  }

  /** The sweep leaves the records alone that are not in the map. */
  lemma OthersNotSwept(s: State, cancelAll: bool, q: nat)
    requires q < |s.recs|
    ensures var m := AfterShutdown(s, cancelAll);
            && |m.recs| == |s.recs| && m.recs[q].executionId == s.recs[q].executionId
            && m.recs[q].callbackRan == s.recs[q].callbackRan
            && (!Current(s, q) ==> m.recs[q] == s.recs[q])
  {
    assert AfterShutdown(s, cancelAll).recs[q] == SweptRec(ConcurrencyOff(s), cancelAll, q);
  }

  lemma DueSwept(s: State, cancelAll: bool, id: string)
    requires Keyed(s) && id in s.active && s.recs[s.active[id]].callbackRan
    ensures DueFor(AfterShutdown(s, cancelAll), id) <==> DueFor(s, id)
  {
    var m := AfterShutdown(s, cancelAll);
    forall q: nat | q < |s.recs| && s.recs[q].executionId == id && !s.recs[q].callbackRan
      ensures |m.recs| == |s.recs| && m.recs[q] == s.recs[q]
    {
      OthersNotSwept(s, cancelAll, q);
    }
    forall q: nat | DeletionDue(m, q) && m.recs[q].executionId == id
      ensures DeletionDue(s, q) && s.recs[q].executionId == id
    {
      OthersNotSwept(s, cancelAll, q);
    }
    forall q: nat | DeletionDue(s, q) && s.recs[q].executionId == id
      ensures DeletionDue(m, q) && m.recs[q].executionId == id
    {
    }
  }

  /** The drain starts with nothing waiting, and with the obstructing entries as the stuck ones. */
  lemma DrainStart(s: State, cancelAll: bool)
    requires Inv(s)
    ensures var m := AfterShutdown(s, cancelAll);
            && Inv(m) && NoneWaiting(m)
            && (NoneBlocks(m) <==> NoneObstructs(s, cancelAll))
  {
    var m := AfterShutdown(s, cancelAll);
    NextKeeps(s, Shutdown(cancelAll));
    forall id | id in m.active ensures m.active[id] < |m.recs| && m.recs[m.active[id]].status != Waiting {
      AfterTheSweep(s, cancelAll, id);
    }
    forall id ensures Blocks(m, id) <==> Obstructs(s, cancelAll, id) {
      BlocksAfterSweep(s, cancelAll, id);
    }
  }

  lemma BlocksAfterSweep(s: State, cancelAll: bool, id: string)
    requires Keyed(s)
    ensures Blocks(AfterShutdown(s, cancelAll), id) <==> Obstructs(s, cancelAll, id)
  {
    EntrySwept(s, cancelAll, id);
    if id in s.active {
      assert EntryOk(s, id);
      if s.recs[s.active[id]].callbackRan {
        DueSwept(s, cancelAll, id);
      }
    }
  }

  lemma SettledBlocks(s: State)
    requires Inv(s) && NoneWaiting(s) && Settled(s)
    ensures s.active == map[] <==> NoneBlocks(s)
  {
    forall id | id in s.active ensures Blocks(s, id) {
      assert EntryOk(s, id);
    }
  }

  /**
   Once every remaining promise has settled and every callback has run, the map is empty, so the waiting loop
   exits, exactly when at the call of shutdown no entry obstructs.
   */
  lemma DrainEndsIffNoneObstructs(s: State, cancelAll: bool, es: seq<Event>)
    requires Inv(s) && DrainSteps(AfterShutdown(s, cancelAll), es) && Settled(Run(AfterShutdown(s, cancelAll), es))
    ensures Run(AfterShutdown(s, cancelAll), es).active == map[] <==> NoneObstructs(s, cancelAll)
  {
    DrainStart(s, cancelAll);
    DrainRun(AfterShutdown(s, cancelAll), es);
    SettledBlocks(Run(AfterShutdown(s, cancelAll), es));
  }

  lemma DrainStepFirst(s: State, e: Event, rest: seq<Event>)
    requires Enabled(s, e) && DrainStep(e) && DrainSteps(Next(s, e), rest)
    ensures DrainSteps(s, [e] + rest) && Run(s, [e] + rest) == Run(Next(s, e), rest)
  {
    RunStep(s, rest, e);
  }

  /** An entry that is not stuck has a callback that will delete it, if need be once it is finalised. */
  lemma {:induction false} Drains(s: State) returns (es: seq<Event>)
    requires Inv(s) && NoneWaiting(s) && NoneBlocks(s)
    ensures DrainSteps(s, es) && Run(s, es).active == map[]
    decreases |s.active|, 1
  {
    if s.active == map[] {
      es := [];
    } else {
      var id :| id in s.active;
      assert EntryOk(s, id) && !Blocks(s, id);
      var r := s.active[id];
      if s.recs[r].promise == Pending {
        var finalize := Finalize(id, None);
        FinalizeMakesDue(s, id);
        var rest := DrainsThrough(Next(s, finalize), r);
        es := [finalize] + rest;
        DrainStepFirst(s, finalize, rest);
      } else if s.recs[r].callbackRan {
        var q: nat :| DeletionDue(s, q) && s.recs[q].executionId == id;
        es := DrainsThrough(s, q);
      } else {
        es := DrainsThrough(s, r);
      }
    }
  }

  lemma FinalizeMakesDue(s: State, id: string)
    requires Inv(s) && NoneWaiting(s) && NoneBlocks(s) && id in s.active
    requires s.active[id] < |s.recs| && s.recs[s.active[id]].promise == Pending
    ensures var r, m := s.active[id], Next(s, Finalize(id, None));
            && Inv(m) && NoneWaiting(m) && NoneBlocks(m) && m.active == s.active
            && DeletionDue(m, r) && m.recs[r].executionId == id
  {
    var finalize, r := Finalize(id, None), s.active[id];
    assert EntryOk(s, id) && RecordOk(s, r);
    DrainNext(s, finalize);
    DrainKeepsMap(s, finalize);
    NextCallback(s, finalize, r);
  }

  lemma DrainsThrough(s: State, r: nat) returns (es: seq<Event>)
    requires Inv(s) && NoneWaiting(s) && NoneBlocks(s)
    requires DeletionDue(s, r) && Find(s, s.recs[r].executionId).Some?
    ensures DrainSteps(s, es) && Run(s, es).active == map[]
    decreases |s.active|, 0
  {
    DrainSettle(s, r);
    DrainNext(s, Settle(r));
    var rest := Drains(Callback(s, r));
    es := [Settle(r)] + rest;
    DrainStepFirst(s, Settle(r), rest);
  }

  // ---------- What frees a blocking entry ----------

  /** The steps that can end the blocking: of all steps, only these. */
  predicate Frees(s: State, e: Event, id: string)
    requires Enabled(s, e)
  {
    || (e.Register? && s.adds[e.call].executionId == id)
    || (e.SetStatus? && e.id == id && e.status == Waiting)
    || (e.Shutdown? && !Survives(s, e.cancelAll, id))
  }

  lemma NoNewDue(s: State, e: Event, id: string)
    requires Inv(s) && Enabled(s, e) && Blocks(s, id)
    ensures !DueFor(Next(s, e), id)
  {
    forall q: nat | DeletionDue(Next(s, e), q) ensures Next(s, e).recs[q].executionId != id {
      if q < |s.recs| {
        RecordAfter(s, e, q);
        NextCallback(s, e, q);
      } else {
        NewRecordsArePending(s, e, q);
      }
    }
  }

  /** The entry of the id is still there, and of the same record. */
  predicate Keeps(s: State, e: Event, id: string)
    requires Enabled(s, e)
  {
    id in s.active && id in Next(s, e).active && Next(s, e).active[id] == s.active[id]
  }

  lemma BlockingEntryIff(s: State, e: Event, id: string)
    requires Inv(s) && Enabled(s, e) && Blocks(s, id)
    ensures Keeps(s, e, id) <==> !((e.Register? && s.adds[e.call].executionId == id)
                                    || (e.Shutdown? && !Survives(s, e.cancelAll, id)))
  {
    assert EntryOk(s, id);
    if e.Settle? {
      SettleKeepsBlocking(s, e.rec, id);
    } else if e.Shutdown? {
      EntrySwept(s, e.cancelAll, id);
    } else if e.Stop? {
      assert Stopped(s, e.id).active == s.active || (e.id != id && Stopped(s, e.id).active == s.active - {e.id});
    } else if !e.Register? {
      MapUntouched(s, e);
    }
  }

  lemma SettleKeepsBlocking(s: State, r: nat, id: string)
    requires Enabled(s, Settle(r)) && Blocks(s, id)
    ensures Keeps(s, Settle(r), id)
  {
    if s.recs[r].executionId == id {
      assert DeletionDue(s, r) <==> s.recs[r].status != Waiting;
    }
  }

  /** A blocking entry stops blocking exactly by being registered anew, set to waiting, or swept. */
  lemma FreedIff(s: State, e: Event, id: string)
    requires Inv(s) && Enabled(s, e) && Blocks(s, id)
    ensures Blocks(Next(s, e), id) <==> !Frees(s, e, id)
  {
    var r := s.active[id];
    assert EntryOk(s, id);
    NoNewDue(s, e, id);
    BlockingEntryIff(s, e, id);
    StatusAfter(s, e, r);
    NextCallback(s, e, r);
    if !Keeps(s, e, id) {
      NotKeptNotStuck(s, e, id);
    }
    if e.SetStatus? && e.id in s.active {
      assert EntryOk(s, e.id);
    }
  }

  lemma NotKeptNotStuck(s: State, e: Event, id: string)
    requires Inv(s) && Enabled(s, e) && StuckAt(s, id) && !Keeps(s, e, id)
    ensures !StuckAt(Next(s, e), id)
  {
    NewRecordHasNotRun(s, e);
    if id in Next(s, e).active {
      EntryAfter(s, e, id);
    }
  }

  ghost predicate AlwaysBlocks(s: State, es: seq<Event>, id: string)
    requires Legal(s, es)
    decreases |es|
  {
    Blocks(s, id) && (es == [] || AlwaysBlocks(Next(s, es[0]), es[1..], id))
  }

  ghost predicate SomeFreed(s: State, es: seq<Event>, id: string)
    requires Legal(s, es)
    decreases |es|
  {
    es != [] && (Frees(s, es[0], id) || SomeFreed(Next(s, es[0]), es[1..], id))
  }

  /** Over every run: a blocking entry blocks throughout exactly when no step frees it. */
  lemma {:induction false} BlocksUntilFreed(s: State, es: seq<Event>, id: string)
    requires Inv(s) && Legal(s, es) && Blocks(s, id)
    ensures AlwaysBlocks(s, es, id) <==> !SomeFreed(s, es, id)
    ensures !SomeFreed(s, es, id) ==> Blocks(Run(s, es), id)
    decreases |es|
  {
    if es != [] {
      FreedIff(s, es[0], id);
      NextKeeps(s, es[0]);
      if !Frees(s, es[0], id) {
        BlocksUntilFreed(Next(s, es[0]), es[1..], id);
      }
    }
  }

  /**
   An obstructing entry stays in the map, so the loop does not exit, as long as no step frees it, whatever
   else happens meanwhile: other executions may register, wait and settle.
   */
  lemma ObstructedUntilFreed(s: State, cancelAll: bool, es: seq<Event>, id: string)
    requires Inv(s) && Obstructs(s, cancelAll, id)
    requires Legal(AfterShutdown(s, cancelAll), es) && !SomeFreed(AfterShutdown(s, cancelAll), es, id)
    ensures id in Run(AfterShutdown(s, cancelAll), es).active
  {
    ObstructingBlocks(s, cancelAll, id);
    BlocksUntilFreed(AfterShutdown(s, cancelAll), es, id);
  }

  lemma ObstructingBlocks(s: State, cancelAll: bool, id: string)
    requires Inv(s) && Obstructs(s, cancelAll, id)
    ensures Inv(AfterShutdown(s, cancelAll)) && Blocks(AfterShutdown(s, cancelAll), id)
  {
    NextKeeps(s, Shutdown(cancelAll));
    BlocksAfterSweep(s, cancelAll, id);
  }

  /** No entry that blocks at the start is freed. */
  ghost predicate NoneFreed(s: State, es: seq<Event>)
    requires Legal(s, es)
  {
    forall id :: Blocks(s, id) ==> !SomeFreed(s, es, id)
  }

  /** The map can become empty without freeing a blocking entry. */
  ghost predicate CanDrain(s: State) {
    exists es :: Legal(s, es) && NoneFreed(s, es) && Run(s, es).active == map[]
  }

  /** The loop after the sweep can end, without an obstructing entry being freed, exactly when there is none. */
  lemma CanDrainIffNoneObstructs(s: State, cancelAll: bool)
    requires Inv(s)
    ensures CanDrain(AfterShutdown(s, cancelAll)) <==> NoneObstructs(s, cancelAll)
  {
    var m := AfterShutdown(s, cancelAll);
    DrainStart(s, cancelAll);
    if NoneObstructs(s, cancelAll) {
      var es := Drains(m);
      assert NoneFreed(m, es);
    } else if CanDrain(m) {
      var es :| Legal(m, es) && NoneFreed(m, es) && Run(m, es).active == map[];
      var id :| Obstructs(s, cancelAll, id);
      BlocksAfterSweep(s, cancelAll, id);
      ObstructedUntilFreed(s, cancelAll, es, id);
    }
  }

  // ---------- How an entry comes to obstruct ----------

  /** Setting an execution to a status other than waiting after its callback ran. */
  predicate Revives(s: State, e: Event, id: string) {
    && e.SetStatus? && e.id == id && e.status != Waiting
    && Find(s, id).Some? && s.recs[s.active[id]].callbackRan
  }

  lemma StatusAfter(s: State, e: Event, r: nat)
    requires Enabled(s, e) && r < |s.recs|
    ensures r < |Next(s, e).recs|
    ensures Next(s, e).recs[r].status
         == if e.SetStatus? && Find(s, e.id) == Some(r) then e.status else s.recs[r].status
  {
  }

  lemma RevivalSticks(s: State, e: Event, id: string)
    requires Enabled(s, e) && Revives(s, e, id)
    ensures StuckAt(Next(s, e), id)
  {
  }

  /** A step makes an entry stuck exactly by reviving it. */
  lemma StuckStepIff(s: State, e: Event, id: string)
    requires Inv(s) && Enabled(s, e) && !StuckAt(s, id)
    ensures StuckAt(Next(s, e), id) <==> Revives(s, e, id)
  {
    NewRecordHasNotRun(s, e);
    if Revives(s, e, id) {
      RevivalSticks(s, e, id);
    } else if id in Next(s, e).active {
      EntryAfter(s, e, id);
      if id in s.active && Next(s, e).active[id] == s.active[id] {
        OldEntryNotStuck(s, e, id);
      }
    }
  }

  lemma NewRecordHasNotRun(s: State, e: Event)
    requires Enabled(s, e)
    ensures e.Register? ==> |Next(s, e).recs| == |s.recs| + 1 && !Next(s, e).recs[|s.recs|].callbackRan
  {
  }

  lemma OldEntryNotStuck(s: State, e: Event, id: string)
    requires Inv(s) && Enabled(s, e) && !StuckAt(s, id) && !Revives(s, e, id)
    requires id in s.active && id in Next(s, e).active && Next(s, e).active[id] == s.active[id]
    ensures !StuckAt(Next(s, e), id)
  {
    var r := s.active[id];
    assert EntryOk(s, id);
    NextCallback(s, e, r);
    StatusAfter(s, e, r);
    if s.recs[r].status != Waiting {
      SettledEntryGoes(s, e, r);
    }
    if e.SetStatus? && e.id in s.active {
      assert EntryOk(s, e.id);
    }
  }

  lemma SettledEntryGoes(s: State, e: Event, r: nat)
    requires Enabled(s, e) && r < |s.recs| && s.recs[r].status != Waiting
    ensures e == Settle(r) ==> s.recs[r].executionId !in Next(s, e).active
  {
  }

  ghost predicate EverStuck(s: State, es: seq<Event>, id: string)
    requires Legal(s, es)
    decreases |es|
  {
    StuckAt(s, id) || (es != [] && EverStuck(Next(s, es[0]), es[1..], id))
  }

  ghost predicate SomeRevival(s: State, es: seq<Event>, id: string)
    requires Legal(s, es)
    decreases |es|
  {
    es != [] && (Revives(s, es[0], id) || SomeRevival(Next(s, es[0]), es[1..], id))
  }

  /** An entry gets stuck in a run exactly when the run revives its execution. */
  lemma {:induction false} StuckIffRevived(s: State, es: seq<Event>, id: string)
    requires Inv(s) && Legal(s, es) && !StuckAt(s, id)
    ensures EverStuck(s, es, id) <==> SomeRevival(s, es, id)
    decreases |es|
  {
    if es != [] {
      StuckStepIff(s, es[0], id);
      NextKeeps(s, es[0]);
      if !Revives(s, es[0], id) {
        StuckIffRevived(Next(s, es[0]), es[1..], id);
      }
    }
  }

  lemma {:induction false} EndIsVisited(s: State, es: seq<Event>, id: string)
    requires Legal(s, es) && StuckAt(Run(s, es), id)
    ensures EverStuck(s, es, id)
    decreases |es|
  {
    if es != [] {
      EndIsVisited(Next(s, es[0]), es[1..], id);
    }
  }

  /** From the start of the process: an entry obstructs the drain only if its execution was revived before. */
  lemma ObstructionWasRevived(
        regular: bool, production: int, evaluation: int, es: seq<Event>, cancelAll: bool, id: string)
    requires Init(!regular, production, evaluation).Some?
    requires Legal(Start(regular, Init(!regular, production, evaluation).value), es)
    requires Obstructs(Run(Start(regular, Init(!regular, production, evaluation).value), es), cancelAll, id)
    ensures SomeRevival(Start(regular, Init(!regular, production, evaluation).value), es, id)
  {
    var start := Start(regular, Init(!regular, production, evaluation).value);
    StartIsSound(regular, production, evaluation);
    EndIsVisited(start, es, id);
    StuckIffRevived(start, es, id);
  }
}
