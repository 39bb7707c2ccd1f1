/**
 Whether an execution that waits in a queue can still start. Leaked slots add up: once every slot of a kind has
 leaked, nothing in that queue starts any more, unless a removal lets it overtake.
 */
module Starvation {
  import opened Prelude
  import opened ConcurrencyQueues
  import opened ConcurrencyControl
  import opened Executions
  import opened Slots
  import opened Invariants
  import opened SlotTheorems
  import opened History
  import opened ThrottleBalance
  import opened SlotLeaks

  /** The call gets past the throttle, without a removal from a queue. */
  ghost predicate Starting(s: State, es: seq<Event>, t: nat) {
    Legal(s, es) && Unremoved(es) && t < |Run(s, es).adds| && Run(s, es).adds[t].phase.Admitted?
  }

  ghost predicate CanStart(s: State, t: nat) {
    exists es :: Starting(s, es, t)
  }

  /** Some slot of the kind can come back. */
  ghost predicate SomeReturn(s: State, k: Kind) {
    exists h :: 0 <= h < |s.adds| && Returns(s, k, h)
  }

  ghost predicate Returns(s: State, k: Kind, h: nat)
    requires h < |s.adds|
  {
    Holds(s.adds[h], k) && HasReturn(s, h)
  }

  // ---------- A slot that comes back reaches everyone ----------

  lemma SettleStartsHead(s: State, r: nat, k: Kind)
    requires Inv(s) && Enabled(s, Settle(r)) && Limits(s.control, s.recs[r].mode) && KindOf(s.recs[r].mode) == Some(k)
    requires s.control.queues[k].waiting != []
    ensures var m, w := Callback(s, r), s.control.queues[k].waiting[0];
            && m.control.isEnabled && k in m.control.queues
            && m.control.queues[k].waiting == s.control.queues[k].waiting[1..]
            && w.ticket < |m.adds| && m.adds[w.ticket].phase.Admitted? && KindOf(m.adds[w.ticket].mode) == Some(k)
  {
    var w := s.control.queues[k].waiting[0];
    assert RecordOk(s, r);
    assert QueueAgrees(s.control.queues[k], s.adds, k);
    assert Belongs(s.adds, k, w);
    RelabelOne(Relabel(s.adds, s.recs[r].call, Released), w, Admitted);
  }

  lemma StartingAfter(s: State, es: seq<Event>, fs: seq<Event>, t: nat)
    requires Legal(s, es) && Unremoved(es) && Starting(Run(s, es), fs, t)
    ensures Starting(s, es + fs, t)
  {
    RunAppend(s, es, fs);
  }

  /** A slot that comes back starts the head of its queue, and leaves the others in their order. */
  lemma HeadStarts(s: State, k: Kind, h: nat) returns (es: seq<Event>)
    requires Inv(s) && s.control.isEnabled && k in s.control.queues && s.control.queues[k].waiting != []
    requires h < |s.adds| && Returns(s, k, h)
    ensures Starting(s, es, s.control.queues[k].waiting[0].ticket)
    ensures var m, head := Run(s, es), s.control.queues[k].waiting[0].ticket;
            && Inv(m) && m.control.isEnabled && k in m.control.queues
            && m.control.queues[k].waiting == s.control.queues[k].waiting[1..]
            && Returns(m, k, head)
  {
    var before, r := CallReady(s, h);
    var m := Run(s, before);
    DueMode(s, before, r, h);
    SettleStartsHead(m, r, k);
    NextKeeps(m, Settle(r));
    RunStep(m, [], Settle(r));
    assert [Settle(r)] + [] == [Settle(r)];
    RunAppend(s, before, [Settle(r)]);
    es := before + [Settle(r)];
  }

  /** The returning slot starts the head of the queue; that call can return it in turn, and so on to the i-th. */
  lemma {:induction false} Reaches(s: State, k: Kind, h: nat, i: nat) returns (es: seq<Event>)
    requires Inv(s) && s.control.isEnabled && k in s.control.queues && i < |s.control.queues[k].waiting|
    requires h < |s.adds| && Returns(s, k, h)
    ensures Starting(s, es, s.control.queues[k].waiting[i].ticket)
    decreases i
  {
    if i == 0 {
      es := HeadStarts(s, k, h);
    } else {
      var ws := s.control.queues[k].waiting;
      var first := HeadStarts(s, k, h);
      assert Run(s, first).control.queues[k].waiting[i - 1] == ws[i];
      var rest := Reaches(Run(s, first), k, ws[0].ticket, i - 1);
      StartingAfter(s, first, rest, ws[i].ticket);
      es := first + rest;
    }
  }

  // ---------- Without one, nothing moves ----------

  /** A return after a step was there before, for a call past the throttle. */
  lemma ReturnBefore(s: State, e: Event, h: nat)
    requires Inv(s) && Backed(s) && Enabled(s, e) && h < |s.adds| && h < |Next(s, e).adds|
    requires Outstanding(s.adds[h], s.adds[h].mode) && HasReturn(Next(s, e), h)
    ensures HasReturn(s, h)
  {
    var m := Next(s, e);
    NextKeeps(s, e);
    NextIsLater(s, e);
    if s.adds[h].phase.Failed? {
      FailedNeverReleases(s, h);
      FailedNeverReleases(m, h);
    } else if s.adds[h].phase.Registered? {
      assert HasRecord(s, h);
      var r :| 0 <= r < |s.recs| && s.recs[r].call == h;
      assert RecordOk(s, r);
      RegisteredReturnBefore(s, e, r);
    }
  }

  lemma RegisteredReturnBefore(s: State, e: Event, r: nat)
    requires Inv(s) && Enabled(s, e) && r < |s.recs|
    requires s.recs[r].call < |Next(s, e).adds| && HasReturn(Next(s, e), s.recs[r].call)
    ensures !Lost(s, r)
  {
    NextKeeps(s, e);
    NextRecordIsLater(s, e, r);
    assert RecordOk(Next(s, e), r);
    if Lost(s, r) {
      LostStays(s, e, r);
    }
  }

  /** Whom a step that removes nothing lets through, of a kind with a full queue: only after a callback of the kind. */
  lemma NoneLetThrough(s: State, e: Event, k: Kind, t: nat)
    requires Inv(s) && Enabled(s, e) && s.control.isEnabled
    requires k in s.control.queues && s.control.queues[k].waiting != []
    requires !e.RemoveQueued? && !e.Shutdown? && !(e.Settle? && KindOf(s.recs[e.rec].mode) == Some(k))
    requires t < |Next(s, e).adds| && KindOf(Next(s, e).adds[t].mode) == Some(k)
    ensures t !in LetThrough(s, e) + Unthrottled(s, e)
  {
    match e
    case Begin(mode, Some(id)) => BeginLetsNone(s, mode, id, k);
    case Created(c, id) => CreatedLetsNone(s, c, id, k);
    case Settle(r) => OthersLetThrough(s, r, k, t);
    case _ =>
  }

  /** A newcomer of a kind whose queue is not empty is not let through. */
  lemma NewcomerQueues(c: Control, mode: Mode, w: Waiter, k: Kind)
    requires c.isEnabled && k in c.queues && c.queues[k].waiting != [] && Bounded(c.queues[k])
    ensures var ws := ThrottleEffect(c, mode, w).admitted;
            ws == [] || (ws == [w] && KindOf(mode) != Some(k))
  {
  }

  lemma BeginLetsNone(s: State, mode: Mode, id: string, k: Kind)
    requires Inv(s) && s.control.isEnabled && k in s.control.queues && s.control.queues[k].waiting != []
    ensures var m := Next(s, Begin(mode, Some(id)));
            && |s.adds| < |m.adds|
            && (KindOf(m.adds[|s.adds|].mode) == Some(k) ==> LetThrough(s, Begin(mode, Some(id))) == {})
    ensures LetThrough(s, Begin(mode, Some(id))) <= {|s.adds|}
  {
    NewcomerQueues(s.control, mode, Waiter(id, |s.adds|), k);
    ThrottledKeepsModes(s.(adds := s.adds + [AddCall(mode, id, true, Creating)]), |s.adds|, |s.adds|);
  }

  lemma CreatedLetsNone(s: State, c: nat, id: string, k: Kind)
    requires Inv(s) && Enabled(s, Created(c, id)) && s.control.isEnabled
    requires k in s.control.queues && s.control.queues[k].waiting != []
    ensures var m, through := Next(s, Created(c, id)), LetThrough(s, Created(c, id)) + Unthrottled(s, Created(c, id));
            && c < |m.adds| && (KindOf(m.adds[c].mode) == Some(k) ==> through == {})
            && through <= {c}
  {
    NextKeepsModes(s, Created(c, id), c);
    NewcomerQueues(s.control, s.adds[c].mode, Waiter(id, c), k);
  }

  lemma OthersLetThrough(s: State, r: nat, k: Kind, t: nat)
    requires Inv(s) && Enabled(s, Settle(r)) && KindOf(s.recs[r].mode) != Some(k)
    requires t < |Callback(s, r).adds| && KindOf(Callback(s, r).adds[t].mode) == Some(k)
    ensures t !in LetThrough(s, Settle(r))
  {
    var mode := s.recs[r].mode;
    if Limits(s.control, mode) && s.control.queues[KindOf(mode).value].waiting != [] {
      var l := KindOf(mode).value;
      var w := s.control.queues[l].waiting[0];
      assert QueueAgrees(s.control.queues[l], s.adds, l);
      assert Belongs(s.adds, l, w);
      NextKeepsModes(s, Settle(r), w.ticket);
    }
  }

  /** A slot of the kind held after such a step was held before. */
  lemma HeldBefore(s: State, e: Event, k: Kind, h: nat)
    requires Inv(s) && Enabled(s, e) && s.control.isEnabled
    requires k in s.control.queues && s.control.queues[k].waiting != []
    requires !e.RemoveQueued? && !e.Shutdown? && !(e.Settle? && KindOf(s.recs[e.rec].mode) == Some(k))
    requires h < |Next(s, e).adds| && Holds(Next(s, e).adds[h], k)
    ensures h < |s.adds| && Holds(s.adds[h], k)
  {
    var mode := Next(s, e).adds[h].mode;
    StepMoves(s, e, mode);
    NoneLetThrough(s, e, k, h);
    assert h in Past(Next(s, e).adds, mode);
    assert h in Past(s.adds, mode);
  }

  /** The execution waits, and either the service is off or no slot of its kind can come back. */
  ghost predicate Starved(s: State, k: Kind, w: Waiter) {
    && k in s.control.queues && w in s.control.queues[k].waiting
    && (s.control.isEnabled ==> !SomeReturn(s, k))
  }

  lemma StillWaiting(s: State, e: Event, k: Kind, w: Waiter)
    requires Inv(s) && Starved(s, k, w) && Enabled(s, e) && !e.RemoveQueued?
    ensures !(s.control.isEnabled && e.Settle? && KindOf(s.recs[e.rec].mode) == Some(k))
    ensures k in Next(s, e).control.queues && w in Next(s, e).control.queues[k].waiting
  {
    if e.Shutdown? {
      ShutdownNeverCancels(s, e.cancelAll);
    } else {
      StepUsesQueue(s, e);
      if e.Settle? {
        assert RecordOk(s, e.rec);
        assert HasReturn(s, s.recs[e.rec].call);
        assert KindOf(s.recs[e.rec].mode) == Some(k) ==> Returns(s, k, s.recs[e.rec].call);
      }
    }
  }

  lemma StarvedStep(s: State, e: Event, k: Kind, w: Waiter)
    requires Inv(s) && Backed(s) && Starved(s, k, w) && Enabled(s, e) && !e.RemoveQueued?
    ensures Starved(Next(s, e), k, w)
  {
    StillWaiting(s, e, k, w);
    NextControlIsLater(s, e);
    if Next(s, e).control.isEnabled && !e.Shutdown? {
      forall h | 0 <= h < |Next(s, e).adds| && Holds(Next(s, e).adds[h], k) ensures !Returns(Next(s, e), k, h) {
        HeldBefore(s, e, k, h);
        assert !Returns(s, k, h);
        if HasReturn(Next(s, e), h) {
          ReturnBefore(s, e, h);
        }
      }
    }
  }

  lemma {:induction false} StarvedForever(s: State, es: seq<Event>, k: Kind, w: Waiter)
    requires Inv(s) && Backed(s) && Starved(s, k, w) && Legal(s, es) && Unremoved(es)
    ensures Starved(Run(s, es), k, w)
    decreases |es|
  {
    if es != [] {
      assert !es[0].RemoveQueued?;
      StarvedStep(s, es[0], k, w);
      NextKeeps(s, es[0]);
      BackedStep(s, es[0]);
      assert forall i :: 0 <= i < |es[1..]| ==> es[1..][i] == es[i + 1];
      StarvedForever(Next(s, es[0]), es[1..], k, w);
    }
  }

  lemma WaitingIsQueued(s: State, k: Kind, w: Waiter)
    requires Inv(s) && k in s.control.queues && w in s.control.queues[k].waiting
    ensures w.ticket < |s.adds| && s.adds[w.ticket].phase.Queued?
  {
    var q := s.control.queues[k];
    assert QueueAgrees(q, s.adds, k);
    var i :| 0 <= i < |q.waiting| && q.waiting[i] == w;
    assert Belongs(s.adds, k, q.waiting[i]);
  }

  /**
   A waiting execution can still start without a removal, however far back in its queue, exactly when the
   service is on and at least one slot of its kind can come back.
   */
  lemma QueuedStartsIff(s: State, k: Kind, i: nat)
    requires Inv(s) && Backed(s) && k in s.control.queues && i < |s.control.queues[k].waiting|
    ensures CanStart(s, s.control.queues[k].waiting[i].ticket) <==> s.control.isEnabled && SomeReturn(s, k)
  {
    var w := s.control.queues[k].waiting[i];
    if s.control.isEnabled && SomeReturn(s, k) {
      var h :| 0 <= h < |s.adds| && Returns(s, k, h);
      var es := Reaches(s, k, h, i);
    } else if CanStart(s, w.ticket) {
      var es :| Starting(s, es, w.ticket);
      StarvedForever(s, es, k, w);
      RunKeeps(s, es);
      WaitingIsQueued(Run(s, es), k, w);
    }
  }

  /** In every reachable state. */
  lemma ReachedQueuedStartsIff(regular: bool, production: int, evaluation: int, es: seq<Event>, k: Kind, i: nat)
    requires Init(!regular, production, evaluation).Some?
    requires Legal(Start(regular, Init(!regular, production, evaluation).value), es)
    requires var s := Run(Start(regular, Init(!regular, production, evaluation).value), es);
             k in s.control.queues && i < |s.control.queues[k].waiting|
    ensures var s := Run(Start(regular, Init(!regular, production, evaluation).value), es);
            CanStart(s, s.control.queues[k].waiting[i].ticket) <==> s.control.isEnabled && SomeReturn(s, k)
  {
    StartIsSound(regular, production, evaluation);
    BackedRun(Start(regular, Init(!regular, production, evaluation).value), es);
    QueuedStartsIff(Run(Start(regular, Init(!regular, production, evaluation).value), es), k, i);
  }
}
