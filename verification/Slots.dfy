/**
 The books of the concurrency slots: which calls of `add` hold one, which are queued for one, and why the
 capacity of every queue always agrees with them.
 */
module Slots {
  import opened Prelude
  import opened ConcurrencyQueues
  import opened ConcurrencyControl
  import opened Executions

  /** A call holds a slot from passing the throttle until the callback of its record; a failed one for good. */
  predicate Holds(call: AddCall, k: Kind) {
    && KindOf(call.mode) == Some(k)
    && (call.phase.Admitted? || call.phase.Registered? || call.phase == Failed(true))
  }

  predicate Lines(call: AddCall, k: Kind) {
    KindOf(call.mode) == Some(k) && call.phase.Queued?
  }

  function HoldsOne(call: AddCall, k: Kind): nat { if Holds(call, k) then 1 else 0 }

  function LinesOne(call: AddCall, k: Kind): nat { if Lines(call, k) then 1 else 0 }

  function Holding(adds: seq<AddCall>, k: Kind): nat {
    if adds == [] then 0 else Holding(adds[..|adds| - 1], k) + HoldsOne(adds[|adds| - 1], k)
  }

  function Lining(adds: seq<AddCall>, k: Kind): nat {
    if adds == [] then 0 else Lining(adds[..|adds| - 1], k) + LinesOne(adds[|adds| - 1], k)
  }

  lemma {:induction false} CountsAfterUpdate(adds: seq<AddCall>, t: nat, call: AddCall, k: Kind)
    requires t < |adds|
    ensures Holding(adds[t := call], k) == Holding(adds, k) - HoldsOne(adds[t], k) + HoldsOne(call, k)
    ensures Lining(adds[t := call], k) == Lining(adds, k) - LinesOne(adds[t], k) + LinesOne(call, k)
  {
    var n := |adds| - 1;
    var after := adds[t := call];
    if t < n {
      CountsAfterUpdate(adds[..n], t, call, k);
      assert after[..n] == adds[..n][t := call];
    } else {
      assert after[..n] == adds[..n];
    }
  }

  lemma CountsAfterAppend(adds: seq<AddCall>, call: AddCall, k: Kind)
    ensures Holding(adds + [call], k) == Holding(adds, k) + HoldsOne(call, k)
    ensures Lining(adds + [call], k) == Lining(adds, k) + LinesOne(call, k)
  {
    assert (adds + [call])[..|adds|] == adds;
  }

  // ---------- The invariant ----------

  /** A queue entry belongs to a call that is queued for that kind. */
  ghost predicate Belongs(adds: seq<AddCall>, k: Kind, w: Waiter) {
    && w.ticket < |adds|
    && Lines(adds[w.ticket], k)
    && adds[w.ticket].executionId == w.executionId
  }

  ghost predicate DistinctTicketsIn(ws: seq<Waiter>) {
    forall i, j :: 0 <= i < j < |ws| ==> ws[i].ticket != ws[j].ticket
  }

  /** One queue against the calls of its kind. */
  ghost predicate QueueAgrees(q: QueueState, adds: seq<AddCall>, k: Kind) {
    && (forall i :: 0 <= i < |q.waiting| ==> Belongs(adds, k, q.waiting[i]))
    && DistinctTicketsIn(q.waiting)
    && |q.waiting| == Lining(adds, k)
  }

  ghost predicate Balanced(c: Control, adds: seq<AddCall>, k: Kind)
    requires k in c.queues
  {
    k in c.limits && c.limits[k] - c.queues[k].capacity - |c.queues[k].waiting| == Holding(adds, k)
  }

  ghost predicate Sane(c: Control, adds: seq<AddCall>) {
    && (forall k :: k in c.queues ==> QueueAgrees(c.queues[k], adds, k))
    && (c.isEnabled ==> forall k :: k in c.queues ==> Balanced(c, adds, k))
  }

  /** Nobody waits in a queue unless its capacity is used up. */
  ghost predicate Bounded(q: QueueState) {
    q.waiting == [] || |q.waiting| <= -q.capacity
  }

  lemma BoundedStep(q: QueueState, op: Op)
    requires Bounded(q)
    ensures Bounded(Apply(q, op).state)
  {
  }

  // ---------- Steps that move one call ----------

  /** A call changes without moving a slot. */
  lemma SaneUpdate(c: Control, adds: seq<AddCall>, t: nat, call: AddCall)
    requires Sane(c, adds) && t < |adds| && !adds[t].phase.Queued? && !call.phase.Queued?
    requires c.isEnabled ==> forall k :: k in c.queues ==> Holds(adds[t], k) == Holds(call, k)
    ensures Sane(c, adds[t := call])
  {
    forall k | k in c.queues
      ensures QueueAgrees(c.queues[k], adds[t := call], k)
      ensures c.isEnabled ==> Balanced(c, adds[t := call], k)
    {
      CountsAfterUpdate(adds, t, call, k);
      assert forall i :: 0 <= i < |c.queues[k].waiting| ==> Belongs(adds, k, c.queues[k].waiting[i]);
    }
  }

  lemma SaneAppend(c: Control, adds: seq<AddCall>, call: AddCall)
    requires Sane(c, adds) && call.phase.Creating?
    ensures Sane(c, adds + [call])
  {
    forall k | k in c.queues
      ensures QueueAgrees(c.queues[k], adds + [call], k)
      ensures c.isEnabled ==> Balanced(c, adds + [call], k)
    {
      CountsAfterAppend(adds, call, k);
      assert forall i :: 0 <= i < |c.queues[k].waiting| ==> Belongs(adds, k, c.queues[k].waiting[i]);
    }
  }

  /** Throttling a call that has no slot yet. */
  lemma SaneThrottle(c: Control, adds: seq<AddCall>, t: nat)
    requires Sane(c, adds) && t < |adds| && adds[t].phase.Creating?
    ensures var e := ThrottleEffect(c, adds[t].mode, Waiter(adds[t].executionId, t));
            Sane(e.control, RelabelAll(Relabel(adds, t, Queued), e.admitted, Admitted))
  {
    var call := adds[t];
    var w := Waiter(call.executionId, t);
    var e := ThrottleEffect(c, call.mode, w);
    var after := RelabelAll(Relabel(adds, t, Queued), e.admitted, Admitted);
    if e.admitted == [w] {
      var last := call.(phase := Admitted);
      RelabelOne(Relabel(adds, t, Queued), w, Admitted);
      assert after == adds[t := last];
      if !Limits(c, call.mode) {
        SaneUpdate(c, adds, t, last);
      } else {
        EnqueuedThrough(c, adds, t);
      }
    } else {
      EnqueuedBehind(c, adds, t);
    }
  }

  lemma EnqueuedThrough(c: Control, adds: seq<AddCall>, t: nat)
    requires Sane(c, adds) && t < |adds| && adds[t].phase.Creating? && Limits(c, adds[t].mode)
    requires c.queues[KindOf(adds[t].mode).value].capacity >= 1
    ensures var k := KindOf(adds[t].mode).value;
            var q := c.queues[k];
            Sane(c.(queues := c.queues[k := QueueState(q.capacity - 1, q.waiting)]),
                 adds[t := adds[t].(phase := Admitted)])
  {
    var k := KindOf(adds[t].mode).value;
    var q := c.queues[k];
    var d := c.(queues := c.queues[k := QueueState(q.capacity - 1, q.waiting)]);
    var call := adds[t].(phase := Admitted);
    forall l | l in d.queues
      ensures QueueAgrees(d.queues[l], adds[t := call], l) && Balanced(d, adds[t := call], l)
    {
      CountsAfterUpdate(adds, t, call, l);
      assert QueueAgrees(c.queues[l], adds, l) && Balanced(c, adds, l);
      assert forall i :: 0 <= i < |c.queues[l].waiting| ==> Belongs(adds, l, c.queues[l].waiting[i]);
    }
  }

  lemma EnqueuedBehind(c: Control, adds: seq<AddCall>, t: nat)
    requires Sane(c, adds) && t < |adds| && adds[t].phase.Creating? && Limits(c, adds[t].mode)
    requires c.queues[KindOf(adds[t].mode).value].capacity < 1
    ensures var k := KindOf(adds[t].mode).value;
            var q := c.queues[k];
            var w := Waiter(adds[t].executionId, t);
            Sane(c.(queues := c.queues[k := QueueState(q.capacity - 1, q.waiting + [w])]),
                 adds[t := adds[t].(phase := Queued)])
  {
    var k := KindOf(adds[t].mode).value;
    var q := c.queues[k];
    var d := c.(queues := c.queues[k := QueueState(q.capacity - 1, q.waiting + [Waiter(adds[t].executionId, t)])]);
    var call := adds[t].(phase := Queued);
    JoinsQueue(c, adds, t, k);
    forall l | l in d.queues && l != k
      ensures QueueAgrees(d.queues[l], adds[t := call], l) && Balanced(d, adds[t := call], l)
    {
      OtherKindsAgree(c, adds, t, call, l);
    }
  }

  lemma JoinsQueue(c: Control, adds: seq<AddCall>, t: nat, k: Kind)
    requires Sane(c, adds) && c.isEnabled && k in c.queues
    requires t < |adds| && adds[t].phase.Creating? && KindOf(adds[t].mode) == Some(k)
    ensures var q := c.queues[k];
            var after := adds[t := adds[t].(phase := Queued)];
            var joined := QueueState(q.capacity - 1, q.waiting + [Waiter(adds[t].executionId, t)]);
            QueueAgrees(joined, after, k) && Balanced(c.(queues := c.queues[k := joined]), after, k)
  {
    CountsAfterUpdate(adds, t, adds[t].(phase := Queued), k);
    assert QueueAgrees(c.queues[k], adds, k) && Balanced(c, adds, k);
    assert forall i :: 0 <= i < |c.queues[k].waiting| ==> Belongs(adds, k, c.queues[k].waiting[i]);
  }

  lemma RelabelOne(adds: seq<AddCall>, w: Waiter, phase: Phase)
    ensures RelabelAll(adds, [w], phase) == Relabel(adds, w.ticket, phase)
  {
    assert RelabelAll(Relabel(adds, w.ticket, phase), [], phase) == Relabel(adds, w.ticket, phase);
  }

  /** A change of one call leaves the queues of the other kinds in agreement. */
  lemma OtherKindsAgree(c: Control, adds: seq<AddCall>, t: nat, call: AddCall, l: Kind)
    requires Sane(c, adds) && c.isEnabled && l in c.queues && t < |adds|
    requires call.mode == adds[t].mode && call.executionId == adds[t].executionId && KindOf(call.mode) != Some(l)
    ensures QueueAgrees(c.queues[l], adds[t := call], l) && Balanced(c, adds[t := call], l)
  {
    CountsAfterUpdate(adds, t, call, l);
    assert QueueAgrees(c.queues[l], adds, l) && Balanced(c, adds, l);
    assert forall i :: 0 <= i < |c.queues[l].waiting| ==> Belongs(adds, l, c.queues[l].waiting[i]);
  }

  lemma SplicedQueueAgrees(q: QueueState, adds: seq<AddCall>, k: Kind, i: nat, phase: Phase, capacity: int)
    requires QueueAgrees(q, adds, k) && i < |q.waiting| && !phase.Queued?
    ensures var t := q.waiting[i].ticket;
            && t < |adds| && Lines(adds[t], k)
            && QueueAgrees(QueueState(capacity, q.waiting[..i] + q.waiting[i + 1..]),
                           adds[t := adds[t].(phase := phase)], k)
  {
    var ws := q.waiting[..i] + q.waiting[i + 1..];
    assert Belongs(adds, k, q.waiting[i]);
    var t := q.waiting[i].ticket;
    var after := adds[t := adds[t].(phase := phase)];
    CountsAfterUpdate(adds, t, after[t], k);
    forall j | 0 <= j < |ws| ensures Belongs(after, k, ws[j]) {
      var o := if j < i then j else j + 1;
      assert ws[j] == q.waiting[o] && Belongs(adds, k, q.waiting[o]);
    }
    forall j, m | 0 <= j < m < |ws| ensures ws[j].ticket != ws[m].ticket {
      assert ws[j] == q.waiting[if j < i then j else j + 1];
      assert ws[m] == q.waiting[if m < i then m else m + 1];
    }
  }

  /** A waiter leaves a queue: let through it takes a slot, removed it gives its unit of capacity back. */
  lemma SaneLeave(c: Control, adds: seq<AddCall>, k: Kind, i: nat, phase: Phase, capacity: int)
    requires Sane(c, adds) && c.isEnabled && k in c.queues && i < |c.queues[k].waiting|
    requires var q := c.queues[k];
             (phase == Admitted && capacity == q.capacity) || (phase == Dropped && capacity == q.capacity + 1)
    ensures var q := c.queues[k];
            var left := QueueState(capacity, q.waiting[..i] + q.waiting[i + 1..]);
            Sane(c.(queues := c.queues[k := left]), Relabel(adds, q.waiting[i].ticket, phase))
  {
    var q := c.queues[k];
    var left := QueueState(capacity, q.waiting[..i] + q.waiting[i + 1..]);
    var d := c.(queues := c.queues[k := left]);
    assert QueueAgrees(q, adds, k) && Balanced(c, adds, k);
    SplicedQueueAgrees(q, adds, k, i, phase, capacity);
    var t := q.waiting[i].ticket;
    var after := Relabel(adds, t, phase);
    CountsAfterUpdate(adds, t, after[t], k);
    assert Balanced(d, after, k);
    forall l | l in d.queues && l != k ensures QueueAgrees(d.queues[l], after, l) && Balanced(d, after, l) {
      OtherKindsAgree(c, adds, t, after[t], l);
    }
  }

  lemma SaneResolve(c: Control, adds: seq<AddCall>, k: Kind)
    requires Sane(c, adds) && c.isEnabled && k in c.queues
    ensures var e := ResolveNext(c.queues[k]);
            Sane(c.(queues := c.queues[k := e.state]), RelabelAll(adds, e.admitted, Admitted))
  {
    var q := c.queues[k];
    if q.waiting == [] {
      assert c.queues[k := q] == c.queues;
    } else {
      SaneLeave(c, adds, k, 0, Admitted, q.capacity);
      assert q.waiting[..0] + q.waiting[0 + 1..] == q.waiting[1..];
      RelabelOne(adds, q.waiting[0], Admitted);
    }
  }

  /** The callback of a registered call gives its slot back and starts the next waiter. */
  lemma SaneRelease(c: Control, adds: seq<AddCall>, t: nat)
    requires Sane(c, adds) && t < |adds| && adds[t].phase.Registered?
    ensures var e := ReleaseEffect(c, adds[t].mode);
            Sane(e.control, RelabelAll(Relabel(adds, t, Released), e.admitted, Admitted))
  {
    var call := adds[t].(phase := Released);
    if Limits(c, adds[t].mode) {
      var k := KindOf(adds[t].mode).value;
      var q := c.queues[k];
      var freed := c.(queues := c.queues[k := QueueState(q.capacity + 1, q.waiting)]);
      forall l | l in freed.queues
        ensures QueueAgrees(freed.queues[l], adds[t := call], l) && Balanced(freed, adds[t := call], l) {
        CountsAfterUpdate(adds, t, call, l);
        assert QueueAgrees(c.queues[l], adds, l) && Balanced(c, adds, l);
        assert forall i :: 0 <= i < |c.queues[l].waiting| ==> Belongs(adds, l, c.queues[l].waiting[i]);
      }
      SaneResolve(freed, adds[t := call], k);
      var e := ResolveNext(freed.queues[k]);
      assert freed.queues[k := e.state] == c.queues[k := e.state];
    } else {
      SaneUpdate(c, adds, t, call);
    }
  }

  lemma SaneRemoveFound(c: Control, adds: seq<AddCall>, k: Kind, i: nat)
    requires Sane(c, adds) && c.isEnabled && k in c.queues && i < |c.queues[k].waiting|
    ensures var q := c.queues[k];
            var e := ResolveNext(QueueState(q.capacity + 1, q.waiting[..i] + q.waiting[i + 1..]));
            Sane(c.(queues := c.queues[k := e.state]),
                 RelabelAll(RelabelAll(adds, [q.waiting[i]], Dropped), e.admitted, Admitted))
  {
    var q := c.queues[k];
    var left := QueueState(q.capacity + 1, q.waiting[..i] + q.waiting[i + 1..]);
    var d := c.(queues := c.queues[k := left]);
    SaneLeave(c, adds, k, i, Dropped, q.capacity + 1);
    RelabelOne(adds, q.waiting[i], Dropped);
    SaneResolve(d, Relabel(adds, q.waiting[i].ticket, Dropped), k);
    var e := ResolveNext(left);
    assert d.queues[k := e.state] == c.queues[k := e.state];
  }

  /** A removal from the queue strands one call and starts the next waiter. */
  lemma SaneRemove(c: Control, adds: seq<AddCall>, mode: Mode, id: string)
    requires Sane(c, adds)
    ensures var e := RemoveEffectFor(c, mode, id);
            Sane(e.control, RelabelAll(RelabelAll(adds, e.dropped, Dropped), e.admitted, Admitted))
  {
    if Limits(c, mode) {
      var k := KindOf(mode).value;
      var q := c.queues[k];
      var i := FindIndex(q.waiting, id);
      var e := RemoveEffectFor(c, mode, id);
      if i < |q.waiting| {
        SaneRemoveFound(c, adds, k, i);
        assert e.dropped == [q.waiting[i]];
      } else {
        assert c.queues[k := q] == c.queues;
        assert e == ControlEffect(c, [], []);
      }
    }
  }
}
