/**
 The counting semaphore with a FIFO queue that throttles executions.

 `QueueState` and the functions over it say what each operation computes; the class `ConcurrencyQueue`
 performs the operations in place and is proved against them. The lemmas are about every sequence of
 operations on a fresh queue.
 */
module ConcurrencyQueues {
  import opened Prelude

  /** An execution waiting in the queue. Each call of `enqueue` pushes its own `resolve`; `ticket` identifies it. */
  datatype Waiter = Waiter(executionId: string, ticket: nat)

  datatype QueueState = QueueState(capacity: int, waiting: seq<Waiter>)

  /** What an operation does: the new state, the waiters let through, in order, and the waiters spliced out. */
  datatype Effect = Effect(state: QueueState, admitted: seq<Waiter>, dropped: seq<Waiter>)

  datatype Op = Enqueue(waiter: Waiter) | Dequeue | Remove(executionId: string)

  // ---------- Operations ----------

  /** Takes a unit of capacity; lets the caller through unless the capacity went negative. */
  function EnqueueEffect(q: QueueState, w: Waiter): Effect {
    if q.capacity - 1 < 0 then Effect(QueueState(q.capacity - 1, q.waiting + [w]), [], [])
    else Effect(QueueState(q.capacity - 1, q.waiting), [w], [])
  }

  /** Shifts the first waiter, if any, and resolves it. */
  function ResolveNext(q: QueueState): Effect {
    if q.waiting == [] then Effect(q, [], [])
    else Effect(QueueState(q.capacity, q.waiting[1..]), [q.waiting[0]], [])
  }

  function DequeueEffect(q: QueueState): Effect {
    ResolveNext(QueueState(q.capacity + 1, q.waiting))
  }

  /** The position of the first waiter of an execution, or the length of the queue. */
  function FindIndex(ws: seq<Waiter>, executionId: string): (i: nat)
    ensures i <= |ws|
    ensures i < |ws| ==> ws[i].executionId == executionId
    ensures forall j :: 0 <= j < i ==> ws[j].executionId != executionId
  {
    if ws == [] || ws[0].executionId == executionId then 0 else 1 + FindIndex(ws[1..], executionId)
  }

  predicate Has(q: QueueState, executionId: string) {
    FindIndex(q.waiting, executionId) < |q.waiting|
  }

  /** Splices the first waiter of the execution out, gives a unit of capacity back, and resolves the next waiter. */
  function RemoveEffect(q: QueueState, executionId: string): Effect {
    var i := FindIndex(q.waiting, executionId);
    if i == |q.waiting| then Effect(q, [], [])
    else
      var e := ResolveNext(QueueState(q.capacity + 1, q.waiting[..i] + q.waiting[i + 1..]));
      e.(dropped := [q.waiting[i]])
  }

  function Apply(q: QueueState, op: Op): Effect {
    match op
    case Enqueue(w) => EnqueueEffect(q, w)
    case Dequeue => DequeueEffect(q)
    case Remove(id) => RemoveEffect(q, id)
  }

  // ---------- Runs ----------

  /** A queue together with everything that has happened to it. */
  datatype Log = Log(state: QueueState, enqueued: seq<Waiter>, admitted: seq<Waiter>,
                     dropped: set<Waiter>, releases: nat)

  function Extend(l: Log, op: Op): Log {
    var e := Apply(l.state, op);
    Log(e.state,
        if op.Enqueue? then l.enqueued + [op.waiter] else l.enqueued,
        l.admitted + e.admitted,
        l.dropped + (set w | w in e.dropped),
        if op.Dequeue? then l.releases + 1 else l.releases)
  }

  function RunQueue(limit: nat, ops: seq<Op>): Log {
    if ops == [] then Log(QueueState(limit, []), [], [], {}, 0)
    else Extend(RunQueue(limit, ops[..|ops| - 1]), ops[|ops| - 1])
  }

  /** Admitted executions that have not given their slot back. */
  function InUse(l: Log): int {
    |l.admitted| - l.releases
  }

  /** No `resolve` function is pushed twice. */
  ghost predicate DistinctTickets(ops: seq<Op>) {
    forall i, j :: 0 <= i < j < |ops| && ops[i].Enqueue? && ops[j].Enqueue? ==> ops[i].waiter != ops[j].waiter
  }

  /** The removal that makes the limit fail: the removed execution has company in the queue. */
  predicate Overtakes(q: QueueState, op: Op) {
    op.Remove? && Has(q, op.executionId) && |q.waiting| >= 2
  }

  /** Somewhere in the run, a removal overtook. */
  ghost predicate SomeOvertake(limit: nat, ops: seq<Op>) {
    ops != [] &&
    (var before, op := ops[..|ops| - 1], ops[|ops| - 1];
     SomeOvertake(limit, before) || Overtakes(RunQueue(limit, before).state, op))
  }

  ghost predicate Sound(limit: nat, l: Log) {
    && limit - l.state.capacity - |l.state.waiting| == InUse(l)
    && (l.state.waiting == [] || |l.state.waiting| <= -l.state.capacity)
  }

  lemma {:induction false} RunIsSound(limit: nat, ops: seq<Op>)
    ensures Sound(limit, RunQueue(limit, ops))
  {
    if ops != [] {
      RunIsSound(limit, ops[..|ops| - 1]);
    }
  }

  /** Capacity is conserved by every run, removals included, and nobody waits while a slot is free. */
  lemma SlotsAreConserved(limit: nat, ops: seq<Op>)
    ensures var l := RunQueue(limit, ops);
            && l.state.capacity == limit - InUse(l) - |l.state.waiting|
            && (l.state.waiting != [] ==> InUse(l) >= limit)
  {
    RunIsSound(limit, ops);
  }

  /** Those let through, then those waiting, are the callers in order, less the removed ones. */
  ghost predicate Ordered(l: Log) {
    && Distinct(l.enqueued)
    && (forall w :: w in l.dropped ==> w in l.enqueued)
    && l.admitted + l.state.waiting == Without(l.enqueued, l.dropped)
  }

  lemma EnqueueKeepsOrder(limit: nat, l: Log, w: Waiter)
    requires Ordered(l) && Sound(limit, l) && w !in l.enqueued
    ensures Ordered(Extend(l, Enqueue(w)))
  {
    var m := Extend(l, Enqueue(w));
    DistinctAppend(l.enqueued, w);
    AppendKept(l.enqueued, w, l.dropped);
    assert m.dropped == l.dropped && m.enqueued == l.enqueued + [w];
    assert m.admitted + m.state.waiting == l.admitted + l.state.waiting + [w];
  }

  lemma AppendKept(ws: seq<Waiter>, w: Waiter, gone: set<Waiter>)
    requires w !in gone
    ensures Without(ws + [w], gone) == Without(ws, gone) + [w]
  {
    WithoutConcat(ws, [w], gone);
    assert Without([w], gone) == [w];
  }

  lemma DequeueKeepsOrder(l: Log)
    requires Ordered(l)
    ensures Ordered(Extend(l, Dequeue))
  {
    var m := Extend(l, Dequeue);
    assert m.dropped == l.dropped;
    assert m.admitted + m.state.waiting == l.admitted + l.state.waiting;
  }

  lemma RemovalSplices(q: QueueState, id: string)
    requires Has(q, id)
    ensures var e, i := RemoveEffect(q, id), FindIndex(q.waiting, id);
            && e.admitted + e.state.waiting == q.waiting[..i] + q.waiting[i + 1..]
            && e.dropped == [q.waiting[i]]
  {
  }

  lemma RemovalKeepsOrder(l: Log, id: string)
    requires Ordered(l)
    ensures Ordered(Extend(l, Remove(id)))
  {
    var ws := l.state.waiting;
    var i := FindIndex(ws, id);
    var m := Extend(l, Remove(id));
    if i < |ws| {
      RemovalSplices(l.state, id);
      SplicedOrder(l, m, i);
    } else {
      assert m.dropped == l.dropped && m.admitted == l.admitted;
    }
  }

  lemma SplicedOrder(l: Log, m: Log, i: nat)
    requires Ordered(l) && i < |l.state.waiting|
    requires m.enqueued == l.enqueued && m.dropped == l.dropped + {l.state.waiting[i]}
    requires m.admitted + m.state.waiting == l.admitted + (l.state.waiting[..i] + l.state.waiting[i + 1..])
    ensures Ordered(m)
  {
    var front, w, back := l.admitted + l.state.waiting[..i], l.state.waiting[i], l.state.waiting[i + 1..];
    assert l.admitted + l.state.waiting == front + [w] + back;
    SpliceWithout(l.enqueued, l.dropped, front, w, back);
    assert m.admitted + m.state.waiting == front + back;
  }

  lemma SpliceWithout(all: seq<Waiter>, gone: set<Waiter>, front: seq<Waiter>, w: Waiter, back: seq<Waiter>)
    requires Distinct(all) && Without(all, gone) == front + [w] + back
    ensures Without(all, gone + {w}) == front + back && w in all
  {
    WithoutDistinct(all, gone);
    DistinctAround(front, w, back);
    SpliceOut(front, w, back);
    WithoutTwice(all, gone, {w});
    WithoutMembers(all, gone, w);
    assert (front + [w] + back)[|front|] == w;
  }

  /** First in, first out, over every run. */
  lemma {:induction false} FirstInFirstOut(limit: nat, ops: seq<Op>)
    requires DistinctTickets(ops)
    ensures Ordered(RunQueue(limit, ops))
    ensures forall w :: w in RunQueue(limit, ops).enqueued ==> Enqueue(w) in ops
  {
    if ops != [] {
      var before, op := ops[..|ops| - 1], ops[|ops| - 1];
      var l := RunQueue(limit, before);
      FirstInFirstOut(limit, before);
      RunIsSound(limit, before);
      assert ops == before + [op];
      match op
      case Enqueue(w) =>
        assert w !in l.enqueued by {
          assert Enqueue(w) !in before;
        }
        EnqueueKeepsOrder(limit, l, w);
      case Dequeue => DequeueKeepsOrder(l);
      case Remove(id) => RemovalKeepsOrder(l, id);
    }
  }

  /** One step from a state within the limit stays within it exactly when it is not an overtaking removal. */
  lemma StepWithinLimit(limit: nat, l: Log, op: Op)
    requires Sound(limit, l)
    requires InUse(l) <= limit
    ensures InUse(Extend(l, op)) <= limit <==> !Overtakes(l.state, op)
  {
  }

  /** At every point of the run, at most `limit` executions are in use. */
  ghost predicate AlwaysWithin(limit: nat, ops: seq<Op>) {
    InUse(RunQueue(limit, ops)) <= limit && (ops == [] || AlwaysWithin(limit, ops[..|ops| - 1]))
  }

  /**
   `enqueue` and `dequeue` never let more than `limit` executions through. `remove` does: it resolves the
   next waiter although no slot became free. The limit holds at every point of a run exactly when no
   removal in it found its execution queued together with another one.
   */
  lemma {:induction false} LimitHoldsIffNoOvertake(limit: nat, ops: seq<Op>)
    ensures AlwaysWithin(limit, ops) <==> !SomeOvertake(limit, ops)
  {
    if ops != [] {
      var before, op := ops[..|ops| - 1], ops[|ops| - 1];
      LimitHoldsIffNoOvertake(limit, before);
      if AlwaysWithin(limit, before) {
        RunIsSound(limit, before);
        StepWithinLimit(limit, RunQueue(limit, before), op);
      }
    }
  }

  /** Limit 1: the first execution runs, two wait; removing one of them starts the other beside the first. */
  lemma RemoveOverAdmits()
    ensures var a, b, c := Waiter("1", 0), Waiter("2", 1), Waiter("3", 2);
            InUse(RunQueue(1, [Enqueue(a), Enqueue(b), Enqueue(c), Remove("2")])) == 2
  {
    var a, b, c := Waiter("1", 0), Waiter("2", 1), Waiter("3", 2);
    var ops := [Enqueue(a), Enqueue(b), Enqueue(c), Remove("2")];
    assert RunQueue(1, []) == Log(QueueState(1, []), [], [], {}, 0);
    assert ops[..1] == [Enqueue(a)] && ops[..1][..0] == [];
    assert RunQueue(1, ops[..1]).admitted == [a] && RunQueue(1, ops[..1]).state == QueueState(0, []);
    assert ops[..2][..1] == ops[..1];
    assert RunQueue(1, ops[..2]).state == QueueState(-1, [b]);
    assert ops[..3][..2] == ops[..2];
    assert RunQueue(1, ops[..3]).state == QueueState(-2, [b, c]);
  }

  // ---------- Emptying the queue ----------

  /** Removing the given executions one after the other. */
  function RemoveEach(q: QueueState, ids: seq<string>): Effect
    decreases |ids|
  {
    if ids == [] then Effect(q, [], [])
    else
      var first := RemoveEffect(q, ids[0]);
      var rest := RemoveEach(first.state, ids[1..]);
      Effect(rest.state, first.admitted + rest.admitted, first.dropped + rest.dropped)
  }

  function Ids(ws: seq<Waiter>): (ids: seq<string>)
    ensures |ids| == |ws|
    ensures forall i :: 0 <= i < |ws| ==> ids[i] == ws[i].executionId
  {
    if ws == [] then [] else [ws[0].executionId] + Ids(ws[1..])
  }

  ghost predicate DistinctIds(ws: seq<Waiter>) {
    forall i, j :: 0 <= i < j < |ws| ==> ws[i].executionId != ws[j].executionId
  }

  function EveryOther<T>(s: seq<T>): seq<T> {
    if |s| <= 1 then s else [s[0]] + EveryOther(s[2..])
  }

  /** `getAll`: the distinct execution ids of a queue in the order of a JavaScript `Set`. */
  function Snapshot(q: QueueState): seq<string> {
    Unique(Ids(q.waiting))
  }

  function Unique(ids: seq<string>): seq<string> {
    if ids == [] then []
    else
      var front := Unique(ids[..|ids| - 1]);
      if ids[|ids| - 1] in front then front else front + [ids[|ids| - 1]]
  }

  lemma {:induction false} UniqueMembers(ids: seq<string>, id: string)
    ensures id in Unique(ids) <==> id in ids
  {
    if ids != [] {
      var n := |ids| - 1;
      UniqueMembers(ids[..n], id);
      assert ids == ids[..n] + [ids[n]];
    }
  }

  lemma {:induction false} UniqueHead(ids: seq<string>)
    requires ids != []
    ensures Unique(ids) != [] && Unique(ids)[0] == ids[0]
  {
    if |ids| > 1 {
      UniqueHead(ids[..|ids| - 1]);
    }
  }

  lemma {:induction false} UniqueOfDistinct(ids: seq<string>)
    requires Distinct(ids)
    ensures Unique(ids) == ids
  {
    if ids != [] {
      var n := |ids| - 1;
      UniqueOfDistinct(ids[..n]);
      assert ids == ids[..n] + [ids[n]];
    }
  }

  /** All capacity is back and nobody waits. */
  predicate AllReleased(before: QueueState, after: QueueState) {
    after == QueueState(before.capacity + |before.waiting|, [])
  }

  /** Removals lose nobody: an entry is dropped, started or left, and each dropped one gives a unit back. */
  lemma {:induction false} RemoveEachCounts(q: QueueState, ids: seq<string>)
    ensures var e := RemoveEach(q, ids);
            && |e.dropped| + |e.admitted| + |e.state.waiting| == |q.waiting|
            && e.state.capacity == q.capacity + |e.dropped|
    decreases |ids|
  {
    if ids != [] {
      RemoveEachCounts(RemoveEffect(q, ids[0]).state, ids[1..]);
    }
  }

  /**
   Removing every queued id drops all entries, so that all capacity comes back and nothing is started,
   exactly when there is at most one.
   */
  lemma EmptyingReleasesAllIff(q: QueueState)
    ensures var e := RemoveEach(q, Snapshot(q));
            && (AllReleased(q, e.state) <==> |q.waiting| <= 1)
            && (e.admitted == [] <==> |q.waiting| <= 1)
  {
    var e := RemoveEach(q, Snapshot(q));
    RemoveEachCounts(q, Snapshot(q));
    if |q.waiting| == 1 {
      RemoveOnly(q);
      UniqueOfDistinct(Ids(q.waiting));
    } else if |q.waiting| >= 2 {
      UniqueHead(Ids(q.waiting));
      assert RemoveEffect(q, Snapshot(q)[0]).admitted == [q.waiting[1]];
      assert e.admitted != [];
    }
  }

  /** Each removal takes at most two entries out, the one it drops and the one it starts. */
  lemma {:induction false} TwoEach(q: QueueState, ids: seq<string>)
    ensures |RemoveEach(q, ids).dropped| <= |ids|
    ensures |RemoveEach(q, ids).admitted| <= |RemoveEach(q, ids).dropped|
    decreases |ids|
  {
    if ids != [] {
      TwoEach(RemoveEffect(q, ids[0]).state, ids[1..]);
    }
  }

  /** So a queue in which executions repeat too often does not end empty. */
  lemma EmptiesOnlyIf(q: QueueState)
    ensures |q.waiting| <= |RemoveEach(q, Snapshot(q)).state.waiting| + 2 * |Snapshot(q)|
    ensures RemoveEach(q, Snapshot(q)).state.waiting == [] ==> |q.waiting| <= 2 * |Snapshot(q)|
  {
    RemoveEachCounts(q, Snapshot(q));
    TwoEach(q, Snapshot(q));
  }

  lemma {:induction false} LeftWereWaiting(q: QueueState, ids: seq<string>, w: Waiter)
    requires w in RemoveEach(q, ids).state.waiting
    ensures w in q.waiting
    decreases |ids|
  {
    if ids != [] {
      LeftWereWaiting(RemoveEffect(q, ids[0]).state, ids[1..], w);
    }
  }

  lemma {:induction false} OneOfEachDropped(q: QueueState, ids: seq<string>, w: Waiter) returns (d: Waiter)
    requires w in RemoveEach(q, ids).state.waiting && w.executionId in ids
    ensures d in RemoveEach(q, ids).dropped && d.executionId == w.executionId
    decreases |ids|
  {
    var first := RemoveEffect(q, ids[0]);
    if w.executionId == ids[0] {
      LeftWereWaiting(q, ids, w);
      d := first.dropped[0];
    } else {
      d := OneOfEachDropped(first.state, ids[1..], w);
    }
  }

  /** What stays queued is an execution that was queued several times, of which one entry was dropped. */
  lemma LeftoversAreRepeated(q: QueueState, w: Waiter)
    requires w in RemoveEach(q, Snapshot(q)).state.waiting
    ensures w in q.waiting
    ensures exists d :: d in RemoveEach(q, Snapshot(q)).dropped && d.executionId == w.executionId
  {
    LeftWereWaiting(q, Snapshot(q), w);
    var i :| 0 <= i < |q.waiting| && q.waiting[i] == w;
    assert Ids(q.waiting)[i] == w.executionId;
    UniqueMembers(Ids(q.waiting), w.executionId);
    var d := OneOfEachDropped(q, Snapshot(q), w);
  }

  /** An execution queued three times: one entry is dropped, one started, and one stays queued. */
  lemma RepeatedIdsStayQueued()
    ensures var a, b, c := Waiter("1", 0), Waiter("1", 1), Waiter("1", 2);
            var q := QueueState(-3, [a, b, c]);
            RemoveEach(q, Snapshot(q)) == Effect(QueueState(-2, [c]), [b], [a])
  {
    var a, b, c := Waiter("1", 0), Waiter("1", 1), Waiter("1", 2);
    var q := QueueState(-3, [a, b, c]);
    assert Ids(q.waiting) == ["1", "1", "1"];
    UniqueOfThree("1");
    FirstRemovedSecondStarted(q);
    RemoveEachStep(q, "1", []);
  }

  lemma UniqueOfThree(id: string)
    ensures Unique([id, id, id]) == [id]
  {
    assert Unique([id]) == [id];
    assert [id, id][..1] == [id] && Unique([id, id]) == [id];
    assert [id, id, id][..2] == [id, id];
  }

  lemma FirstRemovedSecondStarted(q: QueueState)
    requires |q.waiting| >= 2
    ensures RemoveEffect(q, q.waiting[0].executionId)
         == Effect(QueueState(q.capacity + 1, q.waiting[2..]), [q.waiting[1]], [q.waiting[0]])
  {
    var ws := q.waiting;
    assert ws[..0] + ws[1..] == ws[1..] && ws[1..][1..] == ws[2..];
  }

  /**
   Without repeated ids, emptying a queue drops every other execution: each removal starts the one behind
   it. The queue does end empty, but only half of the capacity its entries took comes back.
   */
  lemma RemoveAllStartsHalf(q: QueueState)
    requires DistinctIds(q.waiting)
    ensures Halved(q, RemoveEach(q, Snapshot(q)))
  {
    UniqueOfDistinct(Ids(q.waiting));
    RemoveIdsStartsHalf(q);
  }

  lemma {:induction false} RemoveIdsStartsHalf(q: QueueState)
    requires DistinctIds(q.waiting)
    ensures Halved(q, RemoveEach(q, Ids(q.waiting)))
    decreases |q.waiting|
  {
    var ws := q.waiting;
    if |ws| == 1 {
      RemoveOnly(q);
    } else if |ws| >= 2 {
      var r := QueueState(q.capacity + 1, ws[2..]);
      RemoveFirstOfMany(q);
      RemoveIdsStartsHalf(r);
      HalvedTail(q, RemoveEach(r, Ids(r.waiting)));
    }
  }

  ghost predicate Halved(q: QueueState, e: Effect) {
    && e.state == QueueState(q.capacity + (|q.waiting| + 1) / 2, [])
    && e.dropped == EveryOther(q.waiting)
    && e.admitted == (if q.waiting == [] then [] else EveryOther(q.waiting[1..]))
  }

  lemma HalvedTail(q: QueueState, rest: Effect)
    requires |q.waiting| >= 2 && Halved(QueueState(q.capacity + 1, q.waiting[2..]), rest)
    ensures Halved(q, Effect(rest.state, [q.waiting[1]] + rest.admitted, [q.waiting[0]] + rest.dropped))
  {
    EveryOtherTail(q.waiting);
  }

  lemma EveryOtherTail<T>(s: seq<T>)
    requires |s| >= 2
    ensures EveryOther(s) == [s[0]] + EveryOther(s[2..])
    ensures EveryOther(s[1..]) == [s[1]] + (if s[2..] == [] then [] else EveryOther(s[2..][1..]))
  {
    if |s| > 2 {
      assert s[1..][2..] == s[2..][1..];
    }
  }

  lemma RemoveOnly(q: QueueState)
    requires |q.waiting| == 1
    ensures RemoveEach(q, Ids(q.waiting)) == Effect(QueueState(q.capacity + 1, []), [], [q.waiting[0]])
  {
    var w := q.waiting[0];
    assert Ids(q.waiting) == [w.executionId];
    assert RemoveEach(RemoveEffect(q, w.executionId).state, []) == Effect(QueueState(q.capacity + 1, []), [], []);
  }

  /** Removing the first of several starts the second, whose own removal then finds nothing. */
  lemma RemoveFirstOfMany(q: QueueState)
    requires DistinctIds(q.waiting) && |q.waiting| >= 2
    ensures var ws := q.waiting;
            var r := QueueState(q.capacity + 1, ws[2..]);
            var rest := RemoveEach(r, Ids(r.waiting));
            RemoveEach(q, Ids(ws)) == Effect(rest.state, [ws[1]] + rest.admitted, [ws[0]] + rest.dropped)
  {
    var ws := q.waiting;
    var a, b, rest := ws[0].executionId, ws[1].executionId, Ids(ws[2..]);
    FirstStartsSecond(q);
    IdsOfMany(ws);
    RemoveEachStep(q, a, [b] + rest);
    RemoveEachStep(QueueState(q.capacity + 1, ws[2..]), b, rest);
  }

  lemma FirstStartsSecond(q: QueueState)
    requires DistinctIds(q.waiting) && |q.waiting| >= 2
    ensures var ws, r := q.waiting, QueueState(q.capacity + 1, q.waiting[2..]);
            && RemoveEffect(q, ws[0].executionId) == Effect(r, [ws[1]], [ws[0]])
            && RemoveEffect(r, ws[1].executionId) == Effect(r, [], [])
  {
    var ws := q.waiting;
    FirstRemovedSecondStarted(q);
    forall w | w in ws[2..] ensures w.executionId != ws[1].executionId {
    }
    assert FindIndex(ws[2..], ws[1].executionId) == |ws[2..]|;
  }

  lemma IdsOfMany(ws: seq<Waiter>)
    requires |ws| >= 2
    ensures Ids(ws) == [ws[0].executionId] + ([ws[1].executionId] + Ids(ws[2..]))
  {
    assert ws[1..][1..] == ws[2..];
  }

  lemma RemoveEachStep(q: QueueState, id: string, ids: seq<string>)
    ensures var first := RemoveEffect(q, id);
            var rest := RemoveEach(first.state, ids);
            RemoveEach(q, [id] + ids) ==
              Effect(rest.state, first.admitted + rest.admitted, first.dropped + rest.dropped)
  {
    assert ([id] + ids)[1..] == ids;
  }

  // ---------- The class ----------

  class ConcurrencyQueue {
    var capacity: int
    var queue: seq<Waiter>

    ghost function Abs(): QueueState
      reads this
    {
      QueueState(capacity, queue)
    }

    constructor (capacity: int)
      ensures Abs() == QueueState(capacity, [])
    {
      this.capacity := capacity;
      this.queue := [];
    }

    /** Returns whether the promise is already resolved, that is, whether the caller goes straight on. */
    method Enqueue(w: Waiter) returns (proceed: bool)
      modifies this
      ensures Abs() == EnqueueEffect(old(Abs()), w).state
      ensures (if proceed then [w] else []) == EnqueueEffect(old(Abs()), w).admitted
    {
      capacity := capacity - 1;
      proceed := true;
      if capacity < 0 {
        queue := queue + [w];
        proceed := false;
      }
    }

    method Dequeue() returns (resolved: seq<Waiter>)
      modifies this
      ensures Abs() == DequeueEffect(old(Abs())).state
      ensures resolved == DequeueEffect(old(Abs())).admitted
    {
      capacity := capacity + 1;
      resolved := ResolveNextWaiter();
    }

    method Remove(executionId: string) returns (resolved: seq<Waiter>, dropped: seq<Waiter>)
      modifies this
      ensures Effect(Abs(), resolved, dropped) == RemoveEffect(old(Abs()), executionId)
    {
      resolved, dropped := [], [];
      var index := 0;
      while index < |queue| && queue[index].executionId != executionId
        invariant 0 <= index <= FindIndex(queue, executionId)
      {
        index := index + 1;
      }
      assert index == FindIndex(queue, executionId);
      if index < |queue| {
        dropped := [queue[index]];
        queue := queue[..index] + queue[index + 1..];
        capacity := capacity + 1;
        resolved := ResolveNextWaiter();
      }
    }

    method ResolveNextWaiter() returns (resolved: seq<Waiter>)
      modifies this
      ensures Abs() == ResolveNext(old(Abs())).state
      ensures resolved == ResolveNext(old(Abs())).admitted
    {
      resolved := [];
      if queue != [] {
        resolved := [queue[0]];
        queue := queue[1..];
      }
    }
  }
}
