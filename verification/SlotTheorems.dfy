/** What holds of the concurrency slots in every reachable state, and when the limit is kept. */
module SlotTheorems {
  import opened Prelude
  import opened ConcurrencyQueues
  import opened ConcurrencyControl
  import opened Executions
  import opened Slots
  import opened Invariants

  lemma StartIsSound(regular: bool, production: int, evaluation: int)
    requires Init(!regular, production, evaluation).Some?
    ensures var s := Start(regular, Init(!regular, production, evaluation).value); Inv(s) && WithinLimits(s)
  {
  }

  /**
   In every reachable state, for each limited kind: the capacity taken is that of the calls past the throttle
   whose callback has not run, failed ones included, and of those queued; the queue holds exactly the latter,
   and it is empty while a slot is free.
   */
  lemma SlotsBalance(regular: bool, production: int, evaluation: int, es: seq<Event>, k: Kind)
    requires Init(!regular, production, evaluation).Some?
    requires Legal(Start(regular, Init(!regular, production, evaluation).value), es)
    ensures var s := Run(Start(regular, Init(!regular, production, evaluation).value), es);
            k in s.control.queues ==>
              && |s.control.queues[k].waiting| == Lining(s.adds, k)
              && (s.control.isEnabled ==>
                    && k in s.control.limits
                    && s.control.limits[k] - s.control.queues[k].capacity == Holding(s.adds, k) + Lining(s.adds, k)
                    && (Lining(s.adds, k) > 0 ==> Holding(s.adds, k) >= s.control.limits[k]))
  {
    StartIsSound(regular, production, evaluation);
    RunKeeps(Start(regular, Init(!regular, production, evaluation).value), es);
    var s := Run(Start(regular, Init(!regular, production, evaluation).value), es);
    if k in s.control.queues {
      assert QueueAgrees(s.control.queues[k], s.adds, k);
      assert s.control.isEnabled ==> Balanced(s.control, s.adds, k);
    }
  }

  // ---------- The limit ----------

  /** No more slots are held than the limits allow, whether the service is on or off. */
  ghost predicate WithinLimits(s: State) {
    forall k :: k in s.control.queues && k in s.control.limits ==> Holding(s.adds, k) <= s.control.limits[k]
  }

  /** A removal from a queue that holds another execution too. */
  predicate RemovalOvertakes(s: State, e: Event) {
    && e.RemoveQueued?
    && Limits(s.control, e.mode)
    && Overtakes(s.control.queues[KindOf(e.mode).value], Remove(e.id))
  }

  /** The kind of the call that passes the throttle in a step while the service is off. */
  function Newcomer(s: State, e: Event): Option<Kind>
    requires Enabled(s, e)
  {
    match e
    case Begin(mode, Some(_)) => KindOf(mode)
    case Created(t, id) => if id != "" then KindOf(s.adds[t].mode) else None
    case _ => None
  }

  /** A call that meets a service turned off, while its kind is at its limit. */
  ghost predicate Oversteps(s: State, e: Event)
    requires Enabled(s, e)
  {
    var k := Newcomer(s, e);
    && !s.control.isEnabled
    && k.Some? && k.value in s.control.queues && k.value in s.control.limits
    && Holding(s.adds, k.value) >= s.control.limits[k.value]
  }

  // ---------- While the service is on ----------

  ghost predicate Tight(q: QueueState) {
    q.capacity + |q.waiting| >= 0
  }

  lemma WithinIsTight(s: State)
    requires Inv(s) && s.control.isEnabled
    ensures WithinLimits(s) <==> forall k :: k in s.control.queues ==> Tight(s.control.queues[k])
  {
    forall k | k in s.control.queues
      ensures k in s.control.limits
      ensures Tight(s.control.queues[k]) <==> Holding(s.adds, k) <= s.control.limits[k]
    {
      assert Balanced(s.control, s.adds, k);
    }
  }

  lemma TightStep(q: QueueState, op: Op)
    requires Tight(q) && Bounded(q)
    ensures Tight(Apply(q, op).state) <==> !Overtakes(q, op)
  {
  }

  /** The queue operation a step performs, if any. */
  function QueueOp(s: State, e: Event): Option<(Mode, Op)>
    requires Enabled(s, e)
  {
    match e
    case Begin(mode, Some(id)) => Some((mode, Enqueue(Waiter(id, |s.adds|))))
    case Created(t, id) => if id != "" && s.regular then Some((s.adds[t].mode, Enqueue(Waiter(id, t)))) else None
    case Settle(r) => Some((s.recs[r].mode, Dequeue))
    case RemoveQueued(mode, id) => Some((mode, Remove(id)))
    case _ => None
  }

  lemma StepUsesQueue(s: State, e: Event)
    requires Inv(s) && Enabled(s, e) && !e.Shutdown?
    ensures var op := QueueOp(s, e);
            Next(s, e).control == if op.Some? then OnQueue(s.control, op.value.0, op.value.1).control else s.control
  {
  }

  ghost predicate AllTight(c: Control) {
    forall k :: k in c.queues ==> Tight(c.queues[k])
  }

  lemma QueueStepTight(c: Control, mode: Mode, op: Op)
    requires c.isEnabled && AllTight(c) && forall k :: k in c.queues ==> Bounded(c.queues[k])
    ensures AllTight(OnQueue(c, mode, op).control) <==>
              !(Limits(c, mode) && Overtakes(c.queues[KindOf(mode).value], op))
  {
    if Limits(c, mode) {
      var k := KindOf(mode).value;
      var d := OnQueue(c, mode, op).control;
      TightStep(c.queues[k], op);
      assert d.queues[k] == Apply(c.queues[k], op).state;
      assert forall l :: l in d.queues && l != k ==> d.queues[l] == c.queues[l];
    }
  }

  lemma OnStepWithinLimits(s: State, e: Event)
    requires Inv(s) && WithinLimits(s) && Enabled(s, e) && s.control.isEnabled && !e.Shutdown?
    ensures WithinLimits(Next(s, e)) <==> !RemovalOvertakes(s, e)
  {
    NextKeeps(s, e);
    StepUsesQueue(s, e);
    WithinIsTight(s);
    WithinIsTight(Next(s, e));
    var op := QueueOp(s, e);
    if op.Some? {
      QueueStepTight(s.control, op.value.0, op.value.1);
    }
  }

  // ---------- While the service is off ----------

  lemma ThrottledOff(s: State, t: nat)
    requires t < |s.adds| && !s.control.isEnabled
    ensures Throttled(s, t).adds == s.adds[t := s.adds[t].(phase := Admitted)]
  {
    var w := Waiter(s.adds[t].executionId, t);
    RelabelOne(Relabel(s.adds, t, Queued), w, Admitted);
  }

  lemma BeginOff(s: State, mode: Mode, id: Option<string>, k: Kind)
    requires !s.control.isEnabled
    ensures Holding(Next(s, Begin(mode, id)).adds, k)
         == Holding(s.adds, k) + (if id.Some? && KindOf(mode) == Some(k) then 1 else 0)
  {
    var call := AddCall(mode, if id.Some? then id.value else "", id.Some?, Creating);
    CountsAfterAppend(s.adds, call, k);
    if id.Some? {
      var begun := s.(adds := s.adds + [call]);
      ThrottledOff(begun, |s.adds|);
      CountsAfterUpdate(begun.adds, |s.adds|, call.(phase := Admitted), k);
    }
  }

  lemma CreatedOff(s: State, t: nat, id: string, k: Kind)
    requires Enabled(s, Created(t, id)) && !s.control.isEnabled
    ensures Holding(AfterCreation(s, t, id).adds, k)
         == Holding(s.adds, k) + (if id != "" && KindOf(s.adds[t].mode) == Some(k) then 1 else 0)
  {
    var named := s.adds[t].(executionId := id);
    var call := named.(phase := if id == "" then Failed(false) else Admitted);
    if id != "" && s.regular {
      ThrottledOff(s.(adds := s.adds[t := named]), t);
    }
    assert AfterCreation(s, t, id).adds == s.adds[t := call];
    CountsAfterUpdate(s.adds, t, call, k);
  }

  lemma SettleOff(s: State, r: nat, k: Kind)
    requires Inv(s) && Enabled(s, Settle(r)) && !s.control.isEnabled
    ensures Holding(Callback(s, r).adds, k) <= Holding(s.adds, k)
  {
    assert RecordOk(s, r);
    var t := s.recs[r].call;
    assert Callback(s, r).adds == s.adds[t := s.adds[t].(phase := Released)];
    CountsAfterUpdate(s.adds, t, s.adds[t].(phase := Released), k);
  }

  /** With the service off, only the newcomer adds to the slots held. */
  lemma HoldingOff(s: State, e: Event, k: Kind)
    requires Inv(s) && Enabled(s, e) && !s.control.isEnabled
    ensures Newcomer(s, e) == Some(k) ==> Holding(Next(s, e).adds, k) == Holding(s.adds, k) + 1
    ensures Newcomer(s, e) != Some(k) ==> Holding(Next(s, e).adds, k) <= Holding(s.adds, k)
  {
    match e
    case Begin(mode, id) => BeginOff(s, mode, id, k);
    case Created(t, id) => CreatedOff(s, t, id, k);
    case CreationFails(t) => CountsAfterUpdate(s.adds, t, s.adds[t].(phase := Failed(false)), k);
    case UpdateFails(t) => CountsAfterUpdate(s.adds, t, s.adds[t].(phase := Failed(true)), k);
    case Register(t, _) => CountsAfterUpdate(s.adds, t, s.adds[t].(phase := Registered), k);
    case Settle(r) => SettleOff(s, r, k);
    case RemoveQueued(_, _) =>
    case Shutdown(cancelAll) => ShutdownNeverCancels(s, cancelAll);
    case _ => MethodsOnlyTouchRecords(s, e);
  }

  lemma OffStepWithinLimits(s: State, e: Event)
    requires Inv(s) && WithinLimits(s) && Enabled(s, e) && !s.control.isEnabled
    ensures WithinLimits(Next(s, e)) <==> !Oversteps(s, e)
  {
    SameKinds(s, e);
    forall k | k in s.control.queues && k in s.control.limits
      ensures Holding(Next(s, e).adds, k) <= s.control.limits[k]
         <==> !(Newcomer(s, e) == Some(k) && Oversteps(s, e))
    {
      HoldingOff(s, e, k);
    }
  }

  lemma SameKinds(s: State, e: Event)
    requires Inv(s) && Enabled(s, e)
    ensures Next(s, e).control.queues.Keys == s.control.queues.Keys
    ensures Next(s, e).control.limits == s.control.limits
  {
    if e.Shutdown? {
      ShutdownNeverCancels(s, e.cancelAll);
    } else {
      StepUsesQueue(s, e);
    }
  }

  // ---------- Steps and runs ----------

  /**
   A step exceeds a limit exactly when it removes an execution from a queue in which another one waits, or
   when it is a call for which the service has been turned off and whose kind is at its limit.
   */
  lemma StepWithinLimits(s: State, e: Event)
    requires Inv(s) && WithinLimits(s) && Enabled(s, e)
    ensures WithinLimits(Next(s, e)) <==> !(RemovalOvertakes(s, e) || Oversteps(s, e))
  {
    if !s.control.isEnabled {
      OffStepWithinLimits(s, e);
    } else if e.Shutdown? {
      ShutdownNeverCancels(s, e.cancelAll);
    } else {
      OnStepWithinLimits(s, e);
    }
  }

  ghost predicate AlwaysWithinLimits(s: State, es: seq<Event>)
    requires Legal(s, es)
    decreases |es|
  {
    WithinLimits(s) && (es == [] || AlwaysWithinLimits(Next(s, es[0]), es[1..]))
  }

  ghost predicate SomeExcess(s: State, es: seq<Event>)
    requires Legal(s, es)
    decreases |es|
  {
    && es != []
    && (RemovalOvertakes(s, es[0]) || Oversteps(s, es[0]) || SomeExcess(Next(s, es[0]), es[1..]))
  }

  /** The concurrency limits are kept throughout a run, whatever the interleaving, exactly when no such step occurs. */
  lemma {:induction false} LimitKeptIffNoExcess(s: State, es: seq<Event>)
    requires Inv(s) && WithinLimits(s) && Legal(s, es)
    ensures AlwaysWithinLimits(s, es) <==> !SomeExcess(s, es)
    decreases |es|
  {
    if es != [] {
      StepWithinLimits(s, es[0]);
      NextKeeps(s, es[0]);
      if !(RemovalOvertakes(s, es[0]) || Oversteps(s, es[0])) {
        LimitKeptIffNoExcess(Next(s, es[0]), es[1..]);
      }
    }
  }

  // ---------- Executions that run ----------

  /** The registered executions of a kind whose callback has not run. */
  ghost function Live(s: State, k: Kind): set<nat> {
    set r: nat | r < |s.recs| && KindOf(s.recs[r].mode) == Some(k) && !s.recs[r].callbackRan
  }

  ghost function Holders(adds: seq<AddCall>, k: Kind): set<nat> {
    set t: nat | t < |adds| && Holds(adds[t], k)
  }

  lemma HoldersExtend(adds: seq<AddCall>, call: AddCall, k: Kind)
    ensures Holders(adds + [call], k) == Holders(adds, k) + (if Holds(call, k) then {|adds|} else {})
  {
    var more := adds + [call];
    forall t: nat ensures t in Holders(more, k) <==> t in Holders(adds, k) || (t == |adds| && Holds(call, k)) {
      if t < |adds| {
        assert more[t] == adds[t];
      }
    }
  }

  lemma {:induction false} HoldersCounted(adds: seq<AddCall>, k: Kind)
    ensures |Holders(adds, k)| == Holding(adds, k)
  {
    if adds != [] {
      var n := |adds| - 1;
      HoldersCounted(adds[..n], k);
      HoldersExtend(adds[..n], adds[n], k);
      assert adds[..n] + [adds[n]] == adds;
    }
  }

  lemma {:induction false} CallsAreDistinct(s: State, live: set<nat>, calls: set<nat>)
    requires RecordsOk(s)
    requires forall r :: r in live ==> r < |s.recs| && s.recs[r].call in calls
    ensures |live| <= |calls|
    decreases |live|
  {
    if live != {} {
      var r :| r in live;
      CallsAreDistinct(s, live - {r}, calls - {s.recs[r].call});
    }
  }

  /** So at most `limit` executions of a limited kind are registered and unfinished at a time. */
  lemma RunningWithinLimit(s: State, k: Kind)
    requires Inv(s) && WithinLimits(s) && k in s.control.queues
    ensures k in s.control.limits && |Live(s, k)| <= s.control.limits[k]
  {
    forall r | r in Live(s, k) ensures s.recs[r].call in Holders(s.adds, k) {
      assert RecordOk(s, r);
    }
    CallsAreDistinct(s, Live(s, k), Holders(s.adds, k));
    HoldersCounted(s.adds, k);
  }
}
