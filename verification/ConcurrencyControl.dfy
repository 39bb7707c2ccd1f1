/**
 The service that decides, per execution mode, whether an execution is throttled, and by which queue.
 */
module ConcurrencyControl {
  import opened Prelude
  import opened ConcurrencyQueues

  datatype Mode = Cli | Failure | Integrated | Internal | Manual | Retry | Trigger | Webhook | Evaluation

  datatype Kind = ProductionQueue | EvaluationQueue

  /** `cancelledInDb` is what `cancelMany` of the execution repository was asked to cancel. */
  datatype Control = Control(
    isEnabled: bool, limits: map<Kind, int>, queues: map<Kind, QueueState>, cancelledInDb: set<string>)

  datatype ControlEffect = ControlEffect(control: Control, admitted: seq<Waiter>, dropped: seq<Waiter>)

  /** The queue kind of a mode; the other modes are never limited. */
  function KindOf(mode: Mode): Option<Kind> {
    match mode
    case Webhook | Trigger => Some(ProductionQueue)
    case Evaluation => Some(EvaluationQueue)
    case _ => None
  }

  /** A mode that is throttled: the service is enabled and the mode's queue exists. */
  predicate Limits(c: Control, mode: Mode) {
    c.isEnabled && KindOf(mode).Some? && KindOf(mode).value in c.queues
  }

  function Normalised(limit: int): int {
    if limit < -1 then -1 else limit
  }

  /** Only a positive limit gets a queue. */
  function NewQueue(k: Kind, limit: int): map<Kind, QueueState> {
    if limit > 0 then map[k := QueueState(limit, [])] else map[]
  }

  /** The constructor; `None` when it throws because a limit is zero. */
  function Init(queueMode: bool, production: int, evaluation: int): Option<Control> {
    if production == 0 || evaluation == 0 then None
    else
      var limits := map[ProductionQueue := Normalised(production), EvaluationQueue := Normalised(evaluation)];
      if (production < 0 && evaluation < 0) || queueMode then Some(Control(false, limits, map[], {}))
      else
        var queues := NewQueue(ProductionQueue, production) + NewQueue(EvaluationQueue, evaluation);
        Some(Control(true, limits, queues, {}))
  }

  function OnQueue(c: Control, mode: Mode, op: Op): ControlEffect {
    if !Limits(c, mode) then ControlEffect(c, [], [])
    else
      var k := KindOf(mode).value;
      var e := Apply(c.queues[k], op);
      ControlEffect(c.(queues := c.queues[k := e.state]), e.admitted, e.dropped)
  }

  /** A throttled caller goes straight on exactly when the service does not limit its mode or its queue lets it. */
  function ThrottleEffect(c: Control, mode: Mode, w: Waiter): ControlEffect {
    if Limits(c, mode) then OnQueue(c, mode, Enqueue(w)) else ControlEffect(c, [w], [])
  }

  function ReleaseEffect(c: Control, mode: Mode): ControlEffect {
    OnQueue(c, mode, Dequeue)
  }

  function RemoveEffectFor(c: Control, mode: Mode, executionId: string): ControlEffect {
    OnQueue(c, mode, Remove(executionId))
  }

  function EmptyEffect(c: Control, k: Kind): ControlEffect {
    if k !in c.queues then ControlEffect(c, [], [])
    else
      var e := RemoveEach(c.queues[k], Snapshot(c.queues[k]));
      ControlEffect(c.(queues := c.queues[k := e.state]), e.admitted, e.dropped)
  }

  function RemoveAllEffect(c: Control, toCancel: set<string>): ControlEffect {
    if !c.isEnabled then ControlEffect(c, [], [])
    else
      var p := EmptyEffect(c, ProductionQueue);
      var e := EmptyEffect(p.control, EvaluationQueue);
      ControlEffect(
        e.control.(cancelledInDb := c.cancelledInDb + toCancel),
        p.admitted + e.admitted,
        p.dropped + e.dropped)
  }

  function Disable(c: Control): Control {
    c.(isEnabled := false)
  }

  /** What `removeAll` leaves of the queue of one kind, which the other kind does not touch. */
  lemma RemoveAllOnKind(c: Control, toCancel: set<string>, k: Kind)
    requires c.isEnabled && k in c.queues
    ensures var m := RemoveAllEffect(c, toCancel).control;
            k in m.queues && m.queues[k] == RemoveEach(c.queues[k], Snapshot(c.queues[k])).state
  {
  }

  /**
   `removeAll` releases all the capacity its entries took, and starts nothing, exactly when no queue holds
   more than one entry.
   */
  lemma RemoveAllReleasesAllIff(c: Control, toCancel: set<string>)
    requires c.isEnabled
    ensures var m := RemoveAllEffect(c, toCancel);
            && m.control.queues.Keys == c.queues.Keys
            && ((forall k :: k in c.queues ==> AllReleased(c.queues[k], m.control.queues[k])) <==> AtMostOneEach(c))
            && (m.admitted == [] <==> AtMostOneEach(c))
  {
    var m := RemoveAllEffect(c, toCancel);
    forall k | k in c.queues ensures k in m.control.queues
      ensures AllReleased(c.queues[k], m.control.queues[k]) <==> |c.queues[k].waiting| <= 1
    {
      RemoveAllOnKind(c, toCancel, k);
      EmptyingReleasesAllIff(c.queues[k]);
    }
    AdmittedOnKind(c, ProductionQueue);
    var p := EmptyEffect(c, ProductionQueue);
    AdmittedOnKind(p.control, EvaluationQueue);
    assert m.admitted == p.admitted + EmptyEffect(p.control, EvaluationQueue).admitted;
    if !AtMostOneEach(c) {
      var k :| k in c.queues && |c.queues[k].waiting| > 1;
      assert k == ProductionQueue || k == EvaluationQueue;
    }
  }

  ghost predicate AtMostOneEach(c: Control) {
    forall k :: k in c.queues ==> |c.queues[k].waiting| <= 1
  }

  lemma AdmittedOnKind(c: Control, k: Kind)
    ensures EmptyEffect(c, k).admitted == [] <==> (k in c.queues ==> |c.queues[k].waiting| <= 1)
  {
    if k in c.queues {
      EmptyingReleasesAllIff(c.queues[k]);
    }
  }

  /** Without repeated ids `removeAll` does empty the queue, but brings only half of the capacity back. */
  lemma RemoveAllHalves(c: Control, toCancel: set<string>, k: Kind)
    requires c.isEnabled && k in c.queues && DistinctIds(c.queues[k].waiting)
    ensures var q, m := c.queues[k], RemoveAllEffect(c, toCancel).control;
            k in m.queues && m.queues[k] == QueueState(q.capacity + (|q.waiting| + 1) / 2, [])
  {
    RemoveAllOnKind(c, toCancel, k);
    RemoveAllStartsHalf(c.queues[k]);
  }

  /** The given executions are cancelled in the database exactly if the service is on. */
  lemma RemoveAllCancels(c: Control, toCancel: set<string>)
    ensures var m := RemoveAllEffect(c, toCancel).control;
            && m.cancelledInDb == (if c.isEnabled then c.cancelledInDb + toCancel else c.cancelledInDb)
            && m.isEnabled == c.isEnabled && m.limits == c.limits
            && (!c.isEnabled ==> RemoveAllEffect(c, toCancel) == ControlEffect(c, [], []))
  {
  }

  ghost function Prefixed(admitted: seq<Waiter>, dropped: seq<Waiter>, e: Effect): Effect {
    Effect(e.state, admitted + e.admitted, dropped + e.dropped)
  }

  lemma PrefixedTwice(admitted: seq<Waiter>, dropped: seq<Waiter>, first: Effect, rest: Effect)
    ensures Prefixed(admitted + first.admitted, dropped + first.dropped, rest)
         == Prefixed(admitted, dropped, Prefixed(first.admitted, first.dropped, rest))
  {
  }

  class ConcurrencyControlService {
    var isEnabled: bool
    const limits: map<Kind, int>
    var queues: map<Kind, ConcurrencyQueue>
    var cancelledInDb: set<string>

    ghost var Repr: set<object>
    ghost var model: Control

    ghost predicate Valid()
      reads this, Repr
    {
      && this in Repr
      && (forall k :: k in queues ==> queues[k] in Repr && queues[k] as object != this)
      && (forall k, l :: k in queues && l in queues && k != l ==> queues[k] != queues[l])
      && model.isEnabled == isEnabled && model.limits == limits && model.cancelledInDb == cancelledInDb
      && model.queues.Keys == queues.Keys
      && (forall k :: k in queues ==> queues[k].Abs() == model.queues[k])
    }

    /** The limits are checked by the caller, since the constructor throws on a zero limit. */
    constructor (queueMode: bool, production: int, evaluation: int)
      requires production != 0 && evaluation != 0
      ensures Valid() && fresh(Repr)
      ensures Some(model) == Init(queueMode, production, evaluation)
    {
      limits := map[ProductionQueue := Normalised(production), EvaluationQueue := Normalised(evaluation)];
      cancelledInDb := {};
      queues := map[];
      isEnabled := !((production < 0 && evaluation < 0) || queueMode);
      Repr := {this};
      model := Init(queueMode, production, evaluation).value.(queues := map[]);
      new;
      if isEnabled {
        AddQueue(ProductionQueue, production);
        AddQueue(EvaluationQueue, evaluation);
        assert model.queues == NewQueue(ProductionQueue, production) + NewQueue(EvaluationQueue, evaluation);
      }
    }

    /** Only a positive limit gets a queue. */
    method AddQueue(kind: Kind, limit: int)
      requires Valid() && kind !in queues
      modifies this`queues, this`Repr, this`model
      ensures Valid() && fresh(Repr - old(Repr)) && queues.Keys <= old(queues.Keys) + {kind}
      ensures isEnabled == old(isEnabled)
      ensures model == old(model).(queues := old(model).queues + NewQueue(kind, limit))
    {
      if limit > 0 {
        var q := new ConcurrencyQueue(limit);
        queues, Repr := queues[kind := q], Repr + {q};
      }
      model := model.(queues := model.queues + NewQueue(kind, limit));
    }

    method Throttle(mode: Mode, w: Waiter) returns (proceed: bool)
      requires Valid()
      modifies Repr
      ensures Valid() && Repr == old(Repr)
      ensures model == ThrottleEffect(old(model), mode, w).control
      ensures (if proceed then [w] else []) == ThrottleEffect(old(model), mode, w).admitted
    {
      var kind := KindOf(mode);
      proceed := true;
      if isEnabled && kind.Some? && kind.value in queues {
        proceed := queues[kind.value].Enqueue(w);
        model := ThrottleEffect(model, mode, w).control;
      }
    }

    method Release(mode: Mode) returns (resolved: seq<Waiter>)
      requires Valid()
      modifies Repr
      ensures Valid() && Repr == old(Repr)
      ensures model == ReleaseEffect(old(model), mode).control
      ensures resolved == ReleaseEffect(old(model), mode).admitted
    {
      var kind := KindOf(mode);
      resolved := [];
      if isEnabled && kind.Some? && kind.value in queues {
        resolved := queues[kind.value].Dequeue();
        model := ReleaseEffect(model, mode).control;
      }
    }

    method Remove(mode: Mode, executionId: string) returns (resolved: seq<Waiter>, dropped: seq<Waiter>)
      requires Valid()
      modifies Repr
      ensures Valid() && Repr == old(Repr)
      ensures ControlEffect(model, resolved, dropped) == RemoveEffectFor(old(model), mode, executionId)
    {
      var kind := KindOf(mode);
      resolved, dropped := [], [];
      if isEnabled && kind.Some? && kind.value in queues {
        resolved, dropped := queues[kind.value].Remove(executionId);
        model := RemoveEffectFor(model, mode, executionId).control;
      }
    }

    method RemoveAll(toCancel: seq<string>) returns (resolved: seq<Waiter>, dropped: seq<Waiter>)
      requires Valid()
      modifies Repr
      ensures Valid() && Repr == old(Repr)
      ensures ControlEffect(model, resolved, dropped) == RemoveAllEffect(old(model), set id | id in toCancel)
    {
      resolved, dropped := [], [];
      if isEnabled {
        resolved, dropped := EmptyQueueOf(ProductionQueue);
        var r, d := EmptyQueueOf(EvaluationQueue);
        resolved, dropped := resolved + r, dropped + d;
        CancelMany(toCancel);
      }
    }

    method CancelMany(ids: seq<string>)
      requires Valid()
      modifies this`cancelledInDb, this`model
      ensures Valid() && model == old(model).(cancelledInDb := old(model).cancelledInDb + set id | id in ids)
    {
      cancelledInDb := cancelledInDb + set id | id in ids;
      model := model.(cancelledInDb := cancelledInDb);
    }

    method EmptyQueueOf(kind: Kind) returns (resolved: seq<Waiter>, dropped: seq<Waiter>)
      requires Valid()
      modifies Repr
      ensures isEnabled == old(isEnabled) && queues == old(queues)
      ensures Valid() && Repr == old(Repr)
      ensures ControlEffect(model, resolved, dropped) == EmptyEffect(old(model), kind)
    {
      resolved, dropped := [], [];
      if kind in queues {
        resolved, dropped := EmptyQueue(queues[kind]);
        model := EmptyEffect(model, kind).control;
      }
    }

    static method EmptyQueue(queue: ConcurrencyQueue) returns (resolved: seq<Waiter>, dropped: seq<Waiter>)
      modifies queue
      ensures var before := old(queue.Abs());
              Effect(queue.Abs(), resolved, dropped) == RemoveEach(before, Snapshot(before))
    {
      resolved, dropped := [], [];
      var ids := Snapshot(QueueState(queue.capacity, queue.queue));
      ghost var goal := RemoveEach(queue.Abs(), ids);
      for i := 0 to |ids|
        invariant Prefixed(resolved, dropped, RemoveEach(queue.Abs(), ids[i..])) == goal
      {
        assert ids[i..] == [ids[i]] + ids[i + 1..];
        RemoveEachStep(queue.Abs(), ids[i], ids[i + 1..]);
        ghost var first := RemoveEffect(queue.Abs(), ids[i]);
        PrefixedTwice(resolved, dropped, first, RemoveEach(first.state, ids[i + 1..]));
        var r, d := queue.Remove(ids[i]);
        resolved, dropped := resolved + r, dropped + d;
      }
    }

    method DisableControl()
      requires Valid()
      modifies this`isEnabled, this`model
      ensures Valid() && model == Disable(old(model))
    {
      isEnabled := false;
      model := Disable(model);
    }
  }
}
