/**
 Which execution modes are limited, by their names: webhook and trigger share the production limit, evaluation has
 its own, and no other mode is ever limited.
 */
module Modes {
  import opened Prelude
  import opened ConcurrencyQueues
  import opened ConcurrencyControl
  import opened Executions
  import opened Slots
  import opened Invariants
  import opened SlotTheorems

  /** The calls in one of the modes that are past the throttle and have not released, failed ones included. */
  ghost function Busy(adds: seq<AddCall>, modes: set<Mode>): set<nat> {
    set t: nat | t < |adds| && adds[t].mode in modes
                 && (adds[t].phase.Admitted? || adds[t].phase.Registered? || adds[t].phase == Failed(true))
  }

  // ---------- The constructor ----------

  /** Only a zero limit is refused; queue mode limits nothing, and otherwise a positive limit limits its modes. */
  lemma LimitedModes(queueMode: bool, production: int, evaluation: int, mode: Mode)
    ensures Init(queueMode, production, evaluation).None? <==> production == 0 || evaluation == 0
    ensures Init(queueMode, production, evaluation).Some? ==>
              var c := Init(queueMode, production, evaluation).value;
              Limits(c, mode) <==> !queueMode && (((mode == Webhook || mode == Trigger) && production > 0)
                                                  || (mode == Evaluation && evaluation > 0))
  {
  }

  /** The queues start with their whole limit free and nobody waiting. */
  lemma FreshQueues(production: int, evaluation: int, k: Kind)
    requires Init(false, production, evaluation).Some?
    ensures var c := Init(false, production, evaluation).value;
            var limit := if k == ProductionQueue then production else evaluation;
            && k in c.limits && c.cancelledInDb == {}
            && (limit > 0 ==> c.isEnabled && k in c.queues && c.queues[k] == QueueState(limit, [])
                              && c.limits[k] == limit)
            && (limit < 0 ==> k !in c.queues && c.limits[k] == -1)
  {
  }

  // ---------- Modes without a limit ----------

  /** The service that lets a mode through does so at once, and its releases and removals touch nothing. */
  lemma UnlimitedPasses(s: State, mode: Mode, id: string)
    requires !Limits(s.control, mode)
    ensures var m := Next(s, Begin(mode, Some(id)));
            && m.adds == s.adds + [AddCall(mode, id, true, Admitted)]
            && m == s.(adds := m.adds)
    ensures Next(s, RemoveQueued(mode, id)) == s
    ensures ReleaseEffect(s.control, mode) == ControlEffect(s.control, [], [])
  {
    var queued := s.adds + [AddCall(mode, id, true, Queued)];
    assert Relabel(s.adds + [AddCall(mode, id, true, Creating)], |s.adds|, Queued) == queued;
    RelabelOne(queued, Waiter(id, |s.adds|), Admitted);
    assert Relabel(queued, |s.adds|, Admitted) == s.adds + [AddCall(mode, id, true, Admitted)];
  }

  /** Six modes are let through in every state, whatever the limits. */
  lemma OtherModesPass(s: State, mode: Mode, id: string)
    requires mode == Cli || mode == Failure || mode == Integrated || mode == Internal || mode == Manual || mode == Retry
    ensures !Limits(s.control, mode)
    ensures Next(s, Begin(mode, Some(id))).adds == s.adds + [AddCall(mode, id, true, Admitted)]
    ensures Next(s, Begin(mode, Some(id))).control == s.control
  {
    UnlimitedPasses(s, mode, id);
  }

  lemma {:induction false} QueuesStay(s: State, es: seq<Event>)
    requires Inv(s) && Legal(s, es)
    ensures Run(s, es).control.queues.Keys == s.control.queues.Keys
    decreases |es|
  {
    if es != [] {
      SameKinds(s, es[0]);
      NextKeeps(s, es[0]);
      QueuesStay(Next(s, es[0]), es[1..]);
    }
  }

  /** A negative limit, too, means none, in every state reached with it. */
  lemma NegativeLimitsPass(production: int, evaluation: int, es: seq<Event>, mode: Mode)
    requires Init(false, production, evaluation).Some?
    requires Legal(Start(true, Init(false, production, evaluation).value), es)
    requires if mode == Evaluation then evaluation < 0 else production < 0
    ensures !Limits(Run(Start(true, Init(false, production, evaluation).value), es).control, mode)
  {
    StartIsSound(true, production, evaluation);
    QueuesStay(Start(true, Init(false, production, evaluation).value), es);
    FreshQueues(production, evaluation, ProductionQueue);
    FreshQueues(production, evaluation, EvaluationQueue);
  }

  // ---------- Modes with a limit ----------

  /** Nothing is removed from a queue, and the process is not shut down. */
  ghost predicate Calm(es: seq<Event>) {
    forall i :: 0 <= i < |es| ==> !es[i].RemoveQueued? && !es[i].Shutdown?
  }

  lemma {:induction false} CalmRun(s: State, es: seq<Event>)
    requires Inv(s) && WithinLimits(s) && s.control.isEnabled && Legal(s, es) && Calm(es)
    ensures var m := Run(s, es);
            && Inv(m) && WithinLimits(m) && m.control.isEnabled && m.regular == s.regular
            && m.control.queues.Keys == s.control.queues.Keys && m.control.limits == s.control.limits
    decreases |es|
  {
    if es != [] {
      var e := es[0];
      assert !e.RemoveQueued? && !e.Shutdown?;
      StepWithinLimits(s, e);
      StepUsesQueue(s, e);
      SameKinds(s, e);
      NextKeeps(s, e);
      assert forall i :: 0 <= i < |es[1..]| ==> es[1..][i] == es[i + 1];
      CalmRun(Next(s, e), es[1..]);
    }
  }

  lemma ModesOfKind(k: Kind, modes: set<Mode>, mode: Mode)
    requires modes == if k == ProductionQueue then {Webhook, Trigger} else {Evaluation}
    ensures mode in modes <==> KindOf(mode) == Some(k)
  {
  }

  lemma BusyAreHolders(adds: seq<AddCall>, k: Kind, modes: set<Mode>)
    requires modes == if k == ProductionQueue then {Webhook, Trigger} else {Evaluation}
    ensures |Busy(adds, modes)| == Holding(adds, k)
  {
    forall t: nat | t < |adds| ensures t in Busy(adds, modes) <==> t in Holders(adds, k) {
      ModesOfKind(k, modes, adds[t].mode);
    }
    assert Busy(adds, modes) == Holders(adds, k);
    HoldersCounted(adds, k);
  }

  /** How a call that meets the throttle fares, in a state that keeps its limits. */
  lemma LetThroughIffFree(s: State, mode: Mode, k: Kind, w: Waiter)
    requires Inv(s) && WithinLimits(s) && Limits(s.control, mode) && KindOf(mode) == Some(k) && k in s.control.limits
    ensures ThrottleEffect(s.control, mode, w).admitted == if Holding(s.adds, k) < s.control.limits[k] then [w] else []
  {
    assert QueueAgrees(s.control.queues[k], s.adds, k) && Balanced(s.control, s.adds, k);
    assert Bounded(s.control.queues[k]);
  }

  /** A state reached from the start without removals or shutdown, its limit and its calls of the kind. */
  lemma ReachedLimit(production: int, evaluation: int, es: seq<Event>, k: Kind, limit: nat, modes: set<Mode>)
    requires Init(false, production, evaluation).Some? && Calm(es)
    requires Legal(Start(true, Init(false, production, evaluation).value), es)
    requires limit > 0 && limit == if k == ProductionQueue then production else evaluation
    requires modes == if k == ProductionQueue then {Webhook, Trigger} else {Evaluation}
    ensures var s := Run(Start(true, Init(false, production, evaluation).value), es);
            && Inv(s) && WithinLimits(s) && s.regular && s.control.isEnabled
            && k in s.control.queues && k in s.control.limits && s.control.limits[k] == limit
            && |Busy(s.adds, modes)| == Holding(s.adds, k) <= limit
  {
    StartIsSound(true, production, evaluation);
    FreshQueues(production, evaluation, k);
    var start := Start(true, Init(false, production, evaluation).value);
    CalmRun(start, es);
    BusyAreHolders(Run(start, es).adds, k, modes);
  }

  function PhaseAt(busy: nat, limit: int): Phase {
    if busy < limit then Admitted else Queued
  }

  /** The step adds one call of the mode, in the phase. */
  ghost predicate BeginGives(s: State, mode: Mode, id: string, phase: Phase) {
    Next(s, Begin(mode, Some(id))).adds == s.adds + [AddCall(mode, id, true, phase)]
  }

  /** The step names the call and puts it into the phase. */
  ghost predicate CreatedGives(s: State, t: nat, id: string, phase: Phase)
    requires Enabled(s, Created(t, id))
  {
    Next(s, Created(t, id)).adds == s.adds[t := AddCall(s.adds[t].mode, id, s.adds[t].resuming, phase)]
  }

  lemma NextBegins(s: State, k: Kind, mode: Mode, id: string)
    requires Inv(s) && WithinLimits(s) && Limits(s.control, mode) && KindOf(mode) == Some(k) && k in s.control.limits
    ensures BeginGives(s, mode, id, PhaseAt(Holding(s.adds, k), s.control.limits[k]))
  {
    var w := Waiter(id, |s.adds|);
    LetThroughIffFree(s, mode, k, w);
    RelabelOne(s.adds + [AddCall(mode, id, true, Queued)], w, Admitted);
    assert Relabel(s.adds + [AddCall(mode, id, true, Creating)], |s.adds|, Queued)
        == s.adds + [AddCall(mode, id, true, Queued)];
  }

  lemma NextCreated(s: State, k: Kind, t: nat, id: string)
    requires Inv(s) && WithinLimits(s) && s.regular && Enabled(s, Created(t, id)) && id != ""
    requires Limits(s.control, s.adds[t].mode) && KindOf(s.adds[t].mode) == Some(k) && k in s.control.limits
    ensures CreatedGives(s, t, id, PhaseAt(Holding(s.adds, k), s.control.limits[k]))
  {
    var w := Waiter(id, t);
    LetThroughIffFree(s, s.adds[t].mode, k, w);
    var named := s.adds[t].(executionId := id);
    assert Relabel(s.adds[t := named], t, Queued) == s.adds[t := named.(phase := Queued)];
    RelabelOne(s.adds[t := named.(phase := Queued)], w, Admitted);
  }

  /**
   With a positive production limit, at most that many webhook and trigger executions together are past the
   throttle at any time, without removals and before shutdown. The next call in either mode, resumed or new,
   goes through if fewer are, and else is queued.
   */
  lemma ProductionLimit(production: int, evaluation: int, es: seq<Event>)
    requires production > 0 && evaluation != 0 && Calm(es)
    requires Legal(Start(true, Init(false, production, evaluation).value), es)
    ensures var s := Run(Start(true, Init(false, production, evaluation).value), es);
            var busy := |Busy(s.adds, {Webhook, Trigger})|;
            && busy <= production
            && (forall mode, id :: mode == Webhook || mode == Trigger ==>
                  BeginGives(s, mode, id, PhaseAt(busy, production)))
            && (forall t: nat, id :: Enabled(s, Created(t, id)) && id != "" && s.adds[t].mode in {Webhook, Trigger} ==>
                  CreatedGives(s, t, id, PhaseAt(busy, production)))
  {
    var s := Run(Start(true, Init(false, production, evaluation).value), es);
    ReachedLimit(production, evaluation, es, ProductionQueue, production, {Webhook, Trigger});
    forall mode, id | mode == Webhook || mode == Trigger
      ensures BeginGives(s, mode, id, PhaseAt(|Busy(s.adds, {Webhook, Trigger})|, production))
    {
      NextBegins(s, ProductionQueue, mode, id);
    }
    forall t: nat, id | Enabled(s, Created(t, id)) && id != "" && s.adds[t].mode in {Webhook, Trigger}
      ensures CreatedGives(s, t, id, PhaseAt(|Busy(s.adds, {Webhook, Trigger})|, production))
    {
      NextCreated(s, ProductionQueue, t, id);
    }
  }

  /** The same for evaluation executions and their own limit. */
  lemma EvaluationLimit(production: int, evaluation: int, es: seq<Event>)
    requires production != 0 && evaluation > 0 && Calm(es)
    requires Legal(Start(true, Init(false, production, evaluation).value), es)
    ensures var s := Run(Start(true, Init(false, production, evaluation).value), es);
            var busy := |Busy(s.adds, {Evaluation})|;
            && busy <= evaluation
            && (forall id :: BeginGives(s, Evaluation, id, PhaseAt(busy, evaluation)))
            && (forall t: nat, id :: Enabled(s, Created(t, id)) && id != "" && s.adds[t].mode == Evaluation ==>
                  CreatedGives(s, t, id, PhaseAt(busy, evaluation)))
  {
    var s := Run(Start(true, Init(false, production, evaluation).value), es);
    ReachedLimit(production, evaluation, es, EvaluationQueue, evaluation, {Evaluation});
    forall id ensures BeginGives(s, Evaluation, id, PhaseAt(|Busy(s.adds, {Evaluation})|, evaluation))
    {
      NextBegins(s, EvaluationQueue, Evaluation, id);
    }
    forall t: nat, id | Enabled(s, Created(t, id)) && id != "" && s.adds[t].mode == Evaluation
      ensures CreatedGives(s, t, id, PhaseAt(|Busy(s.adds, {Evaluation})|, evaluation))
    {
      NextCreated(s, EvaluationQueue, t, id);
    }
  }
}
