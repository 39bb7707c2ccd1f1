/**
 The class `ActiveExecutions`. Its methods change the map and the records in place; each is proved to perform
 one step of the state machine in `Executions`, about which the theorems of the other modules are stated.
 */
module ActiveExecutionsClass {
  import opened Prelude
  import opened ConcurrencyQueues
  import opened ConcurrencyControl
  import opened Executions
  import opened Invariants
  import opened Draining

  /** One record. `promise` and `callbackRan` stand for the state of its deferred post-execution promise. */
  class Execution {
    const executionId: string
    const mode: Mode
    const call: nat
    const startedAt: nat
    var status: Status
    var responsePromise: Option<nat>
    var workflowExecution: Option<nat>
    var promise: Promise
    var callbackRan: bool
    ghost const serial: nat

    ghost function Value(): Rec
      reads this
    {
      Rec(executionId, mode, call, startedAt, status, responsePromise, workflowExecution, promise, callbackRan)
    }

    constructor (
          ghost serial: nat, executionId: string, mode: Mode, call: nat, startedAt: nat, status: Status,
          responsePromise: Option<nat>)
      ensures this.serial == serial
      ensures Value() == Rec(executionId, mode, call, startedAt, status, responsePromise, None, Pending, false)
    {
      this.serial, this.executionId, this.mode, this.call := serial, executionId, mode, call;
      this.startedAt, this.status, this.responsePromise := startedAt, status, responsePromise;
      workflowExecution, promise, callbackRan := None, Pending, false;
    }
  }

  class ActiveExecutions {
    const regular: bool
    const control: ConcurrencyControlService
    var activeExecutions: map<string, Execution>
    // The calls of `add` suspended at an `await`, by ticket.
    var adds: seq<AddCall>
    // The response promises settled, and the workflow executions cancelled, through this object.
    var answers: map<nat, Answer>
    var cancelledRuns: set<nat>
    ghost var created: seq<Execution>
    ghost var model: State

    /** The fields show the state `m`. */
    ghost predicate Shows(m: State)
      reads this, created, control, control.Repr
    {
      && ShowsControl(m)
      && ShowsRecords(m)
    }

    ghost predicate ShowsControl(m: State)
      reads this, control, control.Repr
    {
      && control.Valid() && control.model == m.control
      && this !in control.Repr && (forall e :: e in created ==> e !in control.Repr)
      && m.regular == regular && m.adds == adds && m.answers == answers && m.cancelledRuns == cancelledRuns
    }

    ghost predicate ShowsRecords(m: State)
      reads this, created
    {
      && |created| == |m.recs|
      && (forall i :: 0 <= i < |created| ==> created[i].serial == i && created[i].Value() == m.recs[i])
      && ShowsMap(m)
    }

    ghost predicate ShowsMap(m: State)
      reads this
    {
      && activeExecutions.Keys == m.active.Keys
      && (forall id :: id in m.active ==>
            && m.active[id] < |created|
            && activeExecutions[id] == created[m.active[id]] && activeExecutions[id].executionId == id)
    }

    ghost predicate Valid()
      reads this, created, control, control.Repr
    {
      Shows(model)
    }

    constructor (regular: bool, production: int, evaluation: int)
      requires production != 0 && evaluation != 0
      ensures Valid() && fresh(control) && fresh(control.Repr) && created == []
      ensures model == Start(regular, Init(!regular, production, evaluation).value)
    {
      this.regular := regular;
      control := new ConcurrencyControlService(!regular, production, evaluation);
      activeExecutions, adds, answers, cancelledRuns := map[], [], map[], {};
      created := [];
      model := Start(regular, Init(!regular, production, evaluation).value);
    }

    // ---------- add ----------

    /** `add` up to its first `await`: a new execution waits for its id, a resumed one is throttled. */
    method Add(mode: Mode, executionId: Option<string>) returns (call: nat)
      requires Valid()
      modifies this, control.Repr
      ensures Valid() && model == Next(old(model), Begin(mode, executionId)) && created == old(created)
      ensures call == |old(adds)|
    {
      call := |adds|;
      var id := if executionId.Some? then executionId.value else "";
      adds := adds + [AddCall(mode, id, executionId.Some?, Creating)];
      if executionId.Some? {
        Throttle(call);
      }
      model := Next(model, Begin(mode, executionId));
    }

    static function ThrottledBy(c: Control, adds: seq<AddCall>, call: nat): ControlEffect
      requires call < |adds|
    {
      ThrottleEffect(c, adds[call].mode, Waiter(adds[call].executionId, call))
    }

    method Throttle(call: nat)
      requires call < |adds| && control.Valid() && this !in control.Repr
      modifies this`adds, control.Repr
      ensures control.Valid() && control.Repr == old(control.Repr)
      ensures control.model == ThrottledBy(old(control.model), old(adds), call).control
      ensures adds == RelabelAll(Relabel(old(adds), call, Queued),
                                 ThrottledBy(old(control.model), old(adds), call).admitted, Admitted)
    {
      var w := Waiter(adds[call].executionId, call);
      var proceed := control.Throttle(adds[call].mode, w);
      adds := Relabel(adds, call, Queued);
      adds := RelabelAll(adds, if proceed then [w] else [], Admitted);
    }

    /** `createNewExecution` returned an id. */
    method ExecutionCreated(call: nat, newId: string)
      requires Valid() && Enabled(model, Created(call, newId))
      modifies this, control.Repr
      ensures Valid() && model == Next(old(model), Created(call, newId)) && created == old(created)
    {
      adds := adds[call := adds[call].(executionId := newId)];
      if newId == "" {
        adds := Relabel(adds, call, Failed(false));
      } else if regular {
        Throttle(call);
      } else {
        adds := Relabel(adds, call, Admitted);
      }
      model := Next(model, Created(call, newId));
    }

    /** A repository call that `add` awaits throws: creating the execution, or, past the throttle, updating it. */
    method AddFails(call: nat)
      requires Valid() && (Enabled(model, CreationFails(call)) || Enabled(model, UpdateFails(call)))
      modifies this`adds, this`model
      ensures Valid() && Enabled(old(model), CreationFails(call)) != Enabled(old(model), UpdateFails(call))
      ensures model == Next(old(model), if Enabled(old(model), CreationFails(call)) then CreationFails(call)
                       else UpdateFails(call))
    {
      adds := Relabel(adds, call, Failed(adds[call].phase == Admitted));
      model := model.(adds := adds);
    }

    /** The execution service removes a queued execution that is stopped before it runs. */
    method RemoveFromQueue(mode: Mode, id: string)
      requires Valid()
      modifies this`adds, this`model, control.Repr
      ensures Valid() && model == Removal(old(model), mode, id)
    {
      var resolved, dropped := control.Remove(mode, id);
      adds := RelabelAll(RelabelAll(adds, dropped, Dropped), resolved, Admitted);
      model := Removal(model, mode, id);
    }

    /** What a new record takes over from the current record of its id. */
    method TakeOver(id: string, now: nat) returns (startedAt: nat, responsePromise: Option<nat>)
      requires Valid()
      ensures var found := Find(model, id);
              && startedAt == (if found.Some? then model.recs[found.value].startedAt else now)
              && responsePromise == (if found.Some? then model.recs[found.value].responsePromise else None)
    {
      startedAt, responsePromise := now, None;
      if id in activeExecutions {
        startedAt := activeExecutions[id].startedAt;
        responsePromise := activeExecutions[id].responsePromise;
        assert activeExecutions[id].Value() == model.recs[model.active[id]];
      }
    }

    /** The last part of `add`. */
    method Register(call: nat, now: nat) returns (execution: Execution)
      requires Valid() && Enabled(model, Executions.Register(call, now))
      modifies this
      ensures Valid() && model == Next(old(model), Executions.Register(call, now))
      ensures fresh(execution) && created == old(created) + [execution]
    {
      var id := adds[call].executionId;
      var startedAt, responsePromise := TakeOver(id, now);
      var status := if adds[call].resuming && id == "" then New else Running;
      execution := new Execution(|created|, id, adds[call].mode, call, startedAt, status, responsePromise);
      adds := Relabel(adds, call, Registered);
      model := model.(adds := adds);
      Insert(execution);
    }

    /** Puts a new record into the map, over whatever was there. */
    method Insert(execution: Execution)
      requires Valid() && execution.serial == |created| && execution !in control.Repr
      modifies this`activeExecutions, this`created, this`model
      ensures Valid() && created == old(created) + [execution]
      ensures model == old(model).(recs := old(model).recs + [execution.Value()],
                                   active := old(model).active[execution.executionId := |old(model).recs|])
    {
      activeExecutions := activeExecutions[execution.executionId := execution];
      created := created + [execution];
      model := model.(recs := model.recs + [execution.Value()],
                      active := model.active[execution.executionId := |model.recs|]);
    }

    /** The callback attached to the post-execution promise; it closes over the record and its id. */
    method SettleCallback(execution: Execution)
      requires Valid() && execution in created && execution.promise != Pending && !execution.callbackRan
      modifies this, execution, control.Repr
      ensures Valid() && created == old(created)
      ensures execution.serial < |old(created)| && old(created)[execution.serial] == execution
      ensures Enabled(old(model), Settle(execution.serial)) && model == Next(old(model), Settle(execution.serial))
    {
      assert created[execution.serial] == execution && execution.Value() == model.recs[execution.serial];
      ReleaseSlot(execution);
      if execution.status == Waiting {
        MarkRan(execution, None);
      } else {
        MarkRan(execution, execution.workflowExecution);
        DropEntry(execution.executionId);
      }
    }

    method ReleaseSlot(execution: Execution)
      requires Valid()
      modifies this`adds, this`model, control.Repr
      ensures Valid()
      ensures var e := ReleaseEffect(old(model).control, execution.mode);
              model == old(model).(control := e.control,
                                   adds := RelabelAll(Relabel(old(model).adds, execution.call, Released),
                                                      e.admitted, Admitted))
    {
      var resolved := control.Release(execution.mode);
      adds := RelabelAll(Relabel(adds, execution.call, Released), resolved, Admitted);
      model := model.(control := ReleaseEffect(model.control, execution.mode).control, adds := adds);
    }

    method MarkRan(execution: Execution, workflowExecution: Option<nat>)
      requires Valid() && execution in created
      modifies this`model, execution
      ensures Valid() && execution.serial < |old(model).recs|
      ensures var r, rec := execution.serial, old(execution.Value());
              model == old(model).(recs := old(model).recs[r := rec.(workflowExecution := workflowExecution,
                                                                     callbackRan := true)])
    {
      execution.workflowExecution := workflowExecution;
      execution.callbackRan := true;
      model := model.(recs := model.recs[execution.serial := execution.Value()]);
    }

    method DropEntry(id: string)
      requires Valid()
      modifies this`activeExecutions, this`model
      ensures Valid() && model == old(model).(active := old(model).active - {id})
      ensures activeExecutions == old(activeExecutions) - {id}
    {
      activeExecutions := activeExecutions - {id};
      model := model.(active := model.active - {id});
    }

    // ---------- The other methods ----------

    method StopExecution(id: string)
      requires Valid()
      modifies this`activeExecutions, this`answers, this`cancelledRuns, this`model,
               if id in activeExecutions then {activeExecutions[id]} else {}
      ensures Valid() && model == Stopped(old(model), id) && created == old(created)
    {
      if id in activeExecutions {
        var execution := activeExecutions[id];
        assert execution.Value() == model.recs[model.active[id]];
        Answer(execution, Refused);
        if execution.status == Waiting {
          DropEntry(id);
        } else {
          CancelRun(execution);
        }
      }
    }

    method CancelRun(execution: Execution)
      requires Valid() && execution in created
      modifies this`cancelledRuns, this`model, execution
      ensures Valid() && execution.serial < |old(model).recs|
      ensures var r, rec := execution.serial, old(execution.Value());
              model == old(model).(cancelledRuns := old(model).cancelledRuns + OptionSet(rec.workflowExecution),
                                   recs := old(model).recs[r := rec.(promise := SettleOnce(rec.promise, Cancelled))])
    {
      cancelledRuns := cancelledRuns + OptionSet(execution.workflowExecution);
      execution.promise := SettleOnce(execution.promise, Cancelled);
      model := model.(cancelledRuns := cancelledRuns, recs := model.recs[execution.serial := execution.Value()]);
    }

    method Store(
          execution: Execution, status: Status, responsePromise: Option<nat>, workflowExecution: Option<nat>,
          promise: Promise)
      requires Valid() && execution in created
      modifies this`model, execution
      ensures Valid() && execution.serial < |old(model).recs|
      ensures var r, rec := execution.serial, old(execution.Value());
              model == old(model).(recs := old(model).recs[r :=
                rec.(status := status, responsePromise := responsePromise,
                     workflowExecution := workflowExecution, promise := promise)])
    {
      execution.status, execution.responsePromise := status, responsePromise;
      execution.workflowExecution, execution.promise := workflowExecution, promise;
      model := model.(recs := model.recs[execution.serial := execution.Value()]);
    }

    method FinalizeExecution(id: string, run: Option<nat>)
      requires Valid()
      modifies this`model, if id in activeExecutions then {activeExecutions[id]} else {}
      ensures Valid() && model == Edited(old(model), id, Finalize(id, run)) && created == old(created)
    {
      if id in activeExecutions {
        var execution := activeExecutions[id];
        assert execution.Value() == model.recs[model.active[id]];
        Store(execution, execution.status, execution.responsePromise, execution.workflowExecution,
              SettleOnce(execution.promise, Resolved(run)));
      }
    }

    /** Throws when the entry is missing. */
    method SetStatusOf(id: string, status: Status) returns (thrown: bool)
      requires Valid()
      modifies this`model, if id in activeExecutions then {activeExecutions[id]} else {}
      ensures Valid() && model == Edited(old(model), id, SetStatus(id, status)) && created == old(created)
      ensures thrown <==> id !in old(activeExecutions)
    {
      thrown := id !in activeExecutions;
      if !thrown {
        var execution := activeExecutions[id];
        assert execution.Value() == model.recs[model.active[id]];
        Store(execution, status, execution.responsePromise, execution.workflowExecution, execution.promise);
      }
    }

    method AttachWorkflow(id: string, workflowExecution: nat) returns (thrown: bool)
      requires Valid()
      modifies this`model, if id in activeExecutions then {activeExecutions[id]} else {}
      ensures Valid() && model == Edited(old(model), id, AttachWorkflowExecution(id, workflowExecution)) &&
              created == old(created)
      ensures thrown <==> id !in old(activeExecutions)
    {
      thrown := id !in activeExecutions;
      if !thrown {
        var execution := activeExecutions[id];
        assert execution.Value() == model.recs[model.active[id]];
        Store(execution, execution.status, execution.responsePromise, Some(workflowExecution), execution.promise);
      }
    }

    method AttachResponse(id: string, responsePromise: nat) returns (thrown: bool)
      requires Valid()
      modifies this`model, if id in activeExecutions then {activeExecutions[id]} else {}
      ensures Valid() && model == Edited(old(model), id, AttachResponsePromise(id, responsePromise)) &&
              created == old(created)
      ensures thrown <==> id !in old(activeExecutions)
    {
      thrown := id !in activeExecutions;
      if !thrown {
        var execution := activeExecutions[id];
        assert execution.Value() == model.recs[model.active[id]];
        Store(execution, execution.status, Some(responsePromise), execution.workflowExecution, execution.promise);
      }
    }

    method ResolveResponse(id: string, answer: nat)
      requires Valid()
      modifies this`answers, this`model
      ensures Valid() && model == Responded(old(model), id, Answered(answer))
    {
      if id in activeExecutions {
        Answer(activeExecutions[id], Answered(answer));
      }
    }

    method ResolveExecutionResponse(id: string)
      requires Valid()
      modifies this`answers, this`model
      ensures Valid()
      ensures model == if IsWaiting(old(model), id) then old(model) else Responded(old(model), id, EmptyAnswer)
    {
      if id in activeExecutions {
        assert activeExecutions[id].Value() == model.recs[model.active[id]];
        if activeExecutions[id].status != Waiting {
          Answer(activeExecutions[id], EmptyAnswer);
        }
      }
    }

    method Answer(execution: Execution, answer: Executions.Answer)
      requires Valid() && execution in created
      modifies this`answers, this`model
      ensures Valid()
      ensures model == old(model).(answers := AnswerOnce(old(model).answers, execution.responsePromise, answer))
    {
      answers := AnswerOnce(answers, execution.responsePromise, answer);
      model := model.(answers := answers);
    }

    // ---------- Shutdown ----------

    /** The keys of the map, in some order. */
    method Keys() returns (ids: seq<string>)
      ensures Enumerates(ids, activeExecutions.Keys)
    {
      ids := [];
      var rest := activeExecutions.Keys;
      while rest != {}
        invariant rest <= activeExecutions.Keys
        invariant Distinct(ids)
        invariant forall id :: id in ids <==> id in activeExecutions && id !in rest
        decreases rest
      {
        var id :| id in rest;
        ids, rest := ids + [id], rest - {id};
      }
    }

    /**
     Stops or removes the entries, then calls `removeAll` of the concurrency service with those stopped.
     Returns when it would start waiting for the map to empty.
     */
    method ShutdownSweep(cancelAll: bool) returns (toCancel: seq<string>)
      requires Valid()
      modifies this, created, control.Repr
      ensures Valid() && model == AfterShutdown(old(model), cancelAll) && created == old(created)
      ensures forall id :: id in toCancel <==> id in ToCancel(old(model), cancelAll)
    {
      ghost var before := model;
      if regular {
        DisableConcurrency();
      }
      assert model == ConcurrencyOff(before);
      toCancel := SweepEntries(cancelAll);
      SameToCancel(before, cancelAll, set id | id in toCancel);
      RemoveAllQueued(toCancel);
    }

    method RemoveAllQueued(toCancel: seq<string>)
      requires Valid()
      modifies this`adds, this`model, control.Repr
      ensures Valid()
      ensures model == Emptied(old(model), set id | id in toCancel)
    {
      var resolved, dropped := control.RemoveAll(toCancel);
      adds := RelabelAll(RelabelAll(adds, dropped, Dropped), resolved, Admitted);
      model := Emptied(model, set id | id in toCancel);
    }

    lemma EntriesAreKeyed()
      requires Valid()
      ensures Keyed(model)
    {
      forall id | id in model.active ensures EntryOk(model, id) {
        assert created[model.active[id]].Value() == model.recs[model.active[id]];
      }
    }

    /** The loop over the keys. The entry read in each round is there, since a round only removes its own. */
    method SweepEntries(cancelAll: bool) returns (toCancel: seq<string>)
      requires Valid()
      modifies this, created
      ensures Valid() && model == Swept(old(model), cancelAll) && created == old(created)
      ensures forall id :: id in toCancel <==> id in ToCancel(old(model), cancelAll)
    {
      ghost var before := model;
      EntriesAreKeyed();
      var executionIds := Keys();
      toCancel := [];
      NothingSwept(model, cancelAll);
      SetOfAll(executionIds, before.active.Keys);
      assert model == SweptAt(before, cancelAll, SetOf(executionIds[..0]));
      for i := 0 to |executionIds|
        invariant Valid() && created == old(created)
        invariant model == SweptAt(before, cancelAll, SetOf(executionIds[..i]))
        invariant forall id :: id in toCancel <==> id in SetOf(executionIds[..i]) && Doomed(before, cancelAll, id)
      {
        var id := executionIds[i];
        SetOfPrefix(executionIds, i);
        var stopped := SweepRound(before, SetOf(executionIds[..i]), id, cancelAll);
        if stopped {
          toCancel := toCancel + [id];
        }
      }
    }

    method SweepRound(ghost before: State, ghost done: set<string>, id: string, cancelAll: bool) returns (stopped: bool)
      requires Valid() && Keyed(before) && model == SweptAt(before, cancelAll, done)
      requires id in before.active && id !in done
      modifies this, created
      ensures Valid() && created == old(created)
      ensures model == SweptAt(before, cancelAll, done + {id})
      ensures stopped <==> Doomed(before, cancelAll, id)
    {
      NotYetVisited(before, cancelAll, done, id);
      SweepOneStep(before, cancelAll, done, id);
      stopped := SweepEntry(id, cancelAll);
    }

    method DisableConcurrency()
      requires Valid()
      modifies this`model, control`isEnabled, control`model
      ensures Valid() && model == old(model).(control := Disable(old(model).control))
    {
      control.DisableControl();
      model := model.(control := Disable(model.control));
    }

    /** One round of the sweep; returns whether the execution is to be cancelled. */
    method SweepEntry(id: string, cancelAll: bool) returns (stopped: bool)
      requires Valid() && id in activeExecutions
      modifies this, activeExecutions[id]
      ensures Valid() && created == old(created) && model == SweepOne(old(model), cancelAll, id)
      ensures stopped <==> Doomed(old(model), cancelAll, id)
    {
      var execution := activeExecutions[id];
      assert execution.Value() == model.recs[model.active[id]];
      stopped := false;
      if execution.responsePromise.Some? || (regular && cancelAll) {
        StopExecution(id);
        stopped := true;
      } else if execution.status == Waiting || execution.status == New {
        DropEntry(id);
      }
    }
  }
}
