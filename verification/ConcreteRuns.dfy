/** Runs in which the code does what one would not expect, each from the start of a process. */
module ConcreteRuns {
  import opened Prelude
  import opened ConcurrencyQueues
  import opened ConcurrencyControl
  import opened Executions
  import opened Slots
  import opened Invariants
  import opened SlotTheorems
  import opened History
  import opened Ownership
  import opened Draining
  import opened SlotLeaks
  import opened Starvation
  import opened ThrottleBalance

  /** The events lead from one state to the other. */
  ghost predicate Leads(s: State, es: seq<Event>, m: State) {
    Legal(s, es) && Run(s, es) == m
  }

  lemma LeadsFirst(s: State, e: Event, n: State, es: seq<Event>, m: State)
    requires Enabled(s, e) && Next(s, e) == n && Leads(n, es, m)
    ensures Leads(s, [e] + es, m)
  {
    RunStep(s, es, e);
  }

  lemma LeadsOn(s: State, es: seq<Event>, n: State, fs: seq<Event>, m: State)
    requires Leads(s, es, n) && Leads(n, fs, m)
    ensures Leads(s, es + fs, m)
  {
    RunAppend(s, es, fs);
  }

  // ---------- One execution registers ----------

  /** Regular mode without limits. */
  function Unlimited(): State {
    Start(true, Init(false, -1, -1).value)
  }

  function Registers(): seq<Event> {
    [Begin(Manual, None)] + ([Created(0, "1")] + ([Register(0, 1)] + []))
  }

  function OneRegistered(): State {
    Unlimited().(
      adds := [AddCall(Manual, "1", false, Registered)],
      recs := [Rec("1", Manual, 0, 1, Running, None, None, Pending, false)],
      active := map["1" := 0])
  }

  lemma RegistersOne()
    ensures Leads(Unlimited(), Registers(), OneRegistered())
  {
    var s := Unlimited();
    var s1 := s.(adds := [AddCall(Manual, "", false, Creating)]);
    var s2 := s.(adds := [AddCall(Manual, "1", false, Admitted)]);
    RelabelOne([AddCall(Manual, "1", false, Queued)], Waiter("1", 0), Admitted);
    assert Leads(OneRegistered(), [], OneRegistered());
    LeadsFirst(s2, Register(0, 1), OneRegistered(), [], OneRegistered());
    LeadsFirst(s1, Created(0, "1"), s2, [Register(0, 1)] + [], OneRegistered());
    LeadsFirst(s, Begin(Manual, None), s1, [Created(0, "1")] + ([Register(0, 1)] + []), OneRegistered());
  }

  // ---------- A late callback drops a resumed record ----------

  function ResumesEarly(): seq<Event> {
    [Begin(Manual, Some("1"))] + ([Finalize("1", None)] + ([Register(1, 2)] + ([Settle(0)] + [])))
  }

  /** An execution is resumed while its run is still finishing. */
  function OverlappingResume(): seq<Event> {
    Registers() + ResumesEarly()
  }

  function Resumed(active: map<string, nat>, first: Phase, ran: bool): State {
    Unlimited().(
      adds := [AddCall(Manual, "1", false, first), AddCall(Manual, "1", true, Registered)],
      recs := [Rec("1", Manual, 0, 1, Running, None, None, Resolved(None), ran),
               Rec("1", Manual, 1, 1, Running, None, None, Pending, false)],
      active := active)
  }

  lemma ResumesOne()
    ensures Leads(OneRegistered(), ResumesEarly(), Resumed(map[], Released, true))
  {
    var s := OneRegistered();
    var s1 := s.(adds := s.adds + [AddCall(Manual, "1", true, Admitted)]);
    var s2 := s1.(recs := [s.recs[0].(promise := Resolved(None))]);
    var s3 := Resumed(map["1" := 1], Registered, false);
    var s4 := Resumed(map[], Released, true);
    RelabelOne(s.adds + [AddCall(Manual, "1", true, Queued)], Waiter("1", 1), Admitted);
    assert Leads(s4, [], s4);
    assert Next(s3, Settle(0)).active == map[];
    LeadsFirst(s3, Settle(0), s4, [], s4);
    assert Next(s2, Register(1, 2)).active == map["1" := 1];
    LeadsFirst(s2, Register(1, 2), s3, [Settle(0)] + [], s4);
    LeadsFirst(s1, Finalize("1", None), s2, [Register(1, 2)] + ([Settle(0)] + []), s4);
    LeadsFirst(s, Begin(Manual, Some("1")), s1, [Finalize("1", None)] + ([Register(1, 2)] + ([Settle(0)] + [])), s4);
  }

  /** The resumed record is left pending and out of the map, for good. */
  lemma OverlappingResumeLosesRecord()
    ensures Legal(Unlimited(), OverlappingResume())
    ensures var s := Run(Unlimited(), OverlappingResume()); s.active == map[] && Lost(s, 1)
  {
    RegistersOne();
    ResumesOne();
    LeadsOn(Unlimited(), Registers(), OneRegistered(), ResumesEarly(), Resumed(map[], Released, true));
  }

  // ---------- A revived execution keeps shutdown waiting ----------

  function WaitsAndRevives(): seq<Event> {
    [SetStatus("1", Waiting)] + ([Finalize("1", None)] + ([Settle(0)] + ([SetStatus("1", Running)] + [])))
  }

  /** An execution goes to wait, its run ends, and then it is set to running. */
  function Revival(): seq<Event> {
    Registers() + WaitsAndRevives()
  }

  function Revived(status: Status, promise: Promise, ran: bool): State {
    OneRegistered().(
      adds := [AddCall(Manual, "1", false, if ran then Released else Registered)],
      recs := [Rec("1", Manual, 0, 1, status, None, None, promise, ran)])
  }

  lemma RevivesOne()
    ensures Leads(OneRegistered(), WaitsAndRevives(), Revived(Running, Resolved(None), true))
  {
    var s1 := Revived(Waiting, Pending, false);
    var s2 := Revived(Waiting, Resolved(None), false);
    var s3 := Revived(Waiting, Resolved(None), true);
    var s4 := Revived(Running, Resolved(None), true);
    assert Leads(s4, [], s4);
    LeadsFirst(s3, SetStatus("1", Running), s4, [], s4);
    LeadsFirst(s2, Settle(0), s3, [SetStatus("1", Running)] + [], s4);
    LeadsFirst(s1, Finalize("1", None), s2, [Settle(0)] + ([SetStatus("1", Running)] + []), s4);
    LeadsFirst(OneRegistered(), SetStatus("1", Waiting), s1,
               [Finalize("1", None)] + ([Settle(0)] + ([SetStatus("1", Running)] + [])), s4);
  }

  lemma RevivalLeads()
    ensures Leads(Unlimited(), Revival(), Revived(Running, Resolved(None), true))
    ensures Inv(Revived(Running, Resolved(None), true))
  {
    RegistersOne();
    RevivesOne();
    LeadsOn(Unlimited(), Registers(), OneRegistered(), WaitsAndRevives(), Revived(Running, Resolved(None), true));
    StartIsSound(true, -1, -1);
    RunKeeps(Unlimited(), Revival());
  }

  /** The entry keeps the shutdown waiting as long as its execution is not registered again, set to waiting or swept. */
  lemma RevivalBlocksShutdown()
    ensures Legal(Unlimited(), Revival())
    ensures var m := AfterShutdown(Run(Unlimited(), Revival()), false);
            forall es :: Legal(m, es) && !SomeFreed(m, es, "1") ==> "1" in Run(m, es).active
  {
    RevivalLeads();
    var s := Revived(Running, Resolved(None), true);
    assert Obstructs(s, false, "1");
    var m := AfterShutdown(s, false);
    forall es | Legal(m, es) && !SomeFreed(m, es, "1") ensures "1" in Run(m, es).active {
      ObstructedUntilFreed(s, false, es, "1");
    }
  }

  /** Setting it to waiting frees it: stopping it then empties the map. */
  lemma WaitingFreesIt()
    ensures Legal(Unlimited(), Revival())
    ensures var m, es := AfterShutdown(Run(Unlimited(), Revival()), false), [SetStatus("1", Waiting), Stop("1")];
            Legal(m, es) && Run(m, es).active == map[]
  {
    RevivalLeads();
    var m := AfterShutdown(Revived(Running, Resolved(None), true), false);
    var n := Next(m, SetStatus("1", Waiting));
    StoppedWhileWaiting(m);
    RunStep(n, [], Stop("1"));
    RunStep(m, [Stop("1")], SetStatus("1", Waiting));
    assert [Stop("1")] + [] == [Stop("1")];
    assert [SetStatus("1", Waiting)] + [Stop("1")] == [SetStatus("1", Waiting), Stop("1")];
  }

  lemma StoppedWhileWaiting(m: State)
    requires m == AfterShutdown(Revived(Running, Resolved(None), true), false)
    ensures Stopped(Next(m, SetStatus("1", Waiting)), "1").active == map[]
  {
    var n := Next(m, SetStatus("1", Waiting));
    assert m.active == map["1" := 0] && n.active == map["1" := 0] && n.recs[0].status == Waiting;
  }

  // ---------- A failed call keeps its slot ----------

  /** Regular mode, and one production execution at a time. */
  function OneAtATime(): State {
    Start(true, Init(false, 1, -1).value)
  }

  function FailsUpdate(): seq<Event> {
    [Begin(Webhook, None)] + ([Created(0, "1")] + ([UpdateFails(0)] + []))
  }

  function Arrives(): seq<Event> {
    [Begin(Webhook, None)] + ([Created(1, "2")] + [])
  }

  /** The first execution cannot be set running in the database; the second one arrives. */
  function FailedUpdate(): seq<Event> {
    FailsUpdate() + Arrives()
  }

  function AfterFailure(capacity: int, waiting: seq<Waiter>, adds: seq<AddCall>): State {
    var s := OneAtATime();
    s.(control := s.control.(queues := map[ProductionQueue := QueueState(capacity, waiting)]), adds := adds)
  }

  /** The second execution is queued behind the slot of the first one. */
  function FailedAndQueued(): State {
    AfterFailure(-1, [Waiter("2", 1)], [FailedCall(), AddCall(Webhook, "2", false, Queued)])
  }

  function FailedCall(): AddCall {
    AddCall(Webhook, "1", false, Failed(true))
  }

  lemma FirstFails()
    ensures Leads(OneAtATime(), FailsUpdate(), AfterFailure(0, [], [FailedCall()]))
  {
    var s0 := OneAtATime();
    var s1 := AfterFailure(1, [], [AddCall(Webhook, "", false, Creating)]);
    var s2 := AfterFailure(0, [], [AddCall(Webhook, "1", false, Admitted)]);
    var s3 := AfterFailure(0, [], [FailedCall()]);
    assert s0.control.queues == map[ProductionQueue := QueueState(1, [])];
    assert Leads(s3, [], s3);
    LeadsFirst(s2, UpdateFails(0), s3, [], s3);
    FirstAdmitted(s1, s2);
    LeadsFirst(s1, Created(0, "1"), s2, [UpdateFails(0)] + [], s3);
    LeadsFirst(s0, Begin(Webhook, None), s1, [Created(0, "1")] + ([UpdateFails(0)] + []), s3);
  }

  lemma SecondArrives()
    ensures Leads(AfterFailure(0, [], [FailedCall()]), Arrives(), FailedAndQueued())
  {
    var s3 := AfterFailure(0, [], [FailedCall()]);
    var s4 := AfterFailure(0, [], [FailedCall(), AddCall(Webhook, "", false, Creating)]);
    assert Leads(FailedAndQueued(), [], FailedAndQueued());
    SecondQueued(s4, FailedAndQueued());
    LeadsFirst(s4, Created(1, "2"), FailedAndQueued(), [], FailedAndQueued());
    LeadsFirst(s3, Begin(Webhook, None), s4, [Created(1, "2")] + [], FailedAndQueued());
  }

  /** Nothing runs, the first one's slot never comes back, and the second one stays queued. */
  lemma FailedUpdateLeaksSlot()
    ensures Legal(OneAtATime(), FailedUpdate())
    ensures var s := Run(OneAtATime(), FailedUpdate());
            && |s.adds| == 2 && s.adds[0].phase == Failed(true) && s.adds[1].phase == Queued
            && s.recs == [] && !CanRelease(s, 0) && !CanStart(s, 1)
  {
    FirstFails();
    SecondArrives();
    LeadsOn(OneAtATime(), FailsUpdate(), AfterFailure(0, [], [FailedCall()]), Arrives(), FailedAndQueued());
    StartIsSound(true, 1, -1);
    RunKeeps(OneAtATime(), FailedUpdate());
    FailedNeverReleases(FailedAndQueued(), 0);
    SecondStarves(FailedAndQueued());
  }

  lemma SecondStarves(s: State)
    requires s == FailedAndQueued() && Inv(s)
    ensures !CanStart(s, 1)
  {
    assert s.control.queues[ProductionQueue].waiting[0] == Waiter("2", 1);
    forall h | 0 <= h < |s.adds| ensures !Returns(s, ProductionQueue, h) {
    }
    QueuedStartsIff(s, ProductionQueue, 0);
  }

  lemma FirstAdmitted(s1: State, s2: State)
    requires s1 == AfterFailure(1, [], [AddCall(Webhook, "", false, Creating)])
    requires s2 == AfterFailure(0, [], [AddCall(Webhook, "1", false, Admitted)])
    ensures Next(s1, Created(0, "1")) == s2
  {
    RelabelOne([AddCall(Webhook, "1", false, Queued)], Waiter("1", 0), Admitted);
    assert s1.control.queues[ProductionQueue := QueueState(0, [])] == s2.control.queues;
  }

  lemma SecondQueued(s4: State, s5: State)
    requires var failed := AddCall(Webhook, "1", false, Failed(true));
             && s4 == AfterFailure(0, [], [failed, AddCall(Webhook, "", false, Creating)])
             && s5 == AfterFailure(-1, [Waiter("2", 1)], [failed, AddCall(Webhook, "2", false, Queued)])
    ensures Next(s4, Created(1, "2")) == s5
  {
    assert s4.control.queues[ProductionQueue := QueueState(-1, [Waiter("2", 1)])] == s5.control.queues;
    var w := Waiter("2", 1);
    assert EnqueueEffect(QueueState(0, []), w) == Effect(QueueState(-1, [w]), [], []) by {
      assert [] + [w] == [w];
    }
    assert ThrottleEffect(s4.control, Webhook, w) == ControlEffect(s5.control, [], []);
    assert Relabel(s4.adds[1 := s4.adds[1].(executionId := "2")], 1, Queued) == s5.adds;
  }

  // ---------- A call after shutdown exceeds the limit ----------

  /** A second execution is resumed after the service was turned off. */
  function LateCall(): seq<Event> {
    [Begin(Webhook, Some("1"))] + ([Shutdown(false)] + ([Begin(Webhook, Some("2"))] + []))
  }

  function Resumes(id: string): AddCall {
    AddCall(Webhook, id, true, Admitted)
  }

  /** With the service on or off. */
  function Late(on: bool, adds: seq<AddCall>): State {
    var s := AfterFailure(0, [], adds);
    s.(control := s.control.(isEnabled := on))
  }

  lemma LateCallLeads()
    ensures Leads(OneAtATime(), LateCall(), Late(false, [Resumes("1"), Resumes("2")]))
  {
    var s0, s1, s2 := OneAtATime(), Late(true, [Resumes("1")]), Late(false, [Resumes("1")]);
    var s3 := Late(false, [Resumes("1"), Resumes("2")]);
    assert Leads(s3, [], s3);
    SecondResumed(s2, s3);
    LeadsFirst(s2, Begin(Webhook, Some("2")), s3, [], s3);
    NothingToSweep(s1, s2);
    LeadsFirst(s1, Shutdown(false), s2, [Begin(Webhook, Some("2"))] + [], s3);
    FirstResumed(s0, s1);
    LeadsFirst(s0, Begin(Webhook, Some("1")), s1, [Shutdown(false)] + ([Begin(Webhook, Some("2"))] + []), s3);
  }

  lemma NothingToSweep(s1: State, s2: State)
    requires s1 == Late(true, [Resumes("1")]) && s2 == Late(false, [Resumes("1")])
    ensures AfterShutdown(s1, false) == s2
  {
    var m := AfterShutdown(s1, false);
    assert m.recs == [] && m.active == map[] && m.answers == map[] && m.cancelledRuns == {};
  }

  lemma SecondResumed(s2: State, s3: State)
    requires s2 == Late(false, [Resumes("1")]) && s3 == Late(false, [Resumes("1"), Resumes("2")])
    ensures Next(s2, Begin(Webhook, Some("2"))) == s3
  {
    var begun := s2.(adds := s2.adds + [AddCall(Webhook, "2", true, Creating)]);
    ThrottledOff(begun, 1);
  }

  lemma TwoHeld()
    ensures Holding([Resumes("1"), Resumes("2")], ProductionQueue) == 2
  {
    assert [Resumes("1"), Resumes("2")][..1] == [Resumes("1")];
    assert Holding([Resumes("1")], ProductionQueue) == 1;
  }

  /** Two slots are held at limit 1, although nothing was removed from a queue. */
  lemma LateCallExceedsLimit()
    ensures Legal(OneAtATime(), LateCall()) && Unremoved(LateCall())
    ensures var s := Run(OneAtATime(), LateCall());
            && Holding(s.adds, ProductionQueue) == 2 && ProductionQueue in s.control.limits
            && s.control.limits[ProductionQueue] == 1
    ensures SomeExcess(OneAtATime(), LateCall())
  {
    LateCallLeads();
    TwoHeld();
    StartIsSound(true, 1, -1);
    LimitKeptIffNoExcess(OneAtATime(), LateCall());
    if AlwaysWithinLimits(OneAtATime(), LateCall()) {
      EndWithinLimits(OneAtATime(), LateCall());
    }
  }

  lemma {:induction false} EndWithinLimits(s: State, es: seq<Event>)
    requires Legal(s, es) && AlwaysWithinLimits(s, es)
    ensures WithinLimits(Run(s, es))
    decreases |es|
  {
    if es != [] {
      EndWithinLimits(Next(s, es[0]), es[1..]);
    }
  }

  lemma FirstResumed(s0: State, s1: State)
    requires s0 == OneAtATime() && s1 == Late(true, [Resumes("1")])
    ensures Next(s0, Begin(Webhook, Some("1"))) == s1
  {
    RelabelOne([AddCall(Webhook, "1", true, Queued)], Waiter("1", 0), Admitted);
    assert s0.control.queues == map[ProductionQueue := QueueState(1, [])];
    assert s0.control.queues[ProductionQueue := QueueState(0, [])] == s1.control.queues;
  }
}
