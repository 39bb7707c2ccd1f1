/**
 Throttles against releases, mode by mode: whatever the interleaving, the calls past the throttle that have
 not released yet are exactly those not registered, and those whose record's callback has not run.
 */
module ThrottleBalance {
  import opened Prelude
  import opened ConcurrencyQueues
  import opened ConcurrencyControl
  import opened Executions
  import opened Slots
  import opened Invariants
  import opened History

  /** Past the throttle, and its slot not released. */
  predicate Outstanding(call: AddCall, mode: Mode) {
    call.mode == mode && (call.phase.Admitted? || call.phase.Registered? || call.phase == Failed(true))
  }

  ghost function Past(adds: seq<AddCall>, mode: Mode): set<nat> {
    set t: nat | t < |adds| && Outstanding(adds[t], mode)
  }

  ghost function OfMode(adds: seq<AddCall>, ts: set<nat>, mode: Mode): set<nat> {
    set t | t in ts && t < |adds| && adds[t].mode == mode
  }

  // ---------- What a step counts ----------

  ghost function Tickets(ws: seq<Waiter>): set<nat> {
    set w | w in ws :: w.ticket
  }

  /** The calls of `add` whose `throttle` completes in a step: the caller's own, or a waiter's. */
  ghost function LetThrough(s: State, e: Event): set<nat>
    requires Enabled(s, e)
  {
    match e
    case Begin(mode, Some(id)) => Tickets(ThrottleEffect(s.control, mode, Waiter(id, |s.adds|)).admitted)
    case Created(t, id) =>
      if id != "" && s.regular then Tickets(ThrottleEffect(s.control, s.adds[t].mode, Waiter(id, t)).admitted) else {}
    case Settle(r) => Tickets(ReleaseEffect(s.control, s.recs[r].mode).admitted)
    case RemoveQueued(mode, id) => Tickets(RemoveEffectFor(s.control, mode, id).admitted)
    case Shutdown(cancelAll) => Tickets(RemoveAllEffect(ConcurrencyOff(s).control, ToCancel(s, cancelAll)).admitted)
    case _ => {}
  }

  /** Outside regular mode a new execution is not throttled. */
  ghost function Unthrottled(s: State, e: Event): set<nat> {
    if e.Created? && e.newId != "" && !s.regular then {e.call} else {}
  }

  /** The call whose slot the callback releases. */
  ghost function Freed(s: State, e: Event): set<nat>
    requires Enabled(s, e)
  {
    if e.Settle? then {s.recs[e.rec].call} else {}
  }

  ghost function Throttles(s: State, es: seq<Event>, mode: Mode): nat
    requires Legal(s, es)
    decreases |es|
  {
    if es == [] then 0
    else |OfMode(Next(s, es[0]).adds, LetThrough(s, es[0]), mode)| + Throttles(Next(s, es[0]), es[1..], mode)
  }

  ghost function Bypasses(s: State, es: seq<Event>, mode: Mode): nat
    requires Legal(s, es)
    decreases |es|
  {
    if es == [] then 0
    else |OfMode(Next(s, es[0]).adds, Unthrottled(s, es[0]), mode)| + Bypasses(Next(s, es[0]), es[1..], mode)
  }

  ghost function Releases(s: State, es: seq<Event>, mode: Mode): nat
    requires Legal(s, es)
    decreases |es|
  {
    if es == [] then 0
    else (if es[0].Settle? && s.recs[es[0].rec].mode == mode then 1 else 0) + Releases(Next(s, es[0]), es[1..], mode)
  }

  // ---------- One step ----------

  /** From `adds` to `after`, exactly `freed` stop being outstanding, and exactly `come` become so. */
  ghost predicate Moves(adds: seq<AddCall>, after: seq<AddCall>, freed: set<nat>, come: set<nat>, mode: Mode) {
    && Past(after, mode) == Past(adds, mode) - freed + OfMode(after, come, mode)
    && OfMode(adds, freed, mode) <= Past(adds, mode)
    && come !! Past(adds, mode)
  }

  lemma PastUpdate(adds: seq<AddCall>, t: nat, call: AddCall, mode: Mode)
    requires t < |adds|
    ensures Past(adds[t := call], mode) == Past(adds, mode) - {t} + (if Outstanding(call, mode) then {t} else {})
  {
  }

  /** A call that was not outstanding changes. */
  lemma UpdateMoves(adds: seq<AddCall>, t: nat, call: AddCall, mode: Mode)
    requires t < |adds| && !Outstanding(adds[t], adds[t].mode) && call.mode == adds[t].mode
    ensures Moves(adds, adds[t := call], {}, if Outstanding(call, call.mode) then {t} else {}, mode)
  {
    PastUpdate(adds, t, call, mode);
  }

  lemma AdmittedMoves(adds: seq<AddCall>, ws: seq<Waiter>, mode: Mode)
    requires |ws| <= 1 && forall w :: w in ws ==> w.ticket < |adds| && adds[w.ticket].phase.Queued?
    ensures Moves(adds, RelabelAll(adds, ws, Admitted), {}, Tickets(ws), mode)
  {
    if ws == [] {
      assert Tickets(ws) == {};
    } else {
      assert ws == [ws[0]] && Tickets(ws) == {ws[0].ticket};
      RelabelOne(adds, ws[0], Admitted);
      UpdateMoves(adds, ws[0].ticket, adds[ws[0].ticket].(phase := Admitted), mode);
    }
  }

  lemma MovesAfter(
        adds: seq<AddCall>, mid: seq<AddCall>, after: seq<AddCall>, freed: set<nat>, come: set<nat>, mode: Mode)
    requires Moves(adds, mid, freed, {}, mode) && Moves(mid, after, {}, come, mode) && come !! freed
    ensures Moves(adds, after, freed, come, mode)
  {
  }

  lemma ThrottledMoves(s: State, t: nat, mode: Mode)
    requires t < |s.adds| && s.adds[t].phase.Creating?
    ensures Moves(s.adds, Throttled(s, t).adds, {},
                  Tickets(ThrottleEffect(s.control, s.adds[t].mode, Waiter(s.adds[t].executionId, t)).admitted), mode)
  {
    var w := Waiter(s.adds[t].executionId, t);
    var e := ThrottleEffect(s.control, s.adds[t].mode, w);
    assert e.admitted == [] || e.admitted == [w];
    var queued := Relabel(s.adds, t, Queued);
    UpdateMoves(s.adds, t, queued[t], mode);
    AdmittedMoves(queued, e.admitted, mode);
    MovesAfter(s.adds, queued, Throttled(s, t).adds, {}, Tickets(e.admitted), mode);
  }

  lemma AppendMoves(adds: seq<AddCall>, call: AddCall, mode: Mode)
    requires call.phase.Creating?
    ensures Moves(adds, adds + [call], {}, {}, mode)
  {
    assert forall t :: 0 <= t < |adds| ==> (adds + [call])[t] == adds[t];
  }

  lemma BeginMoves(s: State, m: Mode, id: Option<string>, mode: Mode)
    ensures Moves(s.adds, Next(s, Begin(m, id)).adds, {}, LetThrough(s, Begin(m, id)), mode)
  {
    var call := AddCall(m, if id.Some? then id.value else "", id.Some?, Creating);
    AppendMoves(s.adds, call, mode);
    if id.Some? {
      var begun := s.(adds := s.adds + [call]);
      ThrottledMoves(begun, |s.adds|, mode);
      MovesAfter(s.adds, begun.adds, Next(s, Begin(m, id)).adds, {}, LetThrough(s, Begin(m, id)), mode);
    }
  }

  lemma CreatedMoves(s: State, t: nat, id: string, mode: Mode)
    requires Enabled(s, Created(t, id))
    ensures Moves(s.adds, AfterCreation(s, t, id).adds, {},
                  LetThrough(s, Created(t, id)) + Unthrottled(s, Created(t, id)), mode)
  {
    var named := s.adds[t].(executionId := id);
    if id != "" && s.regular {
      var m := s.(adds := s.adds[t := named]);
      UpdateMoves(s.adds, t, named, mode);
      ThrottledMoves(m, t, mode);
      MovesAfter(s.adds, m.adds, Throttled(m, t).adds, {}, LetThrough(s, Created(t, id)), mode);
      assert LetThrough(s, Created(t, id)) + {} == LetThrough(s, Created(t, id));
    } else {
      var call := named.(phase := if id == "" then Failed(false) else Admitted);
      assert AfterCreation(s, t, id).adds == s.adds[t := call];
      UpdateMoves(s.adds, t, call, mode);
    }
  }

  lemma SettleMoves(s: State, r: nat, mode: Mode)
    requires Inv(s) && Enabled(s, Settle(r))
    ensures s.recs[r].call < |s.adds| && s.adds[s.recs[r].call].mode == s.recs[r].mode
    ensures Moves(s.adds, Callback(s, r).adds, Freed(s, Settle(r)), LetThrough(s, Settle(r)), mode)
  {
    var rec := s.recs[r];
    assert RecordOk(s, r);
    var released := Relabel(s.adds, rec.call, Released);
    PastUpdate(s.adds, rec.call, released[rec.call], mode);
    var admitted := ReleaseEffect(s.control, rec.mode).admitted;
    AdmittedWereQueued(s.control, s.adds, rec.mode, Dequeue, Admitted);
    AdmittedMoves(released, admitted, mode);
    MovesAfter(s.adds, released, Callback(s, r).adds, {rec.call}, Tickets(admitted), mode);
  }

  lemma RemovalMoves(s: State, m: Mode, id: string, mode: Mode)
    requires Inv(s)
    ensures Moves(s.adds, Removal(s, m, id).adds, {}, LetThrough(s, RemoveQueued(m, id)), mode)
  {
    var e := RemoveEffectFor(s.control, m, id);
    AdmittedWereQueued(s.control, s.adds, m, Remove(id), Admitted);
    RelabelQueued(s.adds, e.dropped, Dropped);
    var stranded := RelabelAll(s.adds, e.dropped, Dropped);
    if e.dropped != [] {
      assert e.dropped == [e.dropped[0]];
      RelabelOne(s.adds, e.dropped[0], Dropped);
      UpdateMoves(s.adds, e.dropped[0].ticket, stranded[e.dropped[0].ticket], mode);
    }
    AdmittedMoves(stranded, e.admitted, mode);
    MovesAfter(s.adds, stranded, Removal(s, m, id).adds, {}, Tickets(e.admitted), mode);
  }

  lemma PhaseMoves(s: State, e: Event, mode: Mode)
    requires Enabled(s, e) && (e.CreationFails? || e.UpdateFails? || e.Register?)
    ensures Moves(s.adds, Next(s, e).adds, {}, {}, mode)
  {
    PastUpdate(s.adds, e.call, Next(s, e).adds[e.call], mode);
  }

  lemma StepMoves(s: State, e: Event, mode: Mode)
    requires Inv(s) && Enabled(s, e)
    ensures Moves(s.adds, Next(s, e).adds, Freed(s, e), LetThrough(s, e) + Unthrottled(s, e), mode)
  {
    match e
    case Begin(m, id) =>
      BeginMoves(s, m, id, mode);
      assert LetThrough(s, e) + Unthrottled(s, e) == LetThrough(s, e);
    case Created(t, id) => CreatedMoves(s, t, id, mode);
    case CreationFails(_) => PhaseMoves(s, e, mode);
    case UpdateFails(_) => PhaseMoves(s, e, mode);
    case Register(_, _) => PhaseMoves(s, e, mode);
    case Settle(r) =>
      SettleMoves(s, r, mode);
      assert LetThrough(s, e) + Unthrottled(s, e) == LetThrough(s, e);
    case RemoveQueued(m, id) =>
      RemovalMoves(s, m, id, mode);
      assert LetThrough(s, e) + Unthrottled(s, e) == LetThrough(s, e);
    case Shutdown(cancelAll) => ShutdownNeverCancels(s, cancelAll);
    case _ => MethodsOnlyTouchRecords(s, e);
  }

  lemma MovesCount(adds: seq<AddCall>, after: seq<AddCall>, freed: set<nat>, come: set<nat>, mode: Mode)
    requires Moves(adds, after, freed, come, mode)
    ensures |Past(after, mode)| + |OfMode(adds, freed, mode)| == |Past(adds, mode)| + |OfMode(after, come, mode)|
  {
    var gone := OfMode(adds, freed, mode);
    var kept := Past(adds, mode) - gone;
    assert Past(adds, mode) - freed == kept;
    assert Past(adds, mode) == kept + gone;
    assert Past(after, mode) == kept + OfMode(after, come, mode);
  }

  lemma FreedCount(s: State, e: Event, mode: Mode)
    requires Inv(s) && Enabled(s, e)
    ensures |OfMode(s.adds, Freed(s, e), mode)| == if e.Settle? && s.recs[e.rec].mode == mode then 1 else 0
  {
    if e.Settle? {
      SettleMoves(s, e.rec, mode);
      assert OfMode(s.adds, Freed(s, e), mode) == if s.recs[e.rec].mode == mode then {s.recs[e.rec].call} else {};
    } else {
      assert OfMode(s.adds, Freed(s, e), mode) == {};
    }
  }

  lemma OneOrOther(adds: seq<AddCall>, a: set<nat>, b: set<nat>, mode: Mode)
    requires a == {} || b == {}
    ensures |OfMode(adds, a + b, mode)| == |OfMode(adds, a, mode)| + |OfMode(adds, b, mode)|
  {
    assert OfMode(adds, {}, mode) == {};
    assert a + b == if a == {} then b else a;
  }

  lemma StepBalances(s: State, e: Event, mode: Mode)
    requires Inv(s) && Enabled(s, e)
    ensures |Past(Next(s, e).adds, mode)| + (if e.Settle? && s.recs[e.rec].mode == mode then 1 else 0)
         == |Past(s.adds, mode)| + |OfMode(Next(s, e).adds, LetThrough(s, e), mode)| +
            |OfMode(Next(s, e).adds, Unthrottled(s, e), mode)|
  {
    var after, let, un := Next(s, e).adds, LetThrough(s, e), Unthrottled(s, e);
    StepMoves(s, e, mode);
    MovesCount(s.adds, after, Freed(s, e), let + un, mode);
    FreedCount(s, e, mode);
    OneOrOther(after, let, un, mode);
  }

  /** Over every run: completed throttles, and admissions without one, are releases plus calls still outstanding. */
  lemma {:induction false} RunBalances(s: State, es: seq<Event>, mode: Mode)
    requires Inv(s) && Legal(s, es)
    ensures Throttles(s, es, mode) + Bypasses(s, es, mode) + |Past(s.adds, mode)|
         == Releases(s, es, mode) + |Past(Run(s, es).adds, mode)|
    decreases |es|
  {
    if es != [] {
      StepBalances(s, es[0], mode);
      NextKeeps(s, es[0]);
      RunBalances(Next(s, es[0]), es[1..], mode);
    }
  }

  lemma {:induction false} RegularNeverBypasses(s: State, es: seq<Event>, mode: Mode)
    requires Inv(s) && s.regular && Legal(s, es)
    ensures Bypasses(s, es, mode) == 0
    decreases |es|
  {
    if es != [] {
      NextKeeps(s, es[0]);
      ModeStays(s, es[0]);
      assert OfMode(Next(s, es[0]).adds, {}, mode) == {};
      RegularNeverBypasses(Next(s, es[0]), es[1..], mode);
    }
  }

  lemma ModeStays(s: State, e: Event)
    requires Enabled(s, e)
    ensures Next(s, e).regular == s.regular
  {
  }

  // ---------- Outstanding calls and records ----------

  /** Every registered call has its record. */
  ghost predicate Backed(s: State) {
    forall t :: 0 <= t < |s.adds| && s.adds[t].phase.Registered? ==> HasRecord(s, t)
  }

  ghost predicate HasRecord(s: State, t: nat) {
    exists r :: 0 <= r < |s.recs| && s.recs[r].call == t
  }

  lemma RelabelAllLength(adds: seq<AddCall>, ws: seq<Waiter>, phase: Phase)
    ensures |RelabelAll(adds, ws, phase)| == |adds|
    decreases |ws|
  {
  }

  lemma RelabelledAs(adds: seq<AddCall>, ws: seq<Waiter>, phase: Phase, t: nat)
    requires t < |adds| && !phase.Registered?
    ensures |RelabelAll(adds, ws, phase)| == |adds|
    ensures RelabelAll(adds, ws, phase)[t].phase.Registered? ==> adds[t].phase.Registered?
    decreases |ws|
  {
    if ws != [] {
      RelabelledAs(Relabel(adds, ws[0].ticket, phase), ws[1..], phase, t);
    }
  }

  lemma ThrottledRegisters(s: State, c: nat, t: nat)
    requires c < |s.adds| && t < |s.adds|
    ensures |Throttled(s, c).adds| == |s.adds|
    ensures Throttled(s, c).adds[t].phase.Registered? ==> s.adds[t].phase.Registered?
  {
    RelabelledAs(Relabel(s.adds, c, Queued),
                 ThrottleEffect(s.control, s.adds[c].mode, Waiter(s.adds[c].executionId, c)).admitted, Admitted, t);
  }

  /** Only the last part of `add` makes a call registered. */
  lemma RegisteredBefore(s: State, e: Event, t: nat)
    requires Inv(s) && Enabled(s, e) && t < |Next(s, e).adds| && Next(s, e).adds[t].phase.Registered?
    ensures (t < |s.adds| && s.adds[t].phase.Registered?) || (e.Register? && e.call == t)
  {
    match e
    case Begin(mode, Some(id)) =>
      var begun := s.(adds := s.adds + [AddCall(mode, id, true, Creating)]);
      ThrottledRegisters(begun, |s.adds|, |s.adds|);
      ThrottledRegisters(begun, |s.adds|, t);
    case Created(c, id) =>
      if id != "" && s.regular {
        var m := s.(adds := s.adds[c := s.adds[c].(executionId := id)]);
        ThrottledRegisters(m, c, c);
        ThrottledRegisters(m, c, t);
      }
    case Settle(r) => CallbackRegisters(s, r, t);
    case RemoveQueued(mode, id) => RemovalRegisters(s, mode, id, t);
    case Shutdown(cancelAll) => ShutdownNeverCancels(s, cancelAll);
    case _ =>
  }

  lemma CallbackRegisters(s: State, r: nat, t: nat)
    requires Inv(s) && Enabled(s, Settle(r)) && t < |Callback(s, r).adds| && Callback(s, r).adds[t].phase.Registered?
    ensures t < |s.adds| && s.adds[t].phase.Registered?
  {
    assert RecordOk(s, r);
    var released := Relabel(s.adds, s.recs[r].call, Released);
    var admitted := ReleaseEffect(s.control, s.recs[r].mode).admitted;
    RelabelAllLength(released, admitted, Admitted);
    RelabelledAs(released, admitted, Admitted, t);
  }

  lemma RemovalRegisters(s: State, mode: Mode, id: string, t: nat)
    requires t < |Removal(s, mode, id).adds| && Removal(s, mode, id).adds[t].phase.Registered?
    ensures t < |s.adds| && s.adds[t].phase.Registered?
  {
    var e := RemoveEffectFor(s.control, mode, id);
    RelabelAllLength(s.adds, e.dropped, Dropped);
    RelabelAllLength(RelabelAll(s.adds, e.dropped, Dropped), e.admitted, Admitted);
    RelabelledAs(RelabelAll(s.adds, e.dropped, Dropped), e.admitted, Admitted, t);
    RelabelledAs(s.adds, e.dropped, Dropped, t);
  }

  lemma BackedStep(s: State, e: Event)
    requires Inv(s) && Backed(s) && Enabled(s, e)
    ensures Backed(Next(s, e))
  {
    var m := Next(s, e);
    NextIsLater(s, e);
    forall t | 0 <= t < |m.adds| && m.adds[t].phase.Registered? ensures HasRecord(m, t) {
      RegisteredBefore(s, e, t);
      if e.Register? && e.call == t {
        assert m.recs[|s.recs|].call == t;
      } else {
        assert HasRecord(s, t);
        var r :| 0 <= r < |s.recs| && s.recs[r].call == t;
        assert LaterRecord(s.recs[r], m.recs[r]);
      }
    }
  }

  lemma {:induction false} BackedRun(s: State, es: seq<Event>)
    requires Inv(s) && Backed(s) && Legal(s, es)
    ensures Backed(Run(s, es)) && Inv(Run(s, es))
    decreases |es|
  {
    if es != [] {
      BackedStep(s, es[0]);
      NextKeeps(s, es[0]);
      BackedRun(Next(s, es[0]), es[1..]);
    }
  }

  /** The registered records of a mode whose callback has not run. */
  ghost function LiveRecords(s: State, mode: Mode): set<nat> {
    set r: nat | r < |s.recs| && s.recs[r].mode == mode && !s.recs[r].callbackRan
  }

  /** The calls that passed the throttle but did not register, those that failed there included. */
  ghost function Unregistered(s: State, mode: Mode): set<nat> {
    set t: nat | t < |s.adds| && s.adds[t].mode == mode &&
        (s.adds[t].phase.Admitted? || s.adds[t].phase == Failed(true))
  }

  ghost function RegisteredCalls(s: State, mode: Mode): set<nat> {
    set t: nat | t < |s.adds| && s.adds[t].mode == mode && s.adds[t].phase.Registered?
  }

  lemma {:induction false} OneRecordACall(s: State, live: set<nat>, calls: set<nat>)
    requires RecordsOk(s)
    requires forall r :: r in live ==> r < |s.recs| && s.recs[r].call in calls
    requires forall t :: t in calls ==> exists r :: r in live && r < |s.recs| && s.recs[r].call == t
    ensures |live| == |calls|
    decreases |live|
  {
    if live != {} {
      var r :| r in live;
      var c := s.recs[r].call;
      forall t | t in calls - {c} ensures exists q :: q in live - {r} && q < |s.recs| && s.recs[q].call == t {
        var q :| q in live && q < |s.recs| && s.recs[q].call == t;
        assert q in live - {r};
      }
      OneRecordACall(s, live - {r}, calls - {c});
    }
  }

  lemma LiveRecordsAreCalls(s: State, mode: Mode)
    requires Inv(s) && Backed(s)
    ensures |LiveRecords(s, mode)| == |RegisteredCalls(s, mode)|
  {
    var live, calls := LiveRecords(s, mode), RegisteredCalls(s, mode);
    forall r | r in live ensures s.recs[r].call in calls {
      assert RecordOk(s, r);
    }
    forall t | t in calls ensures exists r :: r in live && r < |s.recs| && s.recs[r].call == t {
      assert HasRecord(s, t);
      var r :| 0 <= r < |s.recs| && s.recs[r].call == t;
      assert RecordOk(s, r);
      assert r in live;
    }
    OneRecordACall(s, live, calls);
  }

  lemma OutstandingAre(s: State, mode: Mode)
    requires Inv(s) && Backed(s)
    ensures |Past(s.adds, mode)| == |LiveRecords(s, mode)| + |Unregistered(s, mode)|
  {
    LiveRecordsAreCalls(s, mode);
    OutstandingSplit(s, mode);
  }

  lemma OutstandingSplit(s: State, mode: Mode)
    ensures |Past(s.adds, mode)| == |RegisteredCalls(s, mode)| + |Unregistered(s, mode)|
  {
    var a, b := RegisteredCalls(s, mode), Unregistered(s, mode);
    forall t ensures t in Past(s.adds, mode) <==> t in a + b {
    }
    assert Past(s.adds, mode) == a + b;
  }

  /**
   In regular mode, in every reachable state and for each execution mode: completed throttles are releases,
   plus records whose callback has not run, plus calls past the throttle that have not registered. So
   releases never exceed throttles.
   */
  lemma ThrottlesBalance(production: int, evaluation: int, es: seq<Event>, mode: Mode)
    requires Init(false, production, evaluation).Some?
    requires Legal(Start(true, Init(false, production, evaluation).value), es)
    ensures var start := Start(true, Init(false, production, evaluation).value);
            var s := Run(start, es);
            Throttles(start, es, mode) == Releases(start, es, mode) + |LiveRecords(s, mode)| + |Unregistered(s, mode)|
  {
    var start := Start(true, Init(false, production, evaluation).value);
    assert Past(start.adds, mode) == {};
    RunBalances(start, es, mode);
    RegularNeverBypasses(start, es, mode);
    BackedRun(start, es);
    OutstandingAre(Run(start, es), mode);
  }
}
