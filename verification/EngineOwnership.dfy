/**
 The tunnel engine: attempts come and go behind one router, each with its own
 flow owner. Dials may reach any target that was ever installed, because a
 dialer may have captured it before it was replaced.
 */
module EngineOwnership {
  import opened Options
  import F = FlowWorld
  import FlowInvariant
  import FlowTheorems
  import D = DrainedOwner

  /** What the engine's mutex holder is doing. */
  datatype Pc =
    | Idle
    | DetachFenced
    | Detaching
    | StopFenced
    | StopSealed
    | StopWaiting(platformFailed: bool)

  /** `flows` has one flow world for every target ever installed, named in order of installation. */
  datatype Engine = Engine(
    flows: seq<F.World>,
    proxy: Option<nat>,
    attempt: nat,
    target: Option<nat>,
    routerClosed: bool,
    stopped: bool,
    pc: Pc)

  const NewEngine := Engine([], None, 0, None, false, false, Idle)

  datatype Event =
    | Attach(generation: nat, valid: bool)
    | Detach(generation: nat)
    | Stop
    | Proceed
    | PlatformStops(ok: bool)
    | Flow(k: nat, e: F.Event)

  /** Attach: refused by a stopped engine and while an earlier attempt still owns flows. */
  function AttachStep(w: Engine, generation: nat, valid: bool): Engine {
    if w.pc != Idle || w.stopped || w.proxy.Some? || !valid then w
    else
      var k := |w.flows|;
      w.(flows := w.flows + [F.Start], proxy := Some(k), attempt := generation,
         target := if w.routerClosed then w.target else Some(k))
  }

  /** Detach and Stop first fence the router: no new flow is offered to the attempt. */
  function DetachStep(w: Engine, generation: nat): Engine {
    if w.pc != Idle || w.attempt != generation || w.proxy == None then w
    else w.(target := None, pc := DetachFenced)
  }

  function StopStep(w: Engine): Engine {
    if w.pc != Idle || w.stopped then w
    else w.(target := None, routerClosed := true, pc := StopFenced)
  }

  function SetFlow(w: Engine, k: nat, f: F.World): Engine
    requires k < |w.flows|
  {
    w.(flows := w.flows[k := f])
  }

  /** The mutex holder's next step on the flows it retires: seal, then take the wait's snapshot. */
  function ProceedStep(w: Engine): Engine {
    match w.pc
    case DetachFenced =>
      if w.proxy.Some? && w.proxy.value < |w.flows| then
        SetFlow(w, w.proxy.value, F.SealStep(w.flows[w.proxy.value])).(pc := Detaching)
      else w
    case StopFenced =>
      if w.proxy.Some? && w.proxy.value < |w.flows| then
        SetFlow(w, w.proxy.value, F.SealStep(w.flows[w.proxy.value])).(pc := StopSealed)
      else w.(pc := StopSealed)
    case _ => w
  }

  /** The packet stack stops between the sweep and the wait; without flows that completes the stop. */
  function PlatformStep(w: Engine, ok: bool): Engine {
    if w.pc != StopSealed then w
    else if w.proxy.Some? then
      if w.proxy.value < |w.flows| && w.flows[w.proxy.value].cleanup == F.Sweeping({}) then
        SetFlow(w, w.proxy.value, F.SweepDoneStep(w.flows[w.proxy.value])).(pc := StopWaiting(!ok))
      else w
    else w.(pc := Idle, stopped := ok)
  }

  predicate IsCleanup(e: F.Event) { e.SealIt? || e.Sweep? || e.SweepDone? || e.WaitReturns? }

  /** The sweep, and for Detach the snapshot, of the attempt being retired. */
  predicate MayClean(w: Engine, k: nat, e: F.Event) {
    w.proxy == Some(k) &&
    match w.pc
    case Detaching => e.Sweep? || e.SweepDone? || e.WaitReturns?
    case StopSealed => e.Sweep?
    case StopWaiting(_) => e.WaitReturns?
    case _ => false
  }

  /** What the mutex holder does when wait returned: only success lets the attempt go. */
  function AfterWait(w: Engine, k: nat, f: F.World): Engine
    requires k < |w.flows|
  {
    var done := f.cleanup == F.NoCleanup;
    var v := SetFlow(w, k, f);
    if !done then v
    else if w.pc == Detaching then v.(pc := Idle, proxy := if f.reported then None else w.proxy)
    else v.(pc := Idle, stopped := f.reported && w.pc.StopWaiting? && !w.pc.platformFailed)
  }

  function FlowStep(w: Engine, k: nat, e: F.Event): Engine {
    if k >= |w.flows| then w
    else if IsCleanup(e) then
      if !MayClean(w, k, e) then w
      else if e.WaitReturns? then AfterWait(w, k, F.Next(w.flows[k], e))
      else SetFlow(w, k, F.Next(w.flows[k], e))
    // A UDP origin is admitted under the router lock, so only to the current target.
    else if e.Begin? && e.kind == F.Origin && w.target != Some(k) then w
    else SetFlow(w, k, F.Next(w.flows[k], e))
  }

  function Next(w: Engine, e: Event): Engine {
    match e
    case Attach(generation, valid) => AttachStep(w, generation, valid)
    case Detach(generation) => DetachStep(w, generation)
    case Stop => StopStep(w)
    case Proceed => ProceedStep(w)
    case PlatformStops(ok) => PlatformStep(w, ok)
    case Flow(k, e) => FlowStep(w, k, e)
  }

  function Run(w: Engine, events: seq<Event>): Engine
    decreases |events|
  {
    if events == [] then w else Run(Next(w, events[0]), events[1..])
  }

  // ------------------------------------------------------------- invariant

  /** No open socket, no pending dial, and none to come. */
  predicate Quiet(f: F.World) { D.Drained(FlowTheorems.Abs(f)) }

  predicate BusyPc(pc: Pc) { pc.Detaching? || pc.StopSealed? || pc.StopWaiting? }

  predicate FlowOk(w: Engine, k: nat)
    requires k < |w.flows|
  {
    && FlowInvariant.Inv(w.flows[k])
    && (w.proxy != Some(k) || w.stopped ==> Quiet(w.flows[k]))
    && (w.flows[k].cleanup != F.NoCleanup ==> w.proxy == Some(k) && BusyPc(w.pc))
    && (w.flows[k].cleanup.Waiting? ==> !w.pc.StopSealed?)
  }

  predicate Inv(w: Engine) {
    && (w.proxy.Some? ==> w.proxy.value < |w.flows|)
    && (w.target.Some? ==> w.target == w.proxy && w.pc == Idle)
    && (w.pc.DetachFenced? || w.pc.Detaching? || w.pc.StopWaiting? ==> w.proxy.Some?)
    && (forall k :: 0 <= k < |w.flows| ==> FlowOk(w, k))
  }

  /** Events of an attempt that was let go never bring it back. */
  lemma FlowKeepsQuiet(f: F.World, e: F.Event)
    requires FlowInvariant.Inv(f)
    ensures FlowInvariant.Inv(F.Next(f, e))
    ensures Quiet(f) ==> Quiet(F.Next(f, e))
    ensures !IsCleanup(e) ==> F.Next(f, e).cleanup == f.cleanup
  {
    FlowInvariant.StepInv(f, e);
    if Quiet(f) {
      FlowTheorems.StaysDrained(f, [e]);
      assert FlowTheorems.Run(f, [e]) == F.Next(f, e) by { assert [e][1..] == []; }
    }
    CleanupAlone(f, e);
  }

  lemma CleanupAlone(f: F.World, e: F.Event)
    ensures !IsCleanup(e) ==> F.Next(f, e).cleanup == f.cleanup
    ensures e.Sweep? && f.cleanup.Sweeping? ==> F.Next(f, e).cleanup.Sweeping?
    ensures e.Sweep? && !f.cleanup.Sweeping? ==> F.Next(f, e) == f
  {
    hide F.CanClose;
  }

  /** A report of success in this very step, or before it, means the attempt is quiet. */
  lemma ReportedIsQuiet(f: F.World)
    requires FlowInvariant.Inv(f) && f.reported
    ensures Quiet(f)
  {
    FlowTheorems.NothingOpen(f);
  }

  lemma SetFlowInv(w: Engine, v: Engine, k: nat, f: F.World)
    requires Inv(w) && k < |w.flows| && v.flows == w.flows[k := f]
    requires v.proxy.Some? ==> v.proxy == w.proxy
    requires v.target.Some? ==> v.target == v.proxy && v.pc == Idle
    requires v.pc.DetachFenced? || v.pc.Detaching? || v.pc.StopWaiting? ==> v.proxy.Some?
    requires FlowOk(v, k)
    requires w.proxy == Some(k) || (v.proxy == w.proxy && v.pc == w.pc && v.stopped == w.stopped)
    ensures Inv(v)
  {
    forall j | 0 <= j < |v.flows|
      ensures FlowOk(v, j)
    {
      assert FlowOk(w, j);
    }
  }

  lemma AttachInv(w: Engine, generation: nat, valid: bool)
    requires Inv(w)
    ensures Inv(AttachStep(w, generation, valid))
  {
    var v := AttachStep(w, generation, valid);
    FlowInvariant.StartInv();
    forall j | 0 <= j < |v.flows|
      ensures FlowOk(v, j)
    {
      if j < |w.flows| {
        assert FlowOk(w, j);
      }
    }
  }

  /** Fencing the router, or sealing nothing, leaves every flow world as it is. */
  lemma SameFlows(w: Engine, v: Engine)
    requires Inv(w) && v.flows == w.flows && v.proxy == w.proxy && v.stopped == w.stopped && v.target == None
    requires v.pc.DetachFenced? || v.pc.Detaching? || v.pc.StopWaiting? ==> v.proxy.Some?
    requires BusyPc(w.pc) ==> w.proxy == None
    ensures Inv(v)
  {
    forall j | 0 <= j < |v.flows|
      ensures FlowOk(v, j)
    {
      assert FlowOk(w, j);
    }
  }

  lemma FenceInv(w: Engine, e: Event)
    requires Inv(w) && (e.Detach? || e.Stop?)
    ensures Inv(Next(w, e))
  {
    if Next(w, e) != w {
      SameFlows(w, Next(w, e));
    }
  }

  lemma SealKeeps(f: F.World)
    requires FlowInvariant.Inv(f) && f.cleanup == F.NoCleanup
    ensures FlowInvariant.Inv(F.SealStep(f)) && (Quiet(f) ==> Quiet(F.SealStep(f))) && F.SealStep(f).cleanup.Sweeping?
  {
    FlowKeepsQuiet(f, F.SealIt);
  }

  lemma SnapshotKeeps(f: F.World)
    requires FlowInvariant.Inv(f) && f.cleanup == F.Sweeping({})
    ensures FlowInvariant.Inv(F.SweepDoneStep(f)) && (Quiet(f) ==> Quiet(F.SweepDoneStep(f)))
    ensures F.SweepDoneStep(f).cleanup.Waiting?
  {
    FlowKeepsQuiet(f, F.SweepDone);
  }

  lemma ProceedInv(w: Engine)
    requires Inv(w)
    ensures Inv(ProceedStep(w))
  {
    var v := ProceedStep(w);
    if (w.pc.DetachFenced? || w.pc.StopFenced?) && w.proxy.Some? {
      var k := w.proxy.value;
      assert FlowOk(w, k);
      hide Quiet, FlowInvariant.Inv, F.SealStep;
      SealKeeps(w.flows[k]);
      assert FlowOk(v, k);
      SetFlowInv(w, v, k, F.SealStep(w.flows[k]));
    } else if v != w {
      SameFlows(w, v);
    }
  }

  lemma PlatformInv(w: Engine, ok: bool)
    requires Inv(w)
    ensures Inv(PlatformStep(w, ok))
  {
    var v := PlatformStep(w, ok);
    if v != w {
      if w.proxy.Some? {
        var k := w.proxy.value;
        assert FlowOk(w, k);
        hide Quiet, FlowInvariant.Inv, F.SweepDoneStep;
        SnapshotKeeps(w.flows[k]);
        assert FlowOk(v, k);
        SetFlowInv(w, v, k, F.SweepDoneStep(w.flows[k]));
      } else {
        forall j | 0 <= j < |v.flows|
          ensures FlowOk(v, j)
        {
          assert FlowOk(w, j);
        }
      }
    }
  }

  lemma FlowInv(w: Engine, k: nat, e: F.Event)
    requires Inv(w)
    ensures Inv(FlowStep(w, k, e))
  {
    hide F.Next, Quiet, FlowInvariant.Inv;
    var v := FlowStep(w, k, e);
    if v != w {
      assert FlowOk(w, k);
      var f := F.Next(w.flows[k], e);
      FlowKeepsQuiet(w.flows[k], e);
      if f.reported {
        ReportedIsQuiet(f);
      }
      FlowStepOk(w, k, e);
      hide FlowOk;
      SetFlowInv(w, v, k, f);
    }
  }

  lemma FlowStepOk(w: Engine, k: nat, e: F.Event)
    requires k < |w.flows| && FlowOk(w, k) && FlowStep(w, k, e) != w
    requires var f := F.Next(w.flows[k], e);
      && FlowInvariant.Inv(f) && (Quiet(w.flows[k]) || f.reported ==> Quiet(f))
      && (!IsCleanup(e) ==> f.cleanup == w.flows[k].cleanup)
    ensures FlowOk(FlowStep(w, k, e), k)
  {
    CleanupAlone(w.flows[k], e);
    hide F.Next, Quiet, FlowInvariant.Inv;
  }

  lemma StepInv(w: Engine, e: Event)
    requires Inv(w)
    ensures Inv(Next(w, e))
  {
    match e
    case Attach(generation, valid) => AttachInv(w, generation, valid);
    case Detach(_) => FenceInv(w, e);
    case Stop => FenceInv(w, e);
    case Proceed => ProceedInv(w);
    case PlatformStops(ok) => PlatformInv(w, ok);
    case Flow(k, f) => FlowInv(w, k, f);
  }

  lemma {:induction false} RunInv(w: Engine, events: seq<Event>)
    requires Inv(w)
    ensures Inv(Run(w, events))
    decreases |events|
  {
    if events != [] {
      StepInv(w, events[0]);
      RunInv(Next(w, events[0]), events[1..]);
    }
  }

  // --------------------------------------------------------------- theorems

  /** At most one attempt has open sockets or pending dials: the attached one. */
  lemma OneAttemptHasFlows(events: seq<Event>, k: nat)
    ensures var w := Run(NewEngine, events);
      k < |w.flows| && !Quiet(w.flows[k]) ==> w.proxy == Some(k) && !w.stopped
  {
    RunInv(NewEngine, events);
    var w := Run(NewEngine, events);
    assert k < |w.flows| ==> FlowOk(w, k);
  }

  /**
   When Attach installs an attempt, every earlier one is drained, and stays
   drained whatever a dialer with a stale target does afterwards.
   */
  lemma {:induction false} AttachAfterDrain(w: Engine, later: seq<Event>, k: nat)
    requires Inv(w) && k < |w.flows| && w.proxy != Some(k)
    ensures var v := Run(w, later); k < |v.flows| && v.proxy != Some(k) && Quiet(v.flows[k])
    decreases |later|
  {
    assert FlowOk(w, k);
    if later != [] {
      StepInv(w, later[0]);
      AttachAfterDrain(Next(w, later[0]), later[1..], k);
    }
  }

  lemma AttachNeedsDrain(events: seq<Event>, generation: nat, later: seq<Event>, k: nat)
    ensures var w := Run(NewEngine, events); var v := AttachStep(w, generation, true);
      v.proxy != w.proxy && k < |w.flows| ==> Quiet(v.flows[k]) && var u := Run(v, later); k < |u.flows| && Quiet(u.flows[k])
  {
    RunInv(NewEngine, events);
    var w := Run(NewEngine, events);
    var v := AttachStep(w, generation, true);
    AttachInv(w, generation, true);
    if v.proxy != w.proxy && k < |w.flows| {
      AttachAfterDrain(v, [], k);
      AttachAfterDrain(v, later, k);
    }
  }

  /** A dial through a target that is no longer attached is refused and leaves no trace. */
  lemma StaleTargetsAreRefused(events: seq<Event>, k: nat, t: nat, kind: F.Kind)
    ensures var w := Run(NewEngine, events);
      k < |w.flows| && (w.proxy != Some(k) || w.stopped) ==> FlowStep(w, k, F.Begin(t, kind)) == w
  {
    RunInv(NewEngine, events);
    var w := Run(NewEngine, events);
    if k < |w.flows| && (w.proxy != Some(k) || w.stopped) {
      assert FlowOk(w, k);
      assert F.Next(w.flows[k], F.Begin(t, kind)) == w.flows[k];
    }
  }

  /** After Stop succeeded, nothing this engine ever carried is open, and Attach is refused. */
  lemma StoppedIsDrained(events: seq<Event>, k: nat, generation: nat, valid: bool)
    ensures var w := Run(NewEngine, events);
      w.stopped ==> (k < |w.flows| ==> Quiet(w.flows[k])) && AttachStep(w, generation, valid) == w
  {
    RunInv(NewEngine, events);
    var w := Run(NewEngine, events);
    assert k < |w.flows| ==> FlowOk(w, k);
  }
}
