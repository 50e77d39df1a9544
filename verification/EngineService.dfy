/**
 What attaching and detaching are there for: an accepted attempt is reachable until
 it is detached or stopped, and one that was let go makes room for the next.
 */
module EngineService {
  import opened Options
  import opened EngineOwnership
  import F = FlowWorld
  import FlowInvariant
  import FlowTheorems
  import FlowService

  /** The k-th attempt is the router's target, and its owner open. */
  predicate Serves(w: Engine, k: nat, generation: nat) {
    && w.target == Some(k) && w.proxy == Some(k) && w.attempt == generation && w.pc == Idle && !w.stopped && !w.routerClosed
    && k < |w.flows| && !w.flows[k].o.closed
  }

  /** No event of the attempt's own flows seals it: only the holder of the engine's mutex does. */
  lemma OwnEventsKeepOpen(f: F.World, e: F.Event)
    requires !IsCleanup(e)
    ensures F.Next(f, e).o.closed == f.o.closed
  {
    FlowTheorems.OnlyCleanupSeals(f, e);
    hide F.Next;
  }

  predicate Retires(e: Event, generation: nat) { e == Detach(generation) || e.Stop? }

  lemma ServesStep(w: Engine, e: Event, k: nat, generation: nat)
    requires Serves(w, k, generation) && !Retires(e, generation)
    ensures Serves(Next(w, e), k, generation)
  {
    hide F.Next;
    if e.Flow? && e.k < |w.flows| && !IsCleanup(e.e) {
      OwnEventsKeepOpen(w.flows[e.k], e.e);
    }
  }

  lemma {:induction false} StillServes(w: Engine, events: seq<Event>, k: nat, generation: nat)
    requires Serves(w, k, generation) && forall i :: 0 <= i < |events| ==> !Retires(events[i], generation)
    ensures Serves(Run(w, events), k, generation)
    decreases |events|
  {
    if events != [] {
      ServesStep(w, events[0], k, generation);
      hide Serves, Next;
      StillServes(Next(w, events[0]), events[1..], k, generation);
    }
  }

  /** The dial, or the origin, is admitted and counted as pending. */
  predicate Admitted(w: Engine, k: nat, t: nat, kind: F.Kind)
    requires k < |w.flows|
  {
    var v := Next(w, Flow(k, F.Begin(t, kind)));
    && k < |v.flows| && t in v.flows[k].dials && v.flows[k].dials[t].kind == kind
    && v.flows[k].o.pending == w.flows[k].o.pending + 1
  }

  lemma ServingAdmits(w: Engine, k: nat, generation: nat)
    requires Serves(w, k, generation)
    ensures forall t: nat, kind: F.Kind :: t !in w.flows[k].dials ==> Admitted(w, k, t, kind)
  {
    forall t: nat, kind: F.Kind | t !in w.flows[k].dials
      ensures Admitted(w, k, t, kind)
    {
      FlowService.AdmittedIffOpen(w.flows[k], t, kind);
      hide F.Next;
    }
  }

  /**
   From every reachable engine that is idle, not stopped, and carries no attempt
   behind an open router, a valid Attach installs the attempt: it becomes the
   target, and it admits every dial and every origin from then on, whatever else
   happens, until it is detached or the engine stopped.
   */
  lemma AttachedAttemptServes(events: seq<Event>, generation: nat, later: seq<Event>, t: nat, kind: F.Kind)
    requires var w := Run(NewEngine, events); w.pc == Idle && !w.stopped && w.proxy == None && !w.routerClosed
    requires forall i :: 0 <= i < |later| ==> !Retires(later[i], generation)
    ensures var w := Run(NewEngine, events); var k := |w.flows|;
      var v := Run(Next(w, Attach(generation, true)), later);
      && Serves(v, k, generation)
      && (t !in v.flows[k].dials ==> Admitted(v, k, t, kind))
  {
    var w := Run(NewEngine, events);
    var k := |w.flows|;
    var v := Next(w, Attach(generation, true));
    assert Serves(v, k, generation);
    hide Run, Next;
    StillServes(v, later, k, generation);
    ServingAdmits(Run(v, later), k, generation);
  }

  /** Attach is refused, without effect, exactly by a busy or stopped engine, one whose last attempt was not let go, and for an invalid attempt. */
  lemma AttachRefused(w: Engine, generation: nat, valid: bool)
    ensures (Next(w, Attach(generation, valid)) == w) <==> w.pc != Idle || w.stopped || w.proxy.Some? || !valid
  {
    if !(w.pc != Idle || w.stopped || w.proxy.Some? || !valid) {
      assert |Next(w, Attach(generation, valid)).flows| == |w.flows| + 1;
    }
  }

  /**
   Detach lets its attempt go exactly if the wait reports that nothing is left; then
   the next valid Attach installs another attempt. If something is left, the
   attempt stays and Attach is refused.
   */
  lemma DetachMakesRoom(events: seq<Event>, k: nat, timedOut: bool, generation: nat)
    requires var w := Run(NewEngine, events);
      w.pc == Detaching && k < |w.flows| && w.proxy == Some(k) && F.WaitReturnsNow(w.flows[k], timedOut)
    ensures var w := Run(NewEngine, events); var v := Next(w, Flow(k, F.WaitReturns(timedOut))); var u := Next(v, Attach(generation, true));
      if w.flows[k].o.connections == map[] || w.flows[k].reported then
        && v.pc == Idle && v.proxy == None && (!w.stopped ==> u.proxy == Some(|w.flows|) && u.attempt == generation)
        && (!w.stopped && !w.routerClosed ==> Serves(u, |w.flows|, generation))
      else v.pc == Idle && v.proxy == Some(k) && u == v
  {
    var w := Run(NewEngine, events);
    var f := w.flows[k];
    assert F.Next(f, F.WaitReturns(timedOut)).cleanup == F.NoCleanup;
    assert F.Next(f, F.WaitReturns(timedOut)).reported <==> f.reported || f.o.connections == map[];
    hide Run, F.Next;
  }

  /**
   Stop closes the router for good. It is done exactly if the packet stack stopped
   and nothing is left of the attempt; otherwise it can be called again.
   */
  lemma StopConcludes(w: Engine, k: nat, timedOut: bool)
    requires w.pc.StopWaiting? && w.proxy == Some(k) && k < |w.flows| && F.WaitReturnsNow(w.flows[k], timedOut)
    ensures var v := Next(w, Flow(k, F.WaitReturns(timedOut)));
      && v.pc == Idle && v.proxy == w.proxy
      && (v.stopped <==> !w.pc.platformFailed && (w.flows[k].o.connections == map[] || w.flows[k].reported))
      && (!v.stopped ==> Next(v, Stop).pc == StopFenced)
  {
    var f := w.flows[k];
    assert F.Next(f, F.WaitReturns(timedOut)).cleanup == F.NoCleanup;
    assert F.Next(f, F.WaitReturns(timedOut)).reported <==> f.reported || f.o.connections == map[];
    hide F.Next;
  }

  /** Without an attempt the packet stack alone decides. */
  lemma StopWithoutAttempt(w: Engine, ok: bool)
    requires w.pc == Idle && !w.stopped && w.proxy == None
    ensures var v := Next(Next(Next(w, Stop), Proceed), PlatformStops(ok));
      v.pc == Idle && v.stopped == ok && v.routerClosed && v.target == None
  {
  }

  // --------------------------------------------------------- a whole Detach

  /** The engine's events for these events of its attempt. */
  function Of(k: nat, events: seq<F.Event>): seq<Event> {
    seq(|events|, i requires 0 <= i < |events| => Flow(k, events[i]))
  }

  /** While Detach sweeps, what happens to its attempt is the sweep. */
  lemma {:induction false} SweepsWithin(w: Engine, k: nat, ts: seq<nat>)
    requires w.pc == Detaching && w.proxy == Some(k) && k < |w.flows|
    ensures Run(w, Of(k, FlowService.Sweeps(ts))) == SetFlow(w, k, FlowTheorems.Run(w.flows[k], FlowService.Sweeps(ts)))
    decreases |ts|
  {
    var f := w.flows[k];
    if ts == [] {
      assert Of(k, FlowService.Sweeps(ts)) == [] && w.flows[k := f] == w.flows;
    } else {
      var a, b := F.Sweep(ts[0], true), F.ReleaseIt(ts[0]);
      var rest := FlowService.Sweeps(ts[1..]);
      var u := Next(w, Flow(k, a));
      var v := Next(u, Flow(k, b));
      assert u == SetFlow(w, k, F.Next(f, a)) by { hide F.Next; }
      assert v == SetFlow(u, k, F.Next(F.Next(f, a), b)) by { hide F.Next; }
      FlowService.RunTwo(f, a, b, rest);
      hide F.Next, FlowTheorems.Run, FlowService.Sweeps, FlowStep;
      SweepsWithin(v, k, ts[1..]);
      assert v.flows == w.flows[k := F.Next(F.Next(f, a), b)];
      assert Of(k, [a, b] + rest) == [Flow(k, a), Flow(k, b)] + Of(k, rest);
      RunTwo(w, Flow(k, a), Flow(k, b), Of(k, rest));
    }
  }

  lemma RunTwo(w: Engine, e: Event, f: Event, events: seq<Event>)
    ensures Run(w, [e, f] + events) == Run(Next(Next(w, e), f), events)
  {
    assert ([e, f] + events)[1..] == [f] + events && ([f] + events)[1..] == events;
    hide Next;
  }

  /**
   A Detach of an attempt with no pending dial succeeds if its closes do: it visits
   every connection once, lets the attempt go, and leaves the engine ready for the next.
   */
  lemma DetachSucceeds(w: Engine, k: nat, ts: seq<nat>)
    requires Inv(w) && w.pc == Idle && !w.stopped && w.proxy == Some(k) && k < |w.flows| && !w.routerClosed
    requires w.flows[k].o.pending == 0 && w.flows[k].closing == map[] && w.flows[k].cleanup == F.NoCleanup
    requires FlowService.Lists(ts, w.flows[k].o.connections)
    ensures var u := Run(Next(Next(w, Detach(w.attempt)), Proceed), Of(k, FlowService.Sweeps(ts)));
      var v := Next(Next(u, Flow(k, F.SweepDone)), Flow(k, F.WaitReturns(false)));
      v.pc == Idle && v.proxy == None && v.target == None && |v.flows| == |w.flows| && !v.stopped && !v.routerClosed
  {
    var f := w.flows[k];
    assert FlowOk(w, k);
    var s := F.Next(f, F.SealIt);
    var d := Next(Next(w, Detach(w.attempt)), Proceed);
    assert d == SetFlow(w.(target := None), k, s).(pc := Detaching) by { hide F.SealStep, FlowInvariant.Inv; }
    hide FlowInvariant.Inv, F.Next;
    SweepsWithin(d, k, ts);
    FlowService.CleanupSucceeds(f, ts);
    var u := Run(d, Of(k, FlowService.Sweeps(ts)));
    hide Run, FlowService.Sweeps, FlowTheorems.Run;
    var x := F.Next(u.flows[k], F.SweepDone);
    assert Next(u, Flow(k, F.SweepDone)) == SetFlow(u, k, x);
  }
}
