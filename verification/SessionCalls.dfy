/**
 What a session asks of its runtime and its platform: every candidate under a
 generation of its own, a network before protection is announced, and an end to
 every connection that was lost or given up.
 */
module SessionCalls {
  import opened Options
  import opened SessionRecord
  import opened SessionWorld
  import opened SessionInvariant
  import T = SessionTheorems
  import S = SessionStops

  // ------------------------------------------------------------ generations

  predicate Rising(calls: seq<StartCall>) { forall i, j :: 0 <= i < j < |calls| ==> calls[i].generation < calls[j].generation }

  predicate UpTo(calls: seq<StartCall>, generation: nat) { forall i :: 0 <= i < |calls| ==> calls[i].generation <= generation }

  predicate Below(calls: seq<StartCall>, generation: nat) { forall i :: 0 <= i < |calls| ==> calls[i].generation < generation }

  /** The worker's generation is still unused. */
  predicate Unused(pc: Pc) {
    pc.NetCheck? || BeforeActivation(pc) || pc.NetContext? || pc.Snapshot? || (pc.Candidate? && pc.index == 0) || pc.Announce?
  }

  predicate Numbered(w: World) {
    && Rising(w.starts) && UpTo(w.starts, w.r.generation)
    && (|w.workers| == 1 && Unused(w.workers[0].pc) ==> Below(w.starts, w.r.generation))
  }

  lemma CallNumbered(w: World, e: Event)
    requires Inv(w) && Numbered(w) && !e.Work?
    ensures Numbered(Next(w, e))
  {
    var o := T.CallIs(w, e);
    CallHistory(w, e);
    assert |w.workers| == if AttemptActive(w.r.state) then 1 else 0;
    hide Inv, Next, Rising, RecordOk, Numbered, UpTo, Below, Unused;
    CallGeneration(w, e, o);
    UpToMore(w.starts, w.r.generation);
    hide T.CallRuns;
    assert Numbered(Next(w, e)) by { hide AttemptActive; }
  }

  /** A call leaves the running attempt its generation, or takes the next one, or launches a worker that starts nothing. */
  lemma CallGeneration(w: World, e: Event, o: Out)
    requires T.CallRuns(w, e, o) && |w.workers| == if AttemptActive(w.r.state) then 1 else 0
    ensures var v := Next(w, e);
      || (v.r.generation == w.r.generation && (v.workers == w.workers || |v.workers| != 1 || !Unused(v.workers[0].pc)))
      || v.r.generation == w.r.generation + 1
  {
    hide Next, RecordOk, KeepsBudget, KeepsFences;
  }

  lemma WorkNumbered(w: World, a: Answer)
    requires Inv(w) && Numbered(w) && |w.workers| == 1 && !w.workers[0].pc.FinEnd? && !w.workers[0].pc.Announce?
    ensures Numbered(WorkStep(w, 0, a))
  {
    assert WorkerOk(w, w.workers[0]);
    T.OnlyAnnounceStarts(w, 0, a);
    hide Inv, Rising, Slice, RunsAttempt, Closers, PrepareHealthRecovery, UpTo, Below;
    MoveGeneration(w, a);
    hide WorkStep;
    UpToMore(w.starts, w.r.generation);
  }

  lemma UpToMore(calls: seq<StartCall>, generation: nat)
    requires UpTo(calls, generation)
    ensures UpTo(calls, generation + 1) && Below(calls, generation + 1)
  {
  }

  /** Only the next candidate takes a new generation, which is then unused. */
  lemma MoveGeneration(w: World, a: Answer)
    requires |w.workers| == 1 && !w.workers[0].pc.FinEnd? && !w.workers[0].pc.Announce?
    ensures var v := WorkStep(w, 0, a);
      && (v.r.generation == w.r.generation || v.r.generation == w.r.generation + 1)
      && (|v.workers| == 1 && Unused(v.workers[0].pc) ==> Unused(w.workers[0].pc) || v.r.generation == w.r.generation + 1)
  {
    var pc := w.workers[0].pc;
    if pc.Candidate? {
      CandidateGeneration(w, pc.profiles, pc.index);
      assert WorkStep(w, 0, a) == CandidateStep(w, 0, pc.profiles, pc.index) by { hide CandidateStep; }
      hide WorkStep, CandidateStep;
    } else {
      SameGeneration(w, a);
      UnusedStays(w, a);
      hide WorkStep;
    }
  }

  lemma CandidateGeneration(w: World, profiles: seq<Profile>, index: nat)
    requires |w.workers| == 1 && w.workers[0].pc == Candidate(profiles, index)
    ensures var v := CandidateStep(w, 0, profiles, index);
      && (v.r.generation == w.r.generation || v.r.generation == w.r.generation + 1)
      && (|v.workers| == 1 && Unused(v.workers[0].pc) ==> Unused(w.workers[0].pc) || v.r.generation == w.r.generation + 1)
  {
  }

  lemma SameGeneration(w: World, a: Answer)
    requires |w.workers| == 1
    requires var pc := w.workers[0].pc; !pc.FinEnd? && !pc.Announce? && !pc.Candidate?
    ensures WorkStep(w, 0, a).r.generation == w.r.generation
  {
    var pc := w.workers[0].pc;
    if pc.NetActivate? || pc.Connecting? || pc.Reporting? {
      hide PrepareHealthRecovery, WasStable, AttemptActive;
      if pc.Reporting? {
        ReportGeneration(w.r, w.workers[0].generation, a.now);
        hide ReportHealthFailure, Allocate, Launch;
      }
    } else {
      S.SameRecord(w, a);
      hide WorkStep;
    }
  }

  lemma ReportGeneration(r: Record, generation: nat, now: int)
    ensures var o := ReportHealthFailure(r, generation, now); o.rec.generation == r.generation && o.go == NoGo
  {
    RecoveryKeeps(r, generation, now);
    hide PrepareHealthRecovery;
  }

  lemma UnusedStays(w: World, a: Answer)
    requires |w.workers| == 1
    requires var pc := w.workers[0].pc; !pc.FinEnd? && !pc.Announce? && !pc.Candidate?
    ensures var v := WorkStep(w, 0, a); |v.workers| == 1 && Unused(v.workers[0].pc) ==> Unused(w.workers[0].pc)
  {
    var pc := w.workers[0].pc;
    hide Slice, Advance, AttemptActive, ReleasesNetwork, Allocate, Cancelled, Closers, FinishProtectedFailure, PrepareHealthRecovery;
    if pc.Reporting? {
      ReportGeneration(w.r, w.workers[0].generation, a.now);
      hide ReportHealthFailure, WasStable;
    } else if pc.FinLock? || pc.FinAttempt? || pc.FinDecide? || pc.FinNetwork? {
      hide ReportHealthFailure, CandidateStep;
    } else {
      hide ReportHealthFailure, FinDecideStep, FinLockStep, FinAttemptStep, FinNetworkStep;
    }
  }

  lemma AnnounceNumbered(w: World, a: Answer)
    requires Inv(w) && Numbered(w) && |w.workers| == 1 && w.workers[0].pc.Announce?
    ensures Numbered(WorkStep(w, 0, a))
  {
    assert WorkerOk(w, w.workers[0]);
    var v := WorkStep(w, 0, a);
    assert v.r.generation == w.r.generation;
    assert v.starts == w.starts || (|v.starts| == |w.starts| + 1 && v.starts[..|w.starts|] == w.starts && v.starts[|w.starts|].generation == w.r.generation);
    assert forall i :: 0 <= i < |w.starts| ==> v.starts[i] == w.starts[i];
    hide Inv, WorkStep, RunsAttempt;
  }

  lemma EndNumbered(w: World, a: Answer)
    requires Inv(w) && Numbered(w) && |w.workers| == 1 && w.workers[0].pc.FinEnd?
    ensures Numbered(WorkStep(w, 0, a))
  {
    var pc := w.workers[0].pc;
    assert WorkerOk(w, w.workers[0]) && RecordOk(w.r) && AttemptActive(w.r.state);
    FinishEndEffect(w.r, pc.cause, pc.releaseNetwork, pc.cleanupErr);
    T.EndStepIs(w, a);
    UpToMore(w.starts, w.r.generation);
    hide Inv, WorkStep, FinishEnd, RecordOk, Rising, UpTo, Below;
  }

  lemma StepNumbered(w: World, e: Event)
    requires Inv(w) && Numbered(w)
    ensures Numbered(Next(w, e))
  {
    if !e.Work? {
      CallNumbered(w, e);
    } else if e.i < |w.workers| {
      Solo(w, e.i);
      assert Next(w, e) == WorkStep(w, 0, e.answer) by { hide WorkStep, Inv; }
      hide Next, WorkStep, Inv, Numbered;
      if w.workers[0].pc.FinEnd? {
        EndNumbered(w, e.answer);
      } else if w.workers[0].pc.Announce? {
        AnnounceNumbered(w, e.answer);
      } else {
        WorkNumbered(w, e.answer);
      }
    }
  }

  lemma {:induction false} RunNumbered(w: World, events: seq<Event>)
    requires Inv(w) && Numbered(w)
    ensures Inv(Run(w, events)) && Numbered(Run(w, events))
    decreases |events|
  {
    if events != [] {
      StepInv(w, events[0]);
      StepNumbered(w, events[0]);
      hide Inv, Next, Numbered;
      RunNumbered(Next(w, events[0]), events[1..]);
    }
  }

  /** Every call of Runtime.Start has a generation of its own, later calls later ones, and none is ahead of the session. */
  lemma CallsHaveTheirOwnGeneration(networkRuntime: bool, events: seq<Event>, i: nat, j: nat)
    ensures var w := Run(Init(networkRuntime), events);
      && (i < j < |w.starts| ==> w.starts[i].generation < w.starts[j].generation)
      && (i < |w.starts| ==> w.starts[i].generation <= w.r.generation)
  {
    InitInv(networkRuntime);
    RunNumbered(Init(networkRuntime), events);
  }

  // -------------------------------------------------------------- the network

  /** The leases that make up a network: the platform's, and the runtime's where there is one. */
  function Leases(w: World): nat { if w.networkRuntime then 2 else 1 }

  function NetworkHeld(w: World): nat { |Closers(w.ledgers, w.r.networkLedger)| }

  predicate Networked(w: World) {
    && (w.r.vpnActive && !w.r.stopRequested ==> NetworkHeld(w) == Leases(w))
    && (|w.workers| == 1 ==>
          var pc := w.workers[0].pc;
          && ((pc.NetCheck? && !w.r.vpnActive) || pc.NetTunnel? ==> NetworkHeld(w) == 0)
          && (pc.NetRuntime? ==> NetworkHeld(w) == 1 && w.networkRuntime)
          && (pc.NetActivate? ==> NetworkHeld(w) == Leases(w)))
  }

  lemma CallNetworked(w: World, e: Event)
    requires Inv(w) && Networked(w) && !e.Work?
    ensures Networked(Next(w, e))
  {
    var o := T.CallIs(w, e);
    assert RecordOk(w.r) && HeapOk(w) && |w.workers| == if AttemptActive(w.r.state) then 1 else 0;
    RuntimeStays(w, e);
    RetryIsClean(w, e);
    hide Inv, Next, RecordOk;
    CallNetwork(w, e, o);
  }

  lemma RetryIsClean(w: World, e: Event)
    ensures e.StartCalled? && w.r.vpnActive && |Next(w, e).workers| > |w.workers| && RecordOk(w.r) ==> !w.r.cleanupFailed
  {
    hide Allocate, WorkStep;
  }

  lemma CallNetwork(w: World, e: Event, o: Out)
    requires T.CallRuns(w, e, o) && RecordOk(w.r) && HeapOk(w) && Networked(w) && |w.workers| == if AttemptActive(w.r.state) then 1 else 0
    requires Next(w, e).networkRuntime == w.networkRuntime
    requires e.StartCalled? && w.r.vpnActive && |Next(w, e).workers| > |w.workers| ==> !w.r.cleanupFailed
    ensures Networked(Next(w, e))
  {
    hide Next;
    if !AttemptActive(w.r.state) && o.go.GoStart? && !w.r.vpnActive {
      assert NetworkLedger(o.rec.networkGeneration) !in w.ledgers;
    }
  }

  lemma AcquireNetworked(w: World, a: Answer)
    requires Inv(w) && Networked(w) && |w.workers| == 1
    requires var pc := w.workers[0].pc; pc.NetCheck? || pc.NetTunnel? || pc.NetRuntime? || pc.NetActivate?
    ensures Networked(WorkStep(w, 0, a))
  {
    assert WorkerOk(w, w.workers[0]) && HeapOk(w) && RecordOk(w.r) && AttemptActive(w.r.state);
    hide Inv, RecordOk, HeapOk, RunsAttempt, FinishEnd, FinishProtectedFailure, Advance, PrepareCandidate;
    hide ReportHealthFailure, PrepareHealthRecovery, Cancelled, ReleasesNetwork, Slice;
  }

  lemma OtherNetworked(w: World, a: Answer)
    requires Inv(w) && Networked(w) && |w.workers| == 1
    requires var pc := w.workers[0].pc; !pc.NetCheck? && !pc.NetTunnel? && !pc.NetRuntime? && !pc.NetActivate?
    ensures Networked(WorkStep(w, 0, a))
  {
    hide Inv, WorkStep, Next, OneStack, Promises, NetworkHeld;
    var v := WorkStep(w, 0, a);
    NextIsStep(w, a);
    StepInv(w, Work(0, a));
    NotAcquiring(w, a);
    RuntimeStays(w, Work(0, a));
    PromisesKeep(w, v);
  }

  lemma NextIsStep(w: World, a: Answer)
    requires |w.workers| == 1
    ensures Next(w, Work(0, a)) == WorkStep(w, 0, a)
  {
    hide WorkStep;
  }

  lemma PromisesKeep(w: World, v: World)
    requires Promises(w, v) && (v.r.vpnActive ==> w.r.vpnActive)
    ensures v.r.vpnActive && !v.r.stopRequested ==>
              w.r.vpnActive && !w.r.stopRequested && NetworkHeld(v) == NetworkHeld(w)
  {
    hide Closers;
  }

  /** After the network has been acquired a worker does not go back to acquiring; what it launches next finds it in place. */
  lemma NotAcquiring(w: World, a: Answer)
    requires Inv(w) && |w.workers| == 1
    requires var pc := w.workers[0].pc; !pc.NetCheck? && !pc.NetTunnel? && !pc.NetRuntime? && !pc.NetActivate?
    ensures var v := WorkStep(w, 0, a);
      && (v.r.vpnActive ==> w.r.vpnActive)
      && (|v.workers| == 1 ==>
            !v.workers[0].pc.NetTunnel? && !v.workers[0].pc.NetRuntime? && !v.workers[0].pc.NetActivate? &&
            (v.workers[0].pc.NetCheck? ==> v.r.vpnActive))
  {
    var pc := w.workers[0].pc;
    assert WorkerOk(w, w.workers[0]) && RecordOk(w.r) && AttemptActive(w.r.state);
    hide Inv, Closers, Slice, RunsAttempt, HeapOk;
    if pc.FinEnd? {
      T.EndStepIs(w, a);
      FinishEndEffect(w.r, pc.cause, pc.releaseNetwork, pc.cleanupErr);
      EndKeepsInactive(w.r, pc.cause, pc.releaseNetwork, pc.cleanupErr);
      hide WorkStep, FinishEnd, RecordOk;
    } else if pc.Reporting? {
      ReportGeneration(w.r, w.workers[0].generation, a.now);
      ReportKeepsNetwork(w.r, w.workers[0].generation, a.now);
      hide RecordOk, ReportHealthFailure, Allocate, WorkerOk;
    } else {
      WalkKeepsNetwork(w, a);
      hide WorkStep, RecordOk, WorkerOk;
    }
  }

  lemma ReportKeepsNetwork(r: Record, generation: nat, now: int)
    ensures ReportHealthFailure(r, generation, now).rec.vpnActive == r.vpnActive
  {
    RecoveryKeeps(r, generation, now);
    hide PrepareHealthRecovery;
  }

  lemma RecoveryKeeps(r: Record, generation: nat, now: int)
    ensures var s := PrepareHealthRecovery(r, generation, now); s.vpnActive == r.vpnActive && s.generation == r.generation
  {
    hide WasStable;
  }

  lemma WalkKeepsNetwork(w: World, a: Answer)
    requires |w.workers| == 1
    requires var pc := w.workers[0].pc;
      !pc.NetCheck? && !pc.NetTunnel? && !pc.NetRuntime? && !pc.NetActivate? && !pc.FinEnd? && !pc.Reporting?
    ensures var v := WorkStep(w, 0, a);
      && v.r.vpnActive == w.r.vpnActive
      && (|v.workers| == 1 ==>
            var pc := v.workers[0].pc; !pc.NetTunnel? && !pc.NetRuntime? && !pc.NetActivate? && !pc.NetCheck?)
  {
    var pc := w.workers[0].pc;
    if pc.Candidate? || pc.Announce? || pc.Connecting? {
      hide Slice, CallOf, AttemptActive;
    } else {
      S.SameRecord(w, a);
      WalkForward(w, a);
      hide WorkStep;
    }
  }

  lemma WalkForward(w: World, a: Answer)
    requires |w.workers| == 1
    requires var pc := w.workers[0].pc;
      !pc.NetCheck? && !pc.NetTunnel? && !pc.NetRuntime? && !pc.NetActivate? && !pc.FinEnd? && !pc.Reporting? &&
      !pc.Candidate? && !pc.Announce? && !pc.Connecting?
    ensures var v := WorkStep(w, 0, a);
      |v.workers| == 1 ==> var pc := v.workers[0].pc; !pc.NetTunnel? && !pc.NetRuntime? && !pc.NetActivate? && !pc.NetCheck?
  {
    var pc := w.workers[0].pc;
    if pc.FinLock? || pc.FinAttempt? || pc.FinDecide? || pc.FinNetwork? {
      hide AttemptActive, ReleasesNetwork, Cancelled;
    } else {
      hide Slice, AttemptActive, Cancelled, FinDecideStep, FinLockStep, FinAttemptStep, FinNetworkStep;
    }
  }

  lemma EndKeepsInactive(r: Record, cause: Cause, releaseNetwork: bool, cleanupErr: bool)
    ensures FinishEnd(r, r.generation, cause, releaseNetwork, cleanupErr).rec.vpnActive ==> r.vpnActive
  {
  }

  lemma StepNetworked(w: World, e: Event)
    requires Inv(w) && Networked(w)
    ensures Networked(Next(w, e))
  {
    if !e.Work? {
      CallNetworked(w, e);
    } else if e.i < |w.workers| {
      Solo(w, e.i);
      assert Next(w, e) == WorkStep(w, 0, e.answer) by { hide WorkStep, Inv; }
      var pc := w.workers[0].pc;
      hide Next, WorkStep, Inv, Networked;
      if pc.NetCheck? || pc.NetTunnel? || pc.NetRuntime? || pc.NetActivate? {
        AcquireNetworked(w, e.answer);
      } else {
        OtherNetworked(w, e.answer);
      }
    }
  }

  lemma {:induction false} RunNetworked(w: World, events: seq<Event>)
    requires Inv(w) && Networked(w)
    ensures Inv(Run(w, events)) && Networked(Run(w, events))
    decreases |events|
  {
    if events != [] {
      StepInv(w, events[0]);
      StepNetworked(w, events[0]);
      hide Inv, Next, Networked;
      RunNetworked(Next(w, events[0]), events[1..]);
    }
  }

  /**
   Whenever the VPN is announced active and no stop has been requested, the session
   holds the platform's lease and, where there is a network runtime, its lease too.
   */
  lemma ProtectionIsHeld(networkRuntime: bool, events: seq<Event>)
    ensures var w := Run(Init(networkRuntime), events);
      w.r.vpnActive && !w.r.stopRequested ==> |Closers(w.ledgers, w.r.networkLedger)| == if networkRuntime then 2 else 1
  {
    InitInv(networkRuntime);
    RunNetworked(Init(networkRuntime), events);
    SameRuntime(Init(networkRuntime), events);
  }

  lemma RuntimeStays(w: World, e: Event)
    ensures Next(w, e).networkRuntime == w.networkRuntime
  {
    hide Start, Stop, StopAndWait, ConfigureAdmit, ConfigureCommit, Resume, Launch, Allocate, WorkStep;
    if e.Work? && e.i < |w.workers| {
      WorkRuntimeStays(w, e.i, e.answer);
    }
  }

  lemma NetworkRuntimeStays(w: World, i: nat, a: Answer)
    requires i < |w.workers|
    requires var pc := w.workers[i].pc;
      pc.NetCheck? || pc.NetTunnel? || pc.NetRuntime? || pc.NetActivate? || pc.NetContext? || pc.Snapshot?
    ensures WorkStep(w, i, a).networkRuntime == w.networkRuntime
  {
    hide Slice, ActivateNetwork, Cancelled;
  }

  lemma WalkRuntimeStays(w: World, i: nat, a: Answer)
    requires i < |w.workers|
    requires var pc := w.workers[i].pc; pc.Candidate? || pc.Announce? || pc.InStart? || pc.Started? || pc.Retired?
    ensures WorkStep(w, i, a).networkRuntime == w.networkRuntime
  {
    hide CallOf, Advance, PrepareCandidate, Cancelled;
  }

  lemma ConnectionRuntimeStays(w: World, i: nat, a: Answer)
    requires i < |w.workers|
    requires var pc := w.workers[i].pc; pc.Connecting? || pc.Waiting? || pc.Reporting? || pc.Releasing?
    ensures WorkStep(w, i, a).networkRuntime == w.networkRuntime
  {
    hide Advance, ReportHealthFailure, Launch, Allocate, WasStable, Cancelled;
  }

  lemma FinishRuntimeStays(w: World, i: nat, a: Answer)
    requires i < |w.workers| && !StartPhase(w.workers[i].pc)
    ensures WorkStep(w, i, a).networkRuntime == w.networkRuntime
  {
    hide FinishEnd, Launch, Allocate, AttemptActive, ReleasesNetwork;
  }

  lemma WorkRuntimeStays(w: World, i: nat, a: Answer)
    requires i < |w.workers|
    ensures WorkStep(w, i, a).networkRuntime == w.networkRuntime
  {
    var pc := w.workers[i].pc;
    hide WorkStep;
    if !StartPhase(pc) {
      FinishRuntimeStays(w, i, a);
    } else if pc.Candidate? || pc.Announce? || pc.InStart? || pc.Started? || pc.Retired? {
      WalkRuntimeStays(w, i, a);
    } else if pc.Connecting? || pc.Waiting? || pc.Reporting? || pc.Releasing? {
      ConnectionRuntimeStays(w, i, a);
    } else {
      NetworkRuntimeStays(w, i, a);
    }
  }

  lemma {:induction false} SameRuntime(w: World, events: seq<Event>)
    ensures Run(w, events).networkRuntime == w.networkRuntime
    decreases |events|
  {
    if events != [] {
      RuntimeStays(w, events[0]);
      hide Next;
      SameRuntime(Next(w, events[0]), events[1..]);
    }
  }

  // ------------------------------------------------------- ends of connections

  /** A health failure takes a connection down: it is reported, the attempt is cancelled, and the worker goes on to finish. */
  lemma HealthFailureEnds(w: World, a: Answer, b: Answer)
    requires Inv(w) && |w.workers| == 1 && w.workers[0].pc.Waiting? && w.r.state == Connected && a.health
    ensures var v := Next(Next(w, Work(0, a)), Work(0, b));
      |v.workers| == 1 && v.workers[0].pc == FinLock(NoError) && v.r.state == Stopping && w.workers[0].ctx in v.cancelled
  {
    assert WorkerOk(w, w.workers[0]) && RecordOk(w.r);
    var u := Next(w, Work(0, a));
    assert u == Goto(w, 0, Reporting);
    hide Inv, HeapOk, Closers, PrepareHealthRecovery;
  }

  /** A worker whose connection was stopped or is being replaced does not wait on it any longer. */
  lemma GivenUpConnectionEnds(w: World, a: Answer)
    requires Inv(w) && |w.workers| == 1 && w.workers[0].pc.Waiting? && w.r.state == Stopping
    ensures var v := Next(w, Work(0, a)); |v.workers| == 1 && !v.workers[0].pc.Waiting?
  {
    assert WorkerOk(w, w.workers[0]);
    hide Inv, HeapOk, Closers;
  }

  /** A connection that nothing ends is left alone. */
  lemma HealthyConnectionStays(w: World, a: Answer)
    requires Inv(w) && |w.workers| == 1 && w.workers[0].pc.Waiting? && w.r.state == Connected && !a.health
    ensures Next(w, Work(0, a)) == w
  {
    assert WorkerOk(w, w.workers[0]);
    hide Inv, HeapOk, Closers;
  }
}
