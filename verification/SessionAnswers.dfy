/**
 When the session says yes: which calls begin an attempt, queue a switch, commit a
 configuration or lift the closing fence, and what a lost connection leads to.
 */
module SessionAnswers {
  import opened Options
  import opened SessionRecord
  import opened SessionWorld
  import opened SessionInvariant
  import T = SessionTheorems
  import S = SessionStops

  // ------------------------------------------------------------------ Start

  /** The selection can be served from this inventory, and was not made for another one. */
  predicate Serves(digest: string, count: nat, target: Target) {
    && (target.mode == AutoSelect || (target.mode == ProfileIndex && 0 <= target.index && target.index < count))
    && (target.digest == "" || target.digest == digest)
  }

  /** The caller asks for the selection that is already active, in the same inventory. */
  predicate Repeats(r: Record, target: Target) {
    && !target.replaceCurrent && target.mode == r.activeTarget.mode
    && (target.mode == ProfileIndex ==> target.index == r.activeTarget.index)
    && (target.digest == "" || target.digest == r.activeDigest)
  }

  /** The attempt this call has launched, if any. */
  function Launched(w: World, v: World): Option<Worker> {
    if |v.workers| > |w.workers| then Some(v.workers[|w.workers|]) else None
  }

  /**
   Start launches an attempt exactly if the caller has seen the latest state of a
   configured session that is not closing, and either everything has been released
   and the selection fits, or protection stayed up after a failure and the caller
   repeats the selection. The first takes a new network, the second keeps it.
   */
  lemma StartLaunches(w: World, expected: nat, target: Target, supplied: bool, saveErr: bool)
    requires Inv(w)
    ensures var v := Next(w, StartCalled(expected, target, supplied, saveErr)); var r := w.r;
      && (Launched(w, v).Some? <==>
            r.sequence == expected && r.configured && !r.closing &&
            if Retries(r) then !supplied && Repeats(r, target)
            else r.cleanupDone && Serves(r.digest, |r.profiles|, target) && !saveErr)
      && (Launched(w, v).Some? ==>
            v.workers == w.workers + [Worker(r.generation + 1, r.generation + 1, target, NetCheck)] && Begun(r, v.r, target))
  {
    assert RecordOk(w.r);
    StartBegins(w.r, expected, target, supplied, saveErr);
    hide Inv, Allocate, Start, Begun, RecordOk, Serves, Repeats, Retries;
  }

  /** Protection stayed up after a failure. */
  predicate Retries(r: Record) { r.state == Failed && !r.cleanupDone && !r.cleanupFailed && !r.closing }

  /** A new attempt: of the old selection inside the old network, or of the new one in a new network. */
  predicate Begun(r: Record, v: Record, target: Target) {
    && v.state == Probing && v.generation == r.generation + 1 && !v.stopRequested && v.recoveryCount == 0
    && (if Retries(r) then
          v.vpnActive && v.networkGeneration == r.networkGeneration && v.activeTarget == r.activeTarget
          && v.activeProfiles == r.activeProfiles && v.activeDigest == r.activeDigest
        else
          !v.vpnActive && v.networkGeneration == r.networkGeneration + 1 && v.activeTarget == target
          && v.activeProfiles == r.profiles && v.activeDigest == r.digest)
  }

  lemma StartBegins(r: Record, expected: nat, target: Target, supplied: bool, saveErr: bool)
    requires RecordOk(r)
    ensures var o := Start(r, expected, target, supplied, saveErr);
      && (o.go.GoStart? <==>
            r.sequence == expected && r.configured && !r.closing &&
            if Retries(r) then !supplied && Repeats(r, target)
            else r.cleanupDone && Serves(r.digest, |r.profiles|, target) && !saveErr)
      && (o.go.GoStart? ==> o.go == GoStart(r.generation + 1, r.generation + 1, target) && Begun(r, o.rec, target))
      && !o.go.GoFinish?
  {
  }

  /**
   Start queues a switch exactly if the caller has seen the latest state, asks to
   replace what is connected, and the selection fits; the running attempt is then
   stopped, with protection kept.
   */
  lemma StartSwitches(networkRuntime: bool, events: seq<Event>, expected: nat, target: Target, supplied: bool, saveErr: bool)
    ensures var w := Run(Init(networkRuntime), events);
      var v := Next(w, StartCalled(expected, target, supplied, saveErr)); var r := w.r;
      && (r.pending == None && v.r.pending.Some? <==>
            r.sequence == expected && r.configured && !r.closing && r.state == Connected &&
            target.replaceCurrent && Serves(r.digest, |r.profiles|, target) && !saveErr)
      && (r.pending == None && v.r.pending.Some? ==>
            && v.r.pending == Some(Pending(target, r.profiles, r.digest))
            && v.r.state == Stopping && v.r.vpnActive && v.workers == w.workers
            && r.cancel.Some? && r.cancel.value in v.cancelled)
  {
    InitInv(networkRuntime);
    S.RunRemembers(S.Nothing, Init(networkRuntime), events);
    var w := Run(Init(networkRuntime), events);
    assert RecordOk(w.r) && (w.r.state == Connected ==> !w.r.recovering);
    hide Inv, Run, S.Watch;
    SwitchQueued(w, expected, target, supplied, saveErr);
  }

  lemma SwitchQueued(w: World, expected: nat, target: Target, supplied: bool, saveErr: bool)
    requires RecordOk(w.r) && (w.r.state == Connected ==> !w.r.recovering)
    ensures var v := Next(w, StartCalled(expected, target, supplied, saveErr)); var r := w.r;
      && (r.pending == None && v.r.pending.Some? <==>
            r.sequence == expected && r.configured && !r.closing && r.state == Connected &&
            target.replaceCurrent && Serves(r.digest, |r.profiles|, target) && !saveErr)
      && (r.pending == None && v.r.pending.Some? ==>
            && v.r.pending == Some(Pending(target, r.profiles, r.digest))
            && v.r.state == Stopping && v.r.vpnActive && v.workers == w.workers
            && r.cancel.Some? && r.cancel.value in v.cancelled)
  {
    hide Allocate;
  }

  // -------------------------------------------------------------- Configure

  /** Nothing failed to be released, and no shutdown is under way. */
  predicate TakesConfiguration(r: Record) { !r.cleanupFailed && (r.closing ==> r.cleanupDone) }

  /** A configuration is admitted exactly if the caller has seen the latest state; it then supersedes all before it. */
  lemma ConfigureAdmitted(w: World, expected: nat, ctxErr: bool)
    ensures var v := Next(w, ConfigureBegin(expected, ctxErr));
      if w.r.sequence == expected && !ctxErr && TakesConfiguration(w.r) then
        v == w.(r := w.r.(configureRequest := w.r.configureRequest + 1), loading := w.loading + {w.r.configureRequest + 1}, ledgers := v.ledgers)
      else v == w
  {
    hide Allocate;
  }

  /**
   A loaded configuration is committed exactly if no later one has been admitted.
   What runs keeps its own; a settled session forgets its last selection.
   */
  lemma ConfigureCommitted(w: World, request: nat, loaded: Inventory, ctxErr: bool, storeErr: bool)
    requires Inv(w) && request in w.loading
    ensures var v := Next(w, ConfigureEnd(request, loaded, ctxErr, storeErr)); var r := w.r;
      if request == r.configureRequest && !ctxErr && !storeErr && TakesConfiguration(r) then
        && v.r.configured && v.r.digest == loaded.digest && v.r.profiles == loaded.profiles && loaded in v.committed
        && v.r.sequence == r.sequence + 1 && v.workers == w.workers && v.cancelled == w.cancelled
        && (if r.cleanupDone then v.r.state == Configured && v.r.activeProfiles == [] && v.r.lastFailure == NoError
            else v.r.state == r.state && v.r.activeProfiles == r.activeProfiles && v.r.activeTarget == r.activeTarget &&
                 v.r.activeDigest == r.activeDigest && v.r.pending == r.pending && v.r.restartAfterCleanup == r.restartAfterCleanup)
      else v.r == r
  {
    assert RecordOk(w.r);
    hide Inv, Allocate;
  }

  // --------------------------------------------------------------- shutdown

  /** Resume lifts the closing fence exactly if everything has been released. */
  lemma ResumeLifts(w: World)
    requires Inv(w)
    ensures var v := Next(w, ResumeCalled);
      v.r.closing == (w.r.closing && !w.r.cleanupDone) && v.workers == w.workers && v.r.state == w.r.state
  {
    assert RecordOk(w.r);
    hide Inv, Allocate;
  }

  /** StopAndWait puts a worker on whatever is still to be released, and queues nothing after it. */
  lemma StopAndWaitTakes(w: World)
    requires Inv(w)
    ensures var v := Next(w, StopAndWaitCalled); var r := w.r;
      && v.r.closing && v.r.stopRequested && v.r.pending == None && !v.r.restartAfterCleanup
      && (!r.cleanupDone && !r.cleanupFailed ==>
            v.r.state == Stopping && |v.workers| == 1 && (r.cancel.Some? ==> r.cancel.value in v.cancelled))
  {
    assert RecordOk(w.r) && |w.workers| == if AttemptActive(w.r.state) then 1 else 0;
    hide Inv, Allocate;
  }

  // --------------------------------------------------------- lost connections

  /** The worker reports that the connection was lost. */
  predicate Loses(w: World, e: Event) { e.Work? && e.i < |w.workers| && w.r.state == Connected && Next(w, e).r.state == Stopping }

  /** A user Start or Retry, or a switch taking over. */
  predicate Renews(w: World, e: Event) {
    var v := Next(w, e);
    || (e.StartCalled? && |v.workers| > |w.workers|)
    || (e.Work? && w.r.pending.Some? && v.r.pending == None && |v.workers| == 1 && v.workers[0].pc.NetCheck?)
  }

  /** Connections lost since the user last asked for one, or since one that was stable. */
  function Losses(n: nat, w: World, e: Event): nat {
    if Renews(w, e) then 0
    else if Loses(w, e) then (if WasStable(w.r, e.answer.now) then 1 else n + 1)
    else n
  }

  function CountLosses(n: nat, w: World, events: seq<Event>): nat
    decreases |events|
  {
    if events == [] then n else CountLosses(Losses(n, w, events[0]), Next(w, events[0]), events[1..])
  }

  predicate Counts(n: nat, r: Record) {
    !r.cleanupDone ==> r.recoveryCount == if n <= AUTO_RECOVERY_LIMIT then n else AUTO_RECOVERY_LIMIT
  }

  lemma CallCounts(n: nat, w: World, e: Event)
    requires Inv(w) && Counts(n, w.r) && !e.Work?
    ensures Counts(Losses(n, w, e), Next(w, e).r)
  {
    var o := T.CallIs(w, e);
    assert RecordOk(w.r);
    StartLaunchesAttempt(w, e);
    hide Inv, Next, CallEffect;
    CallKeepsCount(w, e, o);
  }

  lemma StartLaunchesAttempt(w: World, e: Event)
    ensures e.StartCalled? && |Next(w, e).workers| > |w.workers| ==> Next(w, e).workers[|w.workers|].pc.NetCheck?
  {
    hide Allocate, WorkStep;
  }

  lemma CallKeepsCount(w: World, e: Event, o: Out)
    requires T.CallRuns(w, e, o) && !e.Work?
    requires e.StartCalled? && |Next(w, e).workers| > |w.workers| ==> Next(w, e).workers[|w.workers|].pc.NetCheck?
    ensures var v := Next(w, e);
      if Renews(w, e) then v.r.recoveryCount == 0
      else v.r.cleanupDone == w.r.cleanupDone && (!w.r.cleanupDone ==> v.r.recoveryCount == w.r.recoveryCount)
  {
    hide Next, RecordOk, LeavesAttempt, Allocate;
  }

  /** Apart from the last section of finish and a lost connection, no step of a worker touches the count. */
  lemma MoveCounts(w: World, a: Answer)
    requires Inv(w) && |w.workers| == 1 && !w.workers[0].pc.FinEnd? && !w.workers[0].pc.Reporting?
    ensures var v := WorkStep(w, 0, a);
      && v.r.recoveryCount == w.r.recoveryCount && v.r.cleanupDone == w.r.cleanupDone && v.r.pending == w.r.pending
      && (w.r.state == Connected ==> v.r.state == Connected)
  {
    assert WorkerOk(w, w.workers[0]);
    var pc := w.workers[0].pc;
    hide Inv, Closers, RunsAttempt, Slice, CallOf;
    if pc.Candidate? || pc.Announce? || pc.Connecting? || pc.NetActivate? {
    } else {
      S.SameRecord(w, a);
      hide WorkStep;
    }
  }

  lemma LossCounts(n: nat, w: World, a: Answer)
    requires Inv(w) && Counts(n, w.r) && |w.workers| == 1 && w.workers[0].pc.Reporting?
    ensures Counts(Losses(n, w, Work(0, a)), Next(w, Work(0, a)).r)
  {
    assert WorkerOk(w, w.workers[0]) && RecordOk(w.r) && AttemptActive(w.r.state);
    var v := Next(w, Work(0, a));
    assert v.r == ReportHealthFailure(w.r, w.r.generation, a.now).rec by {
      hide ReportHealthFailure, Allocate, Launch, RecordOk;
    }
    assert v.r.pending == w.r.pending;
    hide Inv, Next, WorkerOk;
  }

  lemma EndCounts(n: nat, w: World, a: Answer)
    requires Inv(w) && Counts(n, w.r) && |w.workers| == 1 && w.workers[0].pc.FinEnd?
    ensures Counts(Losses(n, w, Work(0, a)), Next(w, Work(0, a)).r)
  {
    var pc := w.workers[0].pc;
    assert WorkerOk(w, w.workers[0]) && RecordOk(w.r) && AttemptActive(w.r.state);
    FinishEndEffect(w.r, pc.cause, pc.releaseNetwork, pc.cleanupErr);
    var o := FinishEnd(w.r, w.r.generation, pc.cause, pc.releaseNetwork, pc.cleanupErr);
    var v := Next(w, Work(0, a));
    assert v.workers == Launch([], o.go) && v.r == o.rec by {
      hide FinishEnd, RecordOk, EndEffect;
    }
    hide Inv, Next, FinishEnd, WorkerOk;
  }

  lemma StepCounts(n: nat, w: World, e: Event)
    requires Inv(w) && Counts(n, w.r)
    ensures Counts(Losses(n, w, e), Next(w, e).r)
  {
    if !e.Work? {
      CallCounts(n, w, e);
    } else if e.i < |w.workers| {
      Solo(w, e.i);
      assert e == Work(0, e.answer);
      if w.workers[0].pc.FinEnd? {
        EndCounts(n, w, e.answer);
      } else if w.workers[0].pc.Reporting? {
        LossCounts(n, w, e.answer);
      } else {
        MoveCounts(w, e.answer);
        assert Next(w, e) == WorkStep(w, 0, e.answer) by { hide WorkStep, Inv; }
        hide Next, Inv, WorkStep;
      }
    } else {
      hide Inv;
    }
  }

  lemma {:induction false} RunCounts(n: nat, w: World, events: seq<Event>)
    requires Inv(w) && Counts(n, w.r)
    ensures Inv(Run(w, events)) && Counts(CountLosses(n, w, events), Run(w, events).r)
    decreases |events|
  {
    if events != [] {
      StepInv(w, events[0]);
      StepCounts(n, w, events[0]);
      hide Inv, Next, Losses, Counts;
      RunCounts(Losses(n, w, events[0]), Next(w, events[0]), events[1..]);
    }
  }

  /**
   A lost connection is recovered exactly if it is one of the first three since the
   user last asked for a connection, or since one that was stable; otherwise the
   loss is what the session will report. Either way the attempt is cancelled and
   protection kept.
   */
  lemma LossRecovers(networkRuntime: bool, events: seq<Event>, e: Event)
    ensures var w := Run(Init(networkRuntime), events); var v := Next(w, e);
      Loses(w, e) ==>
        && (v.r.restartAfterCleanup <==> Losses(CountLosses(0, Init(networkRuntime), events), w, e) <= AUTO_RECOVERY_LIMIT)
        && (v.r.recovering <==> v.r.restartAfterCleanup) && (!v.r.restartAfterCleanup ==> v.r.failureAfterCleanup == Ordinary)
        && v.r.vpnActive && v.workers != [] && v.workers[0].ctx in v.cancelled
  {
    InitInv(networkRuntime);
    RunCounts(0, Init(networkRuntime), events);
    S.RunRemembers(S.Nothing, Init(networkRuntime), events);
    var w, n := Run(Init(networkRuntime), events), CountLosses(0, Init(networkRuntime), events);
    hide Run, CountLosses, S.Watch;
    if Loses(w, e) {
      Solo(w, e.i);
      assert WorkerOk(w, w.workers[0]) && RecordOk(w.r);
      assert !w.r.recovering && e == Work(0, e.answer);
      LossIsReported(w, e.answer);
      hide Inv;
      LossDecides(n, w, e.answer);
    }
  }

  lemma LossIsReported(w: World, a: Answer)
    requires Inv(w) && |w.workers| == 1 && Loses(w, Work(0, a))
    ensures w.workers[0].pc.Reporting?
  {
    assert WorkerOk(w, w.workers[0]);
    if !w.workers[0].pc.Reporting? && !w.workers[0].pc.FinEnd? {
      MoveCounts(w, a);
    }
    hide Inv;
  }

  lemma LossDecides(n: nat, w: World, a: Answer)
    requires |w.workers| == 1 && WorkerOk(w, w.workers[0]) && RecordOk(w.r) && w.workers[0].pc.Reporting?
    requires w.r.state == Connected && !w.r.recovering && Counts(n, w.r)
    ensures var e := Work(0, a); var v := Next(w, e);
      && (v.r.restartAfterCleanup <==> Losses(n, w, e) <= AUTO_RECOVERY_LIMIT)
      && (v.r.recovering <==> v.r.restartAfterCleanup) && (!v.r.restartAfterCleanup ==> v.r.failureAfterCleanup == Ordinary)
      && v.r.vpnActive && v.workers != [] && v.workers[0].ctx in v.cancelled
  {
    var v := Next(w, Work(0, a));
    assert |v.workers| == 1 && v.workers[0].pc.FinLock? && v.workers[0].ctx == w.workers[0].ctx;
    assert v.r.pending == w.r.pending;
    assert !Renews(w, Work(0, a)) && Loses(w, Work(0, a));
    hide Closers, Allocate;
  }

  // ------------------------------------------------------------- what follows

  /**
   When the resources of an attempt have been released, what was queued begins in
   the same network: exactly if a switch or a recovery is queued, nothing failed to
   be released and no stop has come. A switch brings its own selection.
   */
  lemma QueuedAttemptBegins(w: World, a: Answer)
    requires Inv(w) && |w.workers| == 1 && w.workers[0].pc.FinEnd?
    ensures var v := WorkStep(w, 0, a); var r := w.r; var pc := w.workers[0].pc;
      var begins := !r.stopRequested && !pc.cleanupErr && pc.cause != CleanupError && (r.pending.Some? || r.restartAfterCleanup);
      && (|v.workers| == 1 && v.workers[0].pc.NetCheck? <==> begins)
      && (begins ==>
            var g := r.generation + 1; var target := if r.pending.Some? then r.pending.value.target else r.activeTarget;
            && v.workers == [Worker(g, g, target, NetCheck)] && v.r.generation == g && v.r.state == Probing && v.r.activeTarget == target
            && v.r.vpnActive && v.r.networkGeneration == r.networkGeneration && v.r.pending == None && !v.r.restartAfterCleanup
            && (if r.pending.Some? then v.r.activeProfiles == r.pending.value.profiles && v.r.activeDigest == r.pending.value.digest
                else v.r.activeProfiles == r.activeProfiles && v.r.activeDigest == r.activeDigest))
  {
    var pc := w.workers[0].pc;
    assert WorkerOk(w, w.workers[0]) && RecordOk(w.r) && AttemptActive(w.r.state);
    T.EndStepIs(w, a);
    hide Inv, WorkStep, HeapOk;
    QueuedRecord(w.r, pc.cause, pc.releaseNetwork, pc.cleanupErr);
    hide FinishEnd, RecordOk;
  }

  lemma QueuedRecord(r: Record, cause: Cause, releaseNetwork: bool, cleanupErr: bool)
    requires RecordOk(r) && AttemptActive(r.state) && r.state != Connected
    requires if releaseNetwork then ReleasesNetwork(r) else r.vpnActive
    ensures var o := FinishEnd(r, r.generation, cause, releaseNetwork, cleanupErr);
      var begins := !r.stopRequested && !cleanupErr && cause != CleanupError && (r.pending.Some? || r.restartAfterCleanup);
      && (o.go.GoStart? <==> begins)
      && (begins ==>
            var g := r.generation + 1; var target := if r.pending.Some? then r.pending.value.target else r.activeTarget;
            && o.go == GoStart(g, g, target) && o.rec.generation == g && o.rec.state == Probing && o.rec.activeTarget == target
            && o.rec.vpnActive && o.rec.networkGeneration == r.networkGeneration && o.rec.pending == None && !o.rec.restartAfterCleanup
            && (if r.pending.Some? then o.rec.activeProfiles == r.pending.value.profiles && o.rec.activeDigest == r.pending.value.digest
                else o.rec.activeProfiles == r.activeProfiles && o.rec.activeDigest == r.activeDigest))
  {
  }

  /** An attempt that nothing follows leaves a failure behind, with the VPN protecting; a stopped one leaves an idle session. */
  lemma NothingQueued(w: World, a: Answer)
    requires Inv(w) && |w.workers| == 1 && w.workers[0].pc.FinEnd?
    ensures var v := WorkStep(w, 0, a); var r := w.r; var pc := w.workers[0].pc;
      !pc.cleanupErr && pc.cause != CleanupError && v.workers == [] ==>
        && (r.stopRequested ==> v.r.state == Idle && v.r.cleanupDone)
        && (!r.stopRequested ==>
              && v.r.state == Failed && v.r.vpnActive == r.vpnActive && v.r.cleanupDone == !r.vpnActive && v.r.lastFailure != NoError
              && (r.failureAfterCleanup != NoError ==> v.r.lastFailure == r.failureAfterCleanup))
  {
    var pc := w.workers[0].pc;
    assert WorkerOk(w, w.workers[0]) && RecordOk(w.r) && AttemptActive(w.r.state);
    T.EndStepIs(w, a);
    hide Inv, WorkStep, HeapOk;
  }
}
