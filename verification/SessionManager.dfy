/**
 The session object and its ledgers as the source updates them: fields assigned
 under the lock, in the source's order. Every critical section is proved to have
 exactly the effect its specification function in SessionRecord gives, so what
 SessionTheorems proves about those functions holds of these methods.
 */
module SessionManager {
  import opened Options
  import opened SessionRecord

  /** Closers of one owner, last acquired last. */
  class Ledger {
    var closers: seq<nat>

    constructor ()
      ensures closers == []
    {
      closers := [];
    }

    method Push(closer: nat)
      modifies this
      ensures closers == old(closers) + [closer]
    {
      closers := closers + [closer];
    }

    /**
     Runs closers last first until one fails. `failing` are the closers that
     would fail if run now. What remains is the shortest prefix that still ends
     in a failing closer; everything after it was released, in reverse order.
     */
    method Release(failing: set<nat>) returns (failed: bool, released: seq<nat>)
      modifies this
      ensures closers <= old(closers)
      ensures failed <==> closers != []
      ensures failed ==> closers[|closers| - 1] in failing
      ensures |released| == |old(closers)| - |closers|
      ensures forall k :: 0 <= k < |released| ==>
                released[k] == old(closers)[|old(closers)| - 1 - k] && released[k] !in failing
    {
      released := [];
      while |closers| > 0
        invariant closers <= old(closers)
        invariant |released| == |old(closers)| - |closers|
        invariant forall k :: 0 <= k < |released| ==>
                    released[k] == old(closers)[|old(closers)| - 1 - k] && released[k] !in failing
      {
        var i := |closers| - 1;
        if closers[i] in failing {
          return true, released;
        }
        released := released + [closers[i]];
        closers := closers[..i];
      }
      failed := false;
    }
  }

  datatype Network = Network(generation: nat, ledger: Option<LedgerId>, active: bool)
  datatype Loaded = Loaded(configured: bool, digest: string, profiles: seq<Profile>, request: nat)
  datatype Selection = Selection(profiles: seq<Profile>, digest: string, target: Target)
  datatype Origins = Origins(start: nat, switch: nat, recovery: nat)
  datatype Attempt = Attempt(cancel: Option<nat>, ledger: Option<LedgerId>)
  datatype Recovery = Recovery(active: bool, restart: bool, failure: Cause, count: nat, connectedAt: Option<int>)

  datatype Fences = Fences(closing: bool, stopRequested: bool)
  datatype Progress = Progress(state: State, generation: nat, sequence: nat)
  datatype Cleanup = Cleanup(done: bool, failed: bool, lastFailure: Cause)

  /** The session record. The source's fields are grouped into values by what they describe. */
  class Session {
    var fences: Fences
    var progress: Progress
    var cleanup: Cleanup
    var pending: Option<Pending>
    var network: Network
    var loaded: Loaded
    var selected: Selection
    var origins: Origins
    var attempt: Attempt
    var recovery: Recovery

    /** The whole state of the session as one value. */
    function View(): Record
      reads this
    {
      Record(fences.closing, network.generation, network.ledger, network.active, fences.stopRequested,
             origins.start, progress.state, progress.generation, loaded.configured, loaded.digest, loaded.profiles,
             origins.switch, loaded.request, selected.profiles, selected.digest, pending, cleanup.lastFailure,
             cleanup.done, cleanup.failed, attempt.cancel, attempt.ledger, selected.target, recovery.restart,
             recovery.failure, recovery.active, origins.recovery, recovery.count, recovery.connectedAt,
             progress.sequence)
    }

    constructor ()
      ensures View() == InitialRecord
    {
      fences, progress, cleanup, pending := Fences(false, false), Progress(Idle, 0, 1), Cleanup(true, false, NoError), None;
      network, loaded := Network(0, None, false), Loaded(false, "", [], 0);
      selected, origins := Selection([], "", NoTarget), Origins(0, 0, 0);
      attempt, recovery := Attempt(None, None), Recovery(false, false, NoError, 0, None);
    }

    /** appendLocked: every observable change takes the next sequence number. */
    method EnterLocked(state: State)
      modifies this`progress
      ensures progress == old(progress).(state := state, sequence := old(progress).sequence + 1)
    {
      progress := progress.(state := state, sequence := progress.sequence + 1);
    }

    method AdmitConfigure(expected: nat, ctxErr: bool) returns (accepted: bool, request: nat)
      modifies this`loaded
      ensures var out := ConfigureAdmit(old(View()), expected, ctxErr);
        View() == out.rec && accepted == out.accepted && request == loaded.request
    {
      accepted := progress.sequence == expected && !(cleanup.failed || (fences.closing && !cleanup.done)) && !ctxErr;
      if accepted {
        loaded := loaded.(request := loaded.request + 1);
      }
      request := loaded.request;
    }

    method CommitConfigure(request: nat, inventory: Inventory, ctxErr: bool, storeErr: bool) returns (accepted: bool)
      modifies this
      ensures var out := ConfigureCommit(old(View()), request, inventory, ctxErr, storeErr);
        View() == out.rec && accepted == out.accepted
    {
      if loaded.request != request || ctxErr || cleanup.failed || (fences.closing && !cleanup.done) || storeErr {
        return false;
      }
      loaded := loaded.(profiles := inventory.profiles, digest := inventory.digest, configured := true);
      accepted := true;
      if cleanup.done && !cleanup.failed && !recovery.active && pending == None {
        selected := Selection([], "", NoTarget);
        origins := origins.(recovery := 0);
        recovery := recovery.(count := 0);
        cleanup := cleanup.(lastFailure := NoError);
        EnterLocked(Configured);
      } else {
        EnterLocked(progress.state);
      }
    }

    method BeginAttemptLocked(target: Target) returns (ctx: nat)
      modifies this
      ensures View() == BeginAttempt(old(View()), target) && ctx == progress.generation
    {
      ctx := progress.generation + 1;
      progress := Progress(Probing, ctx, progress.sequence + 1);
      attempt := Attempt(Some(ctx), Some(AttemptLedger(ctx)));
      cleanup := cleanup.(done := false, failed := false);
      fences := fences.(stopRequested := false);
      selected := selected.(target := target);
      recovery := recovery.(restart := false, failure := NoError);
    }

    method RetryLocked(target: Target, supplied: bool) returns (accepted: bool, go: Go)
      modifies this
      ensures var out := Retry(old(View()), target, supplied);
        View() == out.rec && accepted == out.accepted && go == out.go
    {
      hide BeginRetry;
      if supplied || target.replaceCurrent || target.mode != selected.target.mode ||
         (target.mode == ProfileIndex && target.index != selected.target.index) ||
         (target.digest != "" && target.digest != selected.digest) {
        return false, NoGo;
      }
      BeginRetryLocked();
      accepted, go := true, GoStart(progress.generation, progress.generation, target);
    }

    method BeginRetryLocked()
      modifies this
      ensures View() == BeginRetry(old(View()))
    {
      recovery := recovery.(count := 0);
      origins := origins.(recovery := 0);
      var ctx := BeginAttemptLocked(selected.target);
      origins := origins.(start := ctx);
    }

    method ReplaceLocked(target: Target, saveErr: bool) returns (accepted: bool, cancels: Option<nat>)
      modifies this
      ensures var out := Replace(old(View()), target, saveErr);
        View() == out.rec && accepted == out.accepted && cancels == out.cancels
    {
      if !target.replaceCurrent || !CanSwitch(View()) {
        return false, None;
      }
      if saveErr {
        return false, None;
      }
      pending := Some(Pending(target, loaded.profiles, loaded.digest));
      origins := origins.(switch := progress.generation);
      EnterLocked(Stopping);
      accepted, cancels := true, attempt.cancel;
    }

    /** The direct start: a new network generation and its first attempt. */
    method StartFreshLocked(target: Target) returns (go: Go)
      modifies this
      ensures var out := StartFresh(old(View()), target); View() == out.rec && go == out.go
    {
      selected := Selection(loaded.profiles, loaded.digest, target);
      network := Network(network.generation + 1, Some(NetworkLedger(network.generation + 1)), false);
      fences := fences.(stopRequested := false);
      var generation := progress.generation + 1;
      progress := Progress(Probing, generation, progress.sequence + 1);
      origins := Origins(generation, 0, 0);
      attempt := Attempt(Some(generation), Some(AttemptLedger(generation)));
      cleanup := Cleanup(false, false, NoError);
      recovery := Recovery(false, false, NoError, 0, None);
      go := GoStart(generation, generation, target);
    }

    method StartLocked(expected: nat, target: Target, supplied: bool, saveErr: bool)
      returns (accepted: bool, go: Go, cancels: Option<nat>)
      modifies this
      ensures var out := Start(old(View()), expected, target, supplied, saveErr);
        View() == out.rec && accepted == out.accepted && go == out.go && cancels == out.cancels
    {
      accepted, go, cancels := false, NoGo, None;
      if progress.sequence != expected || !loaded.configured {
        return;
      }
      if CanRetry(View()) {
        accepted, go := RetryLocked(target, supplied);
        return;
      }
      if !TargetFits(target, loaded.digest, loaded.profiles) {
        return;
      }
      if ConfigurationBlocked(View()) {
        accepted, cancels := ReplaceLocked(target, saveErr);
        return;
      }
      if saveErr {
        return;
      }
      go := StartFreshLocked(target);
      accepted := true;
    }

    method StopLocked(requested: nat) returns (accepted: bool, go: Go, cancels: Option<nat>)
      modifies this
      ensures var out := Stop(old(View()), requested);
        View() == out.rec && accepted == out.accepted && go == out.go && cancels == out.cancels
    {
      if !AcceptsStop(View(), requested) {
        return false, NoGo, None;
      }
      RequestStopLocked();
      if RetryableCleanup(View()) {
        cleanup := cleanup.(failed := false);
        EnterLocked(Stopping);
        return true, GoFinish(progress.generation), None;
      }
      if progress.state == Failed && network.active && !cleanup.failed {
        EnterLocked(Stopping);
        return true, GoFinish(progress.generation), None;
      }
      if !AttemptActive(progress.state) {
        accepted := AcknowledgeStoppedLocked();
        return accepted, NoGo, None;
      }
      cancels := StopRunningLocked();
      accepted, go := true, NoGo;
    }

    method RequestStopLocked()
      modifies this
      ensures View() == RequestStop(old(View()))
    {
      fences := fences.(stopRequested := true);
      origins := origins.(switch := 0);
      if pending != None {
        pending := None;
        EnterLocked(progress.state);
      }
    }

    method AcknowledgeStoppedLocked() returns (accepted: bool)
      modifies this
      ensures var out := AcknowledgeStopped(old(View()), old(progress).generation);
        View() == out.rec && accepted == out.accepted
    {
      accepted := cleanup.done && !cleanup.failed && progress.state != Configured;
      if accepted && (recovery.active || origins.recovery != 0) {
        recovery := recovery.(active := false, restart := false);
        origins := origins.(recovery := 0);
        EnterLocked(progress.state);
      }
    }

    method StopRunningLocked() returns (cancels: Option<nat>)
      modifies this
      ensures var out := StopRunning(old(View())); View() == out.rec && cancels == out.cancels
    {
      cancels := None;
      if recovery.active || origins.recovery != 0 {
        recovery := recovery.(active := false, restart := false);
        origins := origins.(recovery := 0);
      }
      if progress.state != Stopping {
        EnterLocked(Stopping);
        cancels := attempt.cancel;
      }
    }

    method StopAndWaitLocked() returns (go: Go, cancels: Option<nat>)
      modifies this
      ensures var out := StopAndWait(old(View()));
        View() == out.rec && go == out.go && cancels == out.cancels
    {
      go, cancels := NoGo, None;
      fences := Fences(true, true);
      pending := None;
      recovery := recovery.(active := false, restart := false);
      origins := origins.(recovery := 0);
      if cleanup.done || cleanup.failed {
        EnterLocked(progress.state);
        return;
      }
      if attempt.cancel != None {
        cancels := attempt.cancel;
      } else if progress.state == Failed {
        go := GoFinish(progress.generation);
      }
      EnterLocked(Stopping);
    }

    method ResumeLocked() returns (accepted: bool)
      modifies this
      ensures var out := Resume(old(View()));
        View() == out.rec && accepted == out.accepted
    {
      if !fences.closing {
        return true;
      }
      if !cleanup.done || cleanup.failed {
        return false;
      }
      fences := fences.(closing := false);
      EnterLocked(progress.state);
      accepted := true;
    }

    method ReportHealthFailureLocked(reported: nat, now: int) returns (cancels: Option<nat>)
      modifies this
      ensures var out := ReportHealthFailure(old(View()), reported, now);
        View() == out.rec && cancels == out.cancels
    {
      if reported == 0 || reported != progress.generation || progress.state != Connected {
        return None;
      }
      PrepareHealthRecoveryLocked(reported, now);
      EnterLocked(Stopping);
      cancels := attempt.cancel;
    }

    method PrepareHealthRecoveryLocked(reported: nat, now: int)
      modifies this`cleanup, this`recovery, this`origins
      ensures View() == PrepareHealthRecovery(old(View()), reported, now)
    {
      cleanup := cleanup.(lastFailure := Ordinary);
      if recovery.connectedAt.Some? && now - recovery.connectedAt.value >= AUTO_RECOVERY_STABLE {
        recovery := recovery.(count := 0);
        origins := origins.(recovery := 0);
      }
      if recovery.count < AUTO_RECOVERY_LIMIT {
        recovery := recovery.(count := recovery.count + 1, restart := true, active := true);
        if origins.recovery == 0 {
          origins := origins.(recovery := reported);
        }
      } else {
        recovery := recovery.(failure := Ordinary, active := false);
        origins := origins.(recovery := 0);
      }
    }

    /** The last lock of prepareNetwork: from here on traffic is protected. */
    method ActivateNetworkLocked()
      modifies this`network, this`progress
      ensures View() == ActivateNetwork(old(View()))
    {
      network := network.(active := true);
      EnterLocked(progress.state);
    }

    method AdvanceLocked(expected: nat, next: State, now: int) returns (advanced: bool)
      modifies this
      ensures var out := Advance(old(View()), expected, next, now);
        View() == out.rec && advanced == out.accepted
    {
      if progress.generation != expected || progress.state == Stopping {
        return false;
      }
      advanced := true;
      if next == Connected {
        ConnectedLocked(now);
      } else {
        EnterLocked(next);
      }
    }

    method ConnectedLocked(now: int)
      modifies this
      ensures View() == AdvanceConnected(old(View()), now)
    {
      origins := origins.(start := 0, recovery := 0);
      recovery := recovery.(connectedAt := Some(now), active := false);
      cleanup := cleanup.(lastFailure := NoError);
      EnterLocked(Connected);
    }

    method PrepareCandidateLocked(cancelled: bool) returns (accepted: bool)
      modifies this`progress
      ensures var out := PrepareCandidate(old(View()), cancelled);
        View() == out.rec && accepted == out.accepted
    {
      if fences.stopRequested || cancelled {
        return false;
      }
      progress := progress.(generation := progress.generation + 1);
      accepted := true;
    }

    method FinishEndLocked(finished: nat, cause: Cause, releaseNetwork: bool, cleanupErr: bool) returns (go: Go)
      modifies this
      ensures var out := FinishEnd(old(View()), finished, cause, releaseNetwork, cleanupErr);
        View() == out.rec && go == out.go
    {
      hide FinishReleased;
      if progress.generation != finished {
        return NoGo;
      }
      if cleanupErr || cause == CleanupError {
        FinishFailedLocked();
        return NoGo;
      }
      attempt := Attempt(None, None);
      cleanup := cleanup.(failed := false);
      if releaseNetwork {
        network := network.(ledger := None, active := false);
      } else if fences.stopRequested || fences.closing {
        progress := progress.(state := Stopping);
        return GoFinish(finished);
      }
      go := FinishReleasedLocked(finished, cause);
    }

    /** Cleanup failed: both ledgers stay with the session for a later Stop. */
    method FinishFailedLocked()
      modifies this
      ensures View() == FinishFailed(old(View()))
    {
      attempt := attempt.(cancel := None);
      pending := None;
      recovery := recovery.(restart := false, active := false, failure := NoError);
      cleanup := Cleanup(false, true, CleanupError);
      EnterLocked(Failed);
    }

    method FinishReleasedLocked(finished: nat, cause: Cause) returns (go: Go)
      modifies this
      ensures var out := FinishReleased(old(View()), finished, cause); View() == out.rec && go == out.go
    {
      hide FinishRestart, FinishProtectedFailure, FinishStopped;
      cleanup := cleanup.(done := !network.active);
      go := NoGo;
      if fences.stopRequested || fences.closing {
        FinishStoppedLocked();
      } else if network.active && (recovery.restart || pending != None) {
        go := FinishRestartLocked();
      } else {
        FinishProtectedFailureLocked(cause);
      }
    }

    method FinishStoppedLocked()
      modifies this
      ensures View() == FinishStopped(old(View()))
    {
      pending := None;
      recovery := recovery.(active := false, restart := false);
      origins := origins.(recovery := 0, start := 0);
      EnterLocked(Idle);
    }

    method FinishRestartLocked() returns (go: Go)
      modifies this
      ensures var out := FinishRestart(old(View())); View() == out.rec && go == out.go
    {
      hide BeginAttempt;
      var target := selected.target;
      if pending != None {
        target := pending.value.target;
        selected := selected.(profiles := pending.value.profiles, digest := pending.value.digest);
        pending := None;
        recovery := recovery.(count := 0);
      }
      var ctx := BeginAttemptLocked(target);
      go := GoStart(ctx, ctx, target);
    }

    method FinishProtectedFailureLocked(cause: Cause)
      modifies this
      ensures View() == FinishProtectedFailure(old(View()), cause)
    {
      var failure := if cause == NoError then Ordinary else cause;
      if recovery.failure != NoError {
        failure := recovery.failure;
      }
      cleanup := cleanup.(lastFailure := failure);
      origins := origins.(recovery := 0);
      recovery := recovery.(active := false, failure := NoError);
      EnterLocked(Failed);
    }
  }
}
