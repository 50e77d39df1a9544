/**
 The session record and, for every critical section of the session manager, the
 function from the record before the lock to the record after it.

 Heap objects the source allocates are named by the generation that allocates
 them: an attempt's ledger and context by the attempt generation, a network
 ledger by the network generation. Naming rather than nesting keeps aliasing
 visible: the worker that captured `s.ledger` and the record share one object.
 */
module SessionRecord {
  import opened Options

  datatype State = Idle | Configured | Probing | Preparing | Connected | Stopping | Failed

  /** A start mode as received from a caller; only the first two are valid. */
  datatype Mode = AutoSelect | ProfileIndex | UnknownMode

  datatype Profile = Profile(index: nat, payload: nat)

  datatype Target = Target(mode: Mode, index: int, replaceCurrent: bool, digest: string)

  const NoTarget := Target(UnknownMode, 0, false, "")

  /** A parsed configuration: a digest of the source and at least one profile. */
  datatype RawInventory = Inventory(digest: string, profiles: seq<Profile>)
  type Inventory = i: RawInventory | i.digest != "" && i.profiles != []
    witness Inventory("0", [Profile(0, 0)])

  datatype Pending = Pending(target: Target, profiles: seq<Profile>, digest: string)

  /** What the manager distinguishes about an error: is the failure class CLEANUP_FAILED or not. */
  datatype Cause = NoError | Ordinary | CleanupError

  datatype LedgerId = AttemptLedger(generation: nat) | NetworkLedger(generation: nat)

  const AUTO_RECOVERY_LIMIT := 3
  const AUTO_RECOVERY_STABLE := 300 // seconds

  datatype Record = Record(
    closing: bool,
    networkGeneration: nat,
    networkLedger: Option<LedgerId>,
    vpnActive: bool,
    stopRequested: bool,
    startOrigin: nat,
    state: State,
    generation: nat,
    configured: bool,
    digest: string,
    profiles: seq<Profile>,
    switchOrigin: nat,
    configureRequest: nat,
    activeProfiles: seq<Profile>,
    activeDigest: string,
    pending: Option<Pending>,
    lastFailure: Cause,
    cleanupDone: bool,
    cleanupFailed: bool,
    cancel: Option<nat>,
    ledger: Option<LedgerId>,
    activeTarget: Target,
    restartAfterCleanup: bool,
    failureAfterCleanup: Cause,
    recovering: bool,
    recoveryOrigin: nat,
    recoveryCount: nat,
    lastConnectedAt: Option<int>,
    sequence: nat)

  const InitialRecord := Record(
    closing := false, networkGeneration := 0, networkLedger := None, vpnActive := false,
    stopRequested := false, startOrigin := 0, state := Idle, generation := 0, configured := false,
    digest := "", profiles := [], switchOrigin := 0, configureRequest := 0, activeProfiles := [],
    activeDigest := "", pending := None, lastFailure := NoError, cleanupDone := true,
    cleanupFailed := false, cancel := None, ledger := None, activeTarget := NoTarget,
    restartAfterCleanup := false, failureAfterCleanup := NoError, recovering := false,
    recoveryOrigin := 0, recoveryCount := 0, lastConnectedAt := None, sequence := 1)

  /** A goroutine launched by a critical section. */
  datatype Go =
    | NoGo
    | GoStart(ctx: nat, generation: nat, target: Target)
    | GoFinish(generation: nat)

  /**
   The outcome of a critical section: the new record, the goroutine it launches,
   the context it cancels, whether the call was accepted, and whether it would
   have dereferenced a nil pointer.
   */
  datatype Out = Out(rec: Record, go: Go, cancels: Option<nat>, accepted: bool, panics: bool)

  function Reject(r: Record): Out { Out(r, NoGo, None, false, false) }
  function Accept(r: Record): Out { Out(r, NoGo, None, true, false) }

  // ---------------------------------------------------------------- predicates

  predicate AttemptActive(s: State) {
    s.Probing? || s.Preparing? || s.Connected? || s.Stopping?
  }

  predicate CanSwitch(r: Record) {
    !r.closing && r.state == Connected && !r.recovering && r.pending == None && !r.cleanupFailed
  }

  predicate CanRetry(r: Record) {
    !r.closing && r.state == Failed && r.vpnActive && !r.cleanupFailed && r.ledger == None
  }

  predicate ConfigurationBlocked(r: Record) {
    r.closing || r.pending != None || AttemptActive(r.state) || r.recovering || !r.cleanupDone || r.cleanupFailed
  }

  predicate RetryableCleanup(r: Record) {
    r.state == Failed && r.cleanupFailed && (r.ledger != None || r.networkLedger != None)
  }

  predicate AcceptsStop(r: Record, generation: nat) {
    generation != 0 &&
    (generation == r.generation || (r.recovering && generation == r.recoveryOrigin) ||
     generation == r.switchOrigin || generation == r.startOrigin)
  }

  /** The target names a profile of the inventory and does not contradict its digest. */
  predicate TargetFits(t: Target, digest: string, profiles: seq<Profile>) {
    && (t.mode == AutoSelect || t.mode == ProfileIndex)
    && (t.mode == ProfileIndex ==> 0 <= t.index < |profiles|)
    && (t.digest == "" || t.digest == digest)
  }

  predicate ShuttingDown(r: Record) {
    r.cleanupFailed || (r.closing && !r.cleanupDone)
  }

  /** Publishes a state change: every observable transition takes the next sequence number. */
  function Append(r: Record): Record { r.(sequence := r.sequence + 1) }

  // ------------------------------------------------------------- Configure

  function ConfigureAdmit(r: Record, expected: nat, ctxErr: bool): Out {
    if r.sequence != expected || ShuttingDown(r) || ctxErr then Reject(r)
    else Accept(r.(configureRequest := r.configureRequest + 1))
  }

  function ConfigureCommit(r: Record, request: nat, loaded: Inventory, ctxErr: bool, storeErr: bool): Out {
    if r.configureRequest != request || ctxErr || ShuttingDown(r) || storeErr then Reject(r)
    else if r.cleanupDone && !r.cleanupFailed && !r.recovering && r.pending == None then
      Accept(Append(r.(profiles := loaded.profiles, digest := loaded.digest, configured := true,
                       lastFailure := NoError, state := Configured, activeDigest := "", activeProfiles := [],
                       activeTarget := NoTarget, recoveryOrigin := 0, recoveryCount := 0)))
    else Accept(Append(r.(profiles := loaded.profiles, digest := loaded.digest, configured := true)))
  }

  // ----------------------------------------------------------------- Start

  /** beginAttemptLocked: a new attempt inside the retained network generation. */
  function BeginAttempt(r: Record, target: Target): Record {
    var g := r.generation + 1;
    Append(r.(generation := g, cancel := Some(g), ledger := Some(AttemptLedger(g)),
              cleanupDone := false, cleanupFailed := false, stopRequested := false,
              activeTarget := target, restartAfterCleanup := false, failureAfterCleanup := NoError,
              state := Probing))
  }

  predicate MatchesActiveSelection(r: Record, target: Target, supplied: bool) {
    && !supplied && !target.replaceCurrent && target.mode == r.activeTarget.mode
    && (target.mode == ProfileIndex ==> target.index == r.activeTarget.index)
    && (target.digest == "" || target.digest == r.activeDigest)
  }

  /** A retry by the user renews the recovery budget and repeats the selection that failed. */
  function BeginRetry(r: Record): Record {
    BeginAttempt(r.(recoveryCount := 0, recoveryOrigin := 0), r.activeTarget).(startOrigin := r.generation + 1)
  }

  function Retry(r: Record, target: Target, supplied: bool): Out {
    if !MatchesActiveSelection(r, target, supplied) then Reject(r)
    else
      var r := BeginRetry(r);
      Out(r, GoStart(r.generation, r.generation, target), None, true, false)
  }

  function Replace(r: Record, target: Target, saveErr: bool): Out {
    if !target.replaceCurrent || !CanSwitch(r) || saveErr then Reject(r)
    else
      var next := Append(r.(pending := Some(Pending(target, r.profiles, r.digest)),
                            switchOrigin := r.generation, state := Stopping));
      Out(next, NoGo, r.cancel, true, r.cancel == None)
  }

  function StartFresh(r: Record, target: Target): Out {
    var g, n := r.generation + 1, r.networkGeneration + 1;
    var r := Append(r.(
      activeProfiles := r.profiles, activeDigest := r.digest, switchOrigin := 0,
      networkGeneration := n, networkLedger := Some(NetworkLedger(n)), vpnActive := false,
      stopRequested := false, generation := g, startOrigin := g, cancel := Some(g),
      ledger := Some(AttemptLedger(g)), cleanupDone := false, cleanupFailed := false,
      lastFailure := NoError, activeTarget := target, restartAfterCleanup := false,
      failureAfterCleanup := NoError, recovering := false, recoveryOrigin := 0, recoveryCount := 0,
      lastConnectedAt := None, state := Probing));
    Out(r, GoStart(g, g, target), None, true, false)
  }

  function Start(r: Record, expected: nat, target: Target, supplied: bool, saveErr: bool): Out {
    if r.sequence != expected || !r.configured then Reject(r)
    else if CanRetry(r) then Retry(r, target, supplied)
    else if !TargetFits(target, r.digest, r.profiles) then Reject(r)
    else if ConfigurationBlocked(r) then Replace(r, target, saveErr)
    else if saveErr then Reject(r)
    else StartFresh(r, target)
  }

  // ------------------------------------------------------------------ Stop

  function AcknowledgeStopped(r: Record, generation: nat): Out {
    if r.generation == generation && r.cleanupDone && !r.cleanupFailed && r.state != Configured then
      if r.recovering || r.recoveryOrigin != 0 then
        Accept(Append(r.(recovering := false, restartAfterCleanup := false, recoveryOrigin := 0)))
      else Accept(r)
    else Reject(r)
  }

  /** The stop intent, recorded whatever happens next. */
  function RequestStop(r: Record): Record {
    r.(stopRequested := true, switchOrigin := 0, pending := None,
       sequence := if r.pending != None then r.sequence + 1 else r.sequence)
  }

  /** A stop while a worker owns the attempt: the worker performs the release. */
  function StopRunning(r: Record): Out {
    var recovers := r.recovering || r.recoveryOrigin != 0;
    var moves := r.state != Stopping;
    Out(r.(recovering := false, restartAfterCleanup := if recovers then false else r.restartAfterCleanup,
           recoveryOrigin := 0, state := Stopping,
           sequence := if moves then r.sequence + 1 else r.sequence),
        NoGo, if moves then r.cancel else None, true, false)
  }

  function Stop(r: Record, generation: nat): Out {
    if !AcceptsStop(r, generation) then Reject(r)
    else if RetryableCleanup(r) then
      Out(Append(RequestStop(r).(state := Stopping, cleanupFailed := false)), GoFinish(r.generation), None, true, false)
    else if r.state == Failed && r.vpnActive && !r.cleanupFailed then
      Out(Append(RequestStop(r).(state := Stopping)), GoFinish(r.generation), None, true, false)
    else if !AttemptActive(r.state) then AcknowledgeStopped(RequestStop(r), r.generation)
    else StopRunning(RequestStop(r))
  }

  /** The critical section of StopAndWait; the wait that follows only reads the record. */
  function StopAndWait(r: Record): Out {
    var r := r.(closing := true, stopRequested := true, pending := None,
                recovering := false, restartAfterCleanup := false, recoveryOrigin := 0);
    if !r.cleanupDone && !r.cleanupFailed then
      var dormant := r.state == Failed;
      var next := Append(r.(state := Stopping));
      if r.cancel != None then Out(next, NoGo, r.cancel, true, false)
      else if dormant then Out(next, GoFinish(r.generation), None, true, false)
      else Accept(next)
    else Accept(Append(r))
  }

  function Resume(r: Record): Out {
    if !r.closing then Accept(r)
    else if !r.cleanupDone || r.cleanupFailed then Reject(r)
    else Accept(Append(r.(closing := false)))
  }

  // ---------------------------------------------------------------- worker

  /** The connection that just failed had been up for at least five minutes. */
  predicate WasStable(r: Record, now: int) {
    r.lastConnectedAt.Some? && now - r.lastConnectedAt.value >= AUTO_RECOVERY_STABLE
  }

  function PrepareHealthRecovery(r: Record, generation: nat, now: int): Record {
    var stable := WasStable(r, now);
    var count := if stable then 0 else r.recoveryCount;
    var origin := if stable then 0 else r.recoveryOrigin;
    if count < AUTO_RECOVERY_LIMIT then
      r.(lastFailure := Ordinary, recoveryCount := count + 1, restartAfterCleanup := true, recovering := true,
         recoveryOrigin := if origin == 0 then generation else origin)
    else
      r.(lastFailure := Ordinary, recoveryCount := count, failureAfterCleanup := Ordinary,
         recovering := false, recoveryOrigin := 0)
  }

  function ReportHealthFailure(r: Record, generation: nat, now: int): Out {
    if generation == 0 || generation != r.generation || r.state != Connected then Reject(r)
    else
      Out(Append(PrepareHealthRecovery(r, generation, now).(state := Stopping)), NoGo, r.cancel, true, false)
  }

  function ActivateNetwork(r: Record): Record { Append(r.(vpnActive := true)) }

  /** prepareCandidate for every candidate but the first: the next generation of the same attempt. */
  function PrepareCandidate(r: Record, cancelled: bool): Out {
    if r.stopRequested || cancelled then Reject(r)
    else Accept(r.(generation := r.generation + 1))
  }

  /** The attempt is connected: recovery is over and only the attempt itself can be stopped. */
  function AdvanceConnected(r: Record, now: int): Record {
    Append(r.(state := Connected, startOrigin := 0, lastConnectedAt := Some(now), lastFailure := NoError,
              recovering := false, recoveryOrigin := 0))
  }

  function Advance(r: Record, generation: nat, state: State, now: int): Out {
    if r.generation != generation || r.state == Stopping then Reject(r)
    else if state == Connected then Accept(AdvanceConnected(r, now))
    else Accept(Append(r.(state := state)))
  }

  predicate ReleasesNetwork(r: Record) { r.stopRequested || r.closing || !r.vpnActive }

  function FinishProtectedFailure(r: Record, cause: Cause): Record {
    Append(r.(state := Failed,
              lastFailure := if r.failureAfterCleanup != NoError then r.failureAfterCleanup
                             else if cause == NoError then Ordinary else cause,
              recovering := false, recoveryOrigin := 0, failureAfterCleanup := NoError))
  }

  /** Cleanup failed: both ledgers stay with the session for a later Stop. */
  function FinishFailed(r: Record): Record {
    Append(r.(cancel := None, cleanupFailed := true, pending := None, restartAfterCleanup := false,
              recovering := false, failureAfterCleanup := NoError, state := Failed,
              lastFailure := CleanupError, cleanupDone := false))
  }

  /** The last critical section of finish, after both ledgers have been tried. */
  function FinishEnd(r: Record, generation: nat, cause: Cause, releaseNetwork: bool, cleanupErr: bool): Out {
    if r.generation != generation then Reject(r)
    else if cleanupErr || cause == CleanupError then Accept(FinishFailed(r))
    else if releaseNetwork then
      FinishReleased(r.(cancel := None, cleanupFailed := false, ledger := None, networkLedger := None, vpnActive := false),
                     generation, cause)
    else if r.stopRequested || r.closing then
      // A stop that arrived during attempt cleanup still owns network release.
      Out(r.(cancel := None, cleanupFailed := false, ledger := None, state := Stopping), GoFinish(generation), None, true, false)
    else
      FinishReleased(r.(cancel := None, cleanupFailed := false, ledger := None), generation, cause)
  }

  /** Cleanup settled: the session goes idle, starts what was queued, or reports the failure. */
  function FinishReleased(r: Record, generation: nat, cause: Cause): Out {
    if r.stopRequested || r.closing then
      Accept(FinishStopped(r.(cleanupDone := !r.vpnActive)))
    else if r.vpnActive && (r.restartAfterCleanup || r.pending != None) then
      FinishRestart(r.(cleanupDone := !r.vpnActive))
    else Accept(FinishProtectedFailure(r.(cleanupDone := !r.vpnActive), cause))
  }

  function FinishStopped(r: Record): Record {
    Append(r.(state := Idle, pending := None, recovering := false, restartAfterCleanup := false,
              recoveryOrigin := 0, startOrigin := 0))
  }

  /** Protection stays up and a queued switch, or else a queued health restart, begins. */
  function FinishRestart(r: Record): Out {
    var (target, next) :=
      if r.pending.Some? then
        (r.pending.value.target,
         r.(activeProfiles := r.pending.value.profiles, activeDigest := r.pending.value.digest,
            pending := None, recoveryCount := 0))
      else (r.activeTarget, r);
    var r := BeginAttempt(next, target);
    Out(r, GoStart(r.generation, r.generation, target), None, true, false)
  }
}
