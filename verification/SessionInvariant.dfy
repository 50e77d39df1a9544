/** The inductive invariant of the session manager and its proof, event by event. */
module SessionInvariant {
  import opened Options
  import opened SessionRecord
  import opened SessionWorld

  // --------------------------------------------------------------- the record

  predicate RecordOk(r: Record) {
    && (r.cleanupDone ==>
          r.ledger == None && r.networkLedger == None && !r.vpnActive && !AttemptActive(r.state) &&
          !r.cleanupFailed && r.cancel == None)
    && (r.cleanupFailed ==> r.state == Failed && r.cancel == None && r.networkLedger != None)
    && (r.state == Idle || r.state == Configured ==> r.cleanupDone)
    && (r.state == Failed && !r.cleanupFailed ==>
          r.ledger == None && r.cleanupDone == !r.vpnActive && r.cancel == None && (r.vpnActive ==> !r.stopRequested))
    && (AttemptActive(r.state) ==> r.networkLedger != None && !r.cleanupDone)
    && (!r.cleanupDone ==> r.generation != 0)
    && (r.vpnActive ==> r.networkLedger != None)
    && (r.state == Connected ==> r.vpnActive && r.cancel != None)
    && (r.closing ==> r.stopRequested)
    && (r.stopRequested && AttemptActive(r.state) ==> r.state == Stopping)
    && (r.recovering ==> AttemptActive(r.state) && !r.stopRequested && r.pending == None && r.vpnActive)
    && (r.restartAfterCleanup ==> r.recovering && r.state == Stopping)
    && (r.pending != None ==> r.state == Stopping && r.vpnActive && !r.stopRequested)
    && r.recoveryCount <= AUTO_RECOVERY_LIMIT
    && (r.ledger.Some? ==> r.ledger.value.AttemptLedger? && r.ledger.value.generation <= r.generation)
    && (r.networkLedger.Some? ==> r.networkLedger.value == NetworkLedger(r.networkGeneration))
  }

  // ----------------------------------------------------------------- the heap

  predicate Increasing(s: seq<nat>) { forall i, j :: 0 <= i < j < |s| ==> s[i] < s[j] }

  predicate HeapOk(w: World) {
    && (w.r.ledger.Some? ==> w.r.ledger.value in w.ledgers)
    && (w.r.networkLedger.Some? ==> w.r.networkLedger.value in w.ledgers)
    && (forall id :: id in w.ledgers ==>
          id.generation <= (if id.AttemptLedger? then w.r.generation else w.r.networkGeneration))
    && (forall c :: c in w.cancelled ==> c <= w.r.generation)
    && (w.r.cancel.Some? ==> w.r.cancel.value <= w.r.generation)
  }

  /** Closers were stacked in the order they were acquired. */
  predicate InOrder(stack: seq<nat>, acquired: nat) {
    Increasing(stack) && (forall i :: 0 <= i < |stack| ==> stack[i] < acquired)
  }

  ghost function Numbers(n: nat): multiset<nat> { multiset(seq(n, i => i)) }

  /** Every closer ever acquired has succeeded exactly once or is still owned, never both. */
  ghost predicate Accounted(released: seq<nat>, stack: seq<nat>, acquired: nat) {
    multiset(released) + multiset(stack) == Numbers(acquired)
  }

  ghost predicate Owned(w: World) {
    InOrder(Stack(w), w.acquired) && Accounted(w.released, Stack(w), w.acquired)
  }

  // -------------------------------------------------------------- the workers

  predicate StartPhase(pc: Pc) {
    !(pc.FinLock? || pc.FinAttempt? || pc.FinDecide? || pc.FinNetwork? || pc.FinEnd?)
  }

  predicate BeforeActivation(pc: Pc) {
    pc.NetTunnel? || pc.NetRuntime? || pc.NetActivate?
  }

  /** Program points at which no candidate of this attempt holds a resource. */
  predicate NothingHeld(pc: Pc) {
    pc.NetCheck? || BeforeActivation(pc) || pc.NetContext? || pc.Snapshot? || pc.Candidate? ||
    pc.Announce? || pc.InStart? || pc.Retired?
  }

  predicate WalksInventory(r: Record, me: Worker) {
    match me.pc
    case Candidate(profiles, index) => profiles == Slice(r.activeProfiles, me.target)
    case Announce(profiles, index) => profiles == Slice(r.activeProfiles, me.target) && index < |profiles|
    case InStart(profiles, index) => profiles == Slice(r.activeProfiles, me.target) && index < |profiles|
    case Started(profiles, index, _, _) => profiles == Slice(r.activeProfiles, me.target) && index < |profiles|
    case Releasing(profiles, index, _, work) =>
      profiles == Slice(r.activeProfiles, me.target) && index < |profiles| && work == r.ledger
    case Retired(profiles, index, _) => profiles == Slice(r.activeProfiles, me.target) && index < |profiles|
    case NetTunnel(work) => work == r.networkLedger
    case NetRuntime(work) => work == r.networkLedger
    case _ => true
  }
  
  predicate SameSelection(a: Target, b: Target) {
    a.mode == b.mode && (a.mode == ProfileIndex ==> a.index == b.index)
  }

  /** The record belongs to the attempt this worker runs, and its context is cancelled exactly when stopping. */
  predicate RunsAttempt(r: Record, cancelled: set<nat>, ctx: nat, target: Target) {
    && r.ledger == Some(AttemptLedger(ctx))
    && r.cancel == Some(ctx)
    && (ctx in cancelled <==> r.state == Stopping)
    && SameSelection(target, r.activeTarget)
    && TargetFits(r.activeTarget, r.activeDigest, r.activeProfiles)
    && r.activeProfiles != []
  }

  predicate AtPoint(r: Record, me: Worker) {
    && (r.state == Connected ==> me.pc.Waiting? || me.pc.Reporting?)
    && (if BeforeActivation(me.pc) then !r.vpnActive else me.pc.NetCheck? || r.vpnActive)
    && WalksInventory(r, me)
  }

  predicate StartWorkerOk(w: World, me: Worker) {
    && RunsAttempt(w.r, w.cancelled, me.ctx, me.target)
    && AtPoint(w.r, me)
    && (NothingHeld(me.pc) ==> Closers(w.ledgers, w.r.ledger) == [])
  }

  predicate FinishWorkerOk(w: World, me: Worker) {
    var r := w.r;
    && r.state != Connected
    && (match me.pc
        case FinAttempt(cause, work) => work == r.ledger
        case FinDecide(cause, cleanupErr) => !cleanupErr && cause != CleanupError ==> Closers(w.ledgers, r.ledger) == []
        case FinNetwork(cause, network) =>
          cause != CleanupError && r.networkLedger == Some(network) && Closers(w.ledgers, r.ledger) == [] && ReleasesNetwork(r)
        case FinEnd(cause, releaseNetwork, cleanupErr) =>
          && (if releaseNetwork then ReleasesNetwork(r) else r.vpnActive)
          && (!cleanupErr && cause != CleanupError ==>
                Closers(w.ledgers, r.ledger) == [] && (releaseNetwork ==> Closers(w.ledgers, r.networkLedger) == []))
        case _ => true)
  }

  predicate WorkerOk(w: World, me: Worker) {
    me.generation == w.r.generation && if StartPhase(me.pc) then StartWorkerOk(w, me) else FinishWorkerOk(w, me)
  }

  predicate WorkersOk(w: World) {
    && |w.workers| == (if AttemptActive(w.r.state) then 1 else 0)
    && (forall i :: 0 <= i < |w.workers| ==> WorkerOk(w, w.workers[i]))
  }

  // ---------------------------------------------------- recovery and inventory

  predicate RecoveryOk(w: World) {
    && w.autoStarts <= AUTO_RECOVERY_LIMIT
    && (!w.r.cleanupDone ==> w.autoStarts + (if w.r.restartAfterCleanup then 1 else 0) <= w.r.recoveryCount)
  }

  predicate Validated(w: World, t: Target, digest: string, profiles: seq<Profile>) {
    Inventory(digest, profiles) in w.committed && TargetFits(t, digest, profiles)
  }

  predicate CallOk(committed: set<RawInventory>, c: StartCall) {
    exists inv :: inv in committed && inv.digest == c.digest && c.position < |inv.profiles| &&
                  inv.profiles[c.position] == c.profile
  }

  predicate InventoryOk(w: World) {
    && (forall inv :: inv in w.committed ==> inv.digest != "" && inv.profiles != [])
    && (w.r.configured ==> Inventory(w.r.digest, w.r.profiles) in w.committed)
    && (!w.r.cleanupDone ==> Validated(w, w.r.activeTarget, w.r.activeDigest, w.r.activeProfiles))
    && (w.r.pending.Some? ==>
          Validated(w, w.r.pending.value.target, w.r.pending.value.digest, w.r.pending.value.profiles))
    && (forall k :: 0 <= k < |w.starts| ==> CallOk(w.committed, w.starts[k]))
    && (forall q :: q in w.loading ==> q <= w.r.configureRequest)
  }

  ghost predicate Inv(w: World) {
    && !w.panicked
    && RecordOk(w.r)
    && HeapOk(w)
    && Owned(w)
    && WorkersOk(w)
    && RecoveryOk(w)
    && InventoryOk(w)
  }

  lemma InitInv(networkRuntime: bool)
    ensures Inv(Init(networkRuntime))
  {
    assert seq(0, i => i) == [];
  }

  // ------------------------------------------------------------------ API calls

  /** All an API call may do to a running attempt: mark it stopping and cancel its context. */
  predicate LeavesAttempt(r: Record, o: Out) {
    && o.go == NoGo
    && o.rec.generation == r.generation && o.rec.networkGeneration == r.networkGeneration
    && o.rec.ledger == r.ledger && o.rec.networkLedger == r.networkLedger
    && o.rec.cancel == r.cancel && o.rec.vpnActive == r.vpnActive && o.rec.cleanupDone == r.cleanupDone
    && o.rec.activeTarget == r.activeTarget && o.rec.activeDigest == r.activeDigest
    && o.rec.activeProfiles == r.activeProfiles
    && (r.stopRequested ==> o.rec.stopRequested)
    && ((o.rec.state == r.state && o.cancels == None) || (o.rec.state == Stopping && o.cancels == r.cancel))
  }

  /** All an API call may do while no attempt runs. */
  predicate MayBegin(r: Record, o: Out) {
    && o.cancels == None && o.rec.vpnActive == r.vpnActive
    && (o.go.GoStart? ==>
          var g := r.generation + 1;
          && o.go.ctx == g && o.go.generation == g && o.rec.generation == g
          && o.rec.ledger == Some(AttemptLedger(g)) && o.rec.cancel == Some(g) && r.ledger == None
          && o.rec.state == Probing
          && SameSelection(o.go.target, o.rec.activeTarget)
          && (if r.vpnActive then
                o.rec.networkGeneration == r.networkGeneration && o.rec.networkLedger == r.networkLedger &&
                o.rec.activeProfiles == r.activeProfiles && o.rec.activeDigest == r.activeDigest &&
                o.rec.activeTarget == r.activeTarget
              else
                o.rec.networkGeneration == r.networkGeneration + 1 && r.networkLedger == None &&
                o.rec.networkLedger == Some(NetworkLedger(o.rec.networkGeneration)) &&
                r.configured && TargetFits(o.rec.activeTarget, r.digest, r.profiles) &&
                o.rec.activeProfiles == r.profiles && o.rec.activeDigest == r.digest))
    && (!o.go.GoStart? ==>
          && o.rec.generation == r.generation && o.rec.networkGeneration == r.networkGeneration
          && o.rec.ledger == r.ledger && o.rec.networkLedger == r.networkLedger && o.rec.cancel == r.cancel
          && o.rec.cleanupDone == r.cleanupDone
          && (!r.cleanupDone ==>
                o.rec.activeTarget == r.activeTarget && o.rec.activeDigest == r.activeDigest &&
                o.rec.activeProfiles == r.activeProfiles))
    && (o.go.GoFinish? ==> o.go.generation == r.generation && o.rec.state == Stopping)
    && (o.go == NoGo ==> !AttemptActive(o.rec.state))
  }

  /** A call adds no automatic attempt, and a selection it queues was checked against the inventory. */
  predicate KeepsBudget(r: Record, o: Out) {
    && (if o.go.GoStart? then o.rec.recoveryCount == 0 && !o.rec.restartAfterCleanup
        else o.rec.cleanupDone == r.cleanupDone && (o.rec.restartAfterCleanup ==> r.restartAfterCleanup) &&
             (!r.cleanupDone ==> o.rec.recoveryCount == r.recoveryCount))
    && (o.rec.pending.Some? && o.rec.pending != r.pending ==>
          r.configured && o.rec.pending.value.digest == r.digest && o.rec.pending.value.profiles == r.profiles &&
          TargetFits(o.rec.pending.value.target, r.digest, r.profiles))
    && r.configureRequest <= o.rec.configureRequest
  }

  /** Only a fresh attempt takes back a stop request, and none begins while closing. */
  predicate KeepsFences(r: Record, o: Out) {
    && (r.stopRequested && !o.rec.stopRequested ==> o.go.GoStart?)
    && (o.go.GoStart? ==> !r.closing && !o.rec.stopRequested)
  }

  predicate RaisesNoFence(r: Record, o: Out) {
    o.rec.closing == r.closing && (o.rec.stopRequested ==> r.stopRequested)
  }

  predicate SameInventory(r: Record, o: Out) {
    o.rec.configured == r.configured && o.rec.digest == r.digest && o.rec.profiles == r.profiles &&
    o.rec.configureRequest == r.configureRequest
  }

  predicate CallEffect(r: Record, o: Out) {
    && !o.panics
    && RecordOk(o.rec)
    && (if AttemptActive(r.state) then LeavesAttempt(r, o) else MayBegin(r, o))
    && KeepsBudget(r, o)
    && KeepsFences(r, o)
  }

  lemma ConfigureAdmitEffect(r: Record, expected: nat, ctxErr: bool)
    requires RecordOk(r)
    ensures var o := ConfigureAdmit(r, expected, ctxErr);
      CallEffect(r, o) && RaisesNoFence(r, o) &&
      o.rec.configured == r.configured && o.rec.digest == r.digest && o.rec.profiles == r.profiles
  {
    var o := ConfigureAdmit(r, expected, ctxErr);
    assert RecordOk(o.rec);
    hide RecordOk;
    assert KeepsBudget(r, o);
    assert LeavesAttempt(r, o);
  }

  lemma ConfigureCommitEffect(r: Record, request: nat, loaded: Inventory, ctxErr: bool, storeErr: bool)
    requires RecordOk(r)
    ensures var o := ConfigureCommit(r, request, loaded, ctxErr, storeErr);
      && CallEffect(r, o) && RaisesNoFence(r, o) && o.go == NoGo
      && o.rec.configureRequest == r.configureRequest
      && (if o.accepted then o.rec.digest == loaded.digest && o.rec.profiles == loaded.profiles
          else SameInventory(r, o))
  {
    var o := ConfigureCommit(r, request, loaded, ctxErr, storeErr);
    if o.accepted {
      assert RecordOk(o.rec);
    }
  }

  lemma RetryEffect(r: Record, target: Target, supplied: bool)
    requires RecordOk(r) && CanRetry(r)
    ensures var o := Retry(r, target, supplied);
      CallEffect(r, o) && SameInventory(r, o) && RaisesNoFence(r, o)
  {
    var o := Retry(r, target, supplied);
    assert RecordOk(o.rec);
    if !o.accepted {
      assert o.rec == r;
    }
  }

  lemma ReplaceEffect(r: Record, target: Target, saveErr: bool)
    requires RecordOk(r) && r.configured && TargetFits(target, r.digest, r.profiles)
    ensures var o := Replace(r, target, saveErr);
      CallEffect(r, o) && SameInventory(r, o) && RaisesNoFence(r, o)
  {
    var o := Replace(r, target, saveErr);
    assert RecordOk(o.rec);
    if !o.accepted {
      assert o.rec == r;
    }
  }

  lemma StartFreshEffect(r: Record, target: Target)
    requires RecordOk(r) && r.configured && TargetFits(target, r.digest, r.profiles) && !ConfigurationBlocked(r)
    ensures var o := StartFresh(r, target);
      CallEffect(r, o) && SameInventory(r, o) && RaisesNoFence(r, o)
  {
    assert RecordOk(StartFresh(r, target).rec);
  }

  lemma StartEffect(r: Record, expected: nat, target: Target, supplied: bool, saveErr: bool)
    requires RecordOk(r)
    ensures var o := Start(r, expected, target, supplied, saveErr);
      CallEffect(r, o) && SameInventory(r, o) && RaisesNoFence(r, o)
  {
    hide Retry, Replace, StartFresh;
    if r.sequence == expected && r.configured {
      if CanRetry(r) {
        RetryEffect(r, target, supplied);
      } else if TargetFits(target, r.digest, r.profiles) {
        if ConfigurationBlocked(r) {
          ReplaceEffect(r, target, saveErr);
        } else {
          StartFreshEffect(r, target);
        }
      }
    }
  }

  lemma StopEffect(r: Record, generation: nat)
    requires RecordOk(r)
    ensures var o := Stop(r, generation);
      CallEffect(r, o) && SameInventory(r, o) && !o.go.GoStart? && o.rec.closing == r.closing &&
      (!AcceptsStop(r, generation) ==> o.rec == r)
  {
    var o := Stop(r, generation);
    if AcceptsStop(r, generation) {
      if AttemptActive(r.state) {
        assert o == StopRunning(RequestStop(r));
      }
      assert RecordOk(o.rec);
    } else {
      assert o.rec == r;
    }
  }

  lemma StopAndWaitEffect(r: Record)
    requires RecordOk(r)
    ensures var o := StopAndWait(r);
      CallEffect(r, o) && SameInventory(r, o) && !o.go.GoStart? && o.rec.closing
  {
  }

  lemma ResumeEffect(r: Record)
    requires RecordOk(r)
    ensures var o := Resume(r);
      CallEffect(r, o) && SameInventory(r, o) && !o.go.GoStart? && o.rec.stopRequested == r.stopRequested
  {
  }

  lemma EnactHeapOk(w: World, o: Out)
    requires RecordOk(w.r) && HeapOk(w) && CallEffect(w.r, o)
    ensures HeapOk(Enact(w, o))
    ensures Stack(Enact(w, o)) == Stack(w)
    ensures Closers(Enact(w, o).ledgers, o.rec.ledger) == Closers(w.ledgers, w.r.ledger)
  {
  }

  lemma EnactWorkersOk(w: World, o: Out)
    requires RecordOk(w.r) && HeapOk(w) && WorkersOk(w) && InventoryOk(w) && CallEffect(w.r, o)
    ensures WorkersOk(Enact(w, o))
  {
    EnactHeapOk(w, o);
    assert !w.r.cleanupDone ==> w.r.activeProfiles != [];
    assert w.r.generation + 1 !in w.cancelled;
    hide HeapOk, Stack, SameInventory;
  }

  /** A call with such an effect keeps the invariant, given where the loaded inventory came from. */
  lemma EnactInv(w: World, o: Out, loading: set<nat>, committed: set<RawInventory>)
    requires Inv(w) && CallEffect(w.r, o)
    requires w.committed <= committed && (forall inv :: inv in committed ==> inv.digest != "" && inv.profiles != [])
    requires o.rec.configured ==> Inventory(o.rec.digest, o.rec.profiles) in committed
    requires forall q :: q in loading ==> q <= o.rec.configureRequest
    ensures
      var v := Enact(w, o).(loading := loading, committed := committed,
                            autoStarts := if o.go.GoStart? then 0 else w.autoStarts);
      Inv(v) && Stack(v) == Stack(w)
  {
    var e := Enact(w, o);
    var v := e.(loading := loading, committed := committed,
                autoStarts := if o.go.GoStart? then 0 else w.autoStarts);
    EnactHeapOk(w, o);
    EnactWorkersOk(w, o);
    assert HeapOk(v) && WorkersOk(v) && Stack(v) == Stack(w) by { SameView(e, v); }
    assert InventoryOk(v) by { EnactInventoryOk(w, o, v); }
    assert RecoveryOk(v);
    assert Owned(v);
  }

  lemma SameView(w: World, v: World)
    requires v.r == w.r && v.workers == w.workers && v.ledgers == w.ledgers && v.cancelled == w.cancelled
    ensures Stack(v) == Stack(w)
    ensures HeapOk(w) ==> HeapOk(v)
    ensures WorkersOk(w) ==> WorkersOk(v)
  {
  }

  lemma EnactInventoryOk(w: World, o: Out, v: World)
    requires RecordOk(w.r) && InventoryOk(w) && CallEffect(w.r, o)
    requires v.r == o.rec && v.starts == w.starts
    requires w.committed <= v.committed && (forall inv :: inv in v.committed ==> inv.digest != "" && inv.profiles != [])
    requires o.rec.configured ==> Inventory(o.rec.digest, o.rec.profiles) in v.committed
    requires forall q :: q in v.loading ==> q <= o.rec.configureRequest
    ensures InventoryOk(v)
  {
  }

  lemma CommittedInventory(w: World)
    requires Inv(w)
    ensures RecordOk(w.r)
    ensures forall inv :: inv in w.committed ==> inv.digest != "" && inv.profiles != []
    ensures w.r.configured ==> Inventory(w.r.digest, w.r.profiles) in w.committed
    ensures forall q :: q in w.loading ==> q <= w.r.configureRequest
  {
  }

  lemma LoadFailedInv(w: World, request: nat)
    requires Inv(w)
    ensures Inv(w.(loading := w.loading - {request})) && Stack(w.(loading := w.loading - {request})) == Stack(w)
  {
    SameView(w, w.(loading := w.loading - {request}));
  }

  lemma ConfigureInv(w: World, e: Event)
    requires Inv(w) && (e.ConfigureBegin? || e.ConfigureLoadFailed? || e.ConfigureEnd?)
    ensures Inv(Next(w, e)) && Stack(Next(w, e)) == Stack(w)
  {
    hide Inv, Stack, CallEffect, Launch, Allocate, ConfigureCommit;
    CommittedInventory(w);
    match e
    case ConfigureBegin(expected, ctxErr) =>
      var o := ConfigureAdmit(w.r, expected, ctxErr);
      ConfigureAdmitEffect(w.r, expected, ctxErr);
      if o.accepted {
        EnactInv(w, o, w.loading + {o.rec.configureRequest}, w.committed);
      }
    case ConfigureLoadFailed(request) =>
      LoadFailedInv(w, request);
    case ConfigureEnd(request, loaded, ctxErr, storeErr) =>
      if request in w.loading {
        var o := ConfigureCommit(w.r, request, loaded, ctxErr, storeErr);
        ConfigureCommitEffect(w.r, request, loaded, ctxErr, storeErr);
        EnactInv(w, o, w.loading - {request}, if o.accepted then w.committed + {loaded} else w.committed);
      }
  }

  lemma CallInv(w: World, e: Event)
    requires Inv(w) && !e.Work?
    ensures Inv(Next(w, e)) && Stack(Next(w, e)) == Stack(w)
  {
    hide Inv, Stack, CallEffect, Launch, Allocate, Start, Stop, StopAndWait, Resume;
    CommittedInventory(w);
    match e
    case StartCalled(expected, target, supplied, saveErr) =>
      var o := Start(w.r, expected, target, supplied, saveErr);
      StartEffect(w.r, expected, target, supplied, saveErr);
      EnactInv(w, o, w.loading, w.committed);
    case StopCalled(generation) =>
      StopEffect(w.r, generation);
      EnactInv(w, Stop(w.r, generation), w.loading, w.committed);
    case StopAndWaitCalled =>
      StopAndWaitEffect(w.r);
      EnactInv(w, StopAndWait(w.r), w.loading, w.committed);
    case ResumeCalled =>
      ResumeEffect(w.r);
      EnactInv(w, Resume(w.r), w.loading, w.committed);
    case _ => ConfigureInv(w, e);
  }

  // --------------------------------------------------- ownership along a step

  /** Both ledgers together change like one stack: a push, a pop, or nothing. */
  predicate StackStep(stack: seq<nat>, next: seq<nat>, acquired: nat, acquired': nat, released: seq<nat>, released': seq<nat>) {
    || (next == stack && acquired' == acquired && released' == released)
    || (next == stack + [acquired] && acquired' == acquired + 1 && released' == released)
    || (stack != [] && next == stack[..|stack| - 1] && acquired' == acquired && released' == released + [stack[|stack| - 1]])
  }

  predicate OneStack(w: World, v: World) {
    StackStep(Stack(w), Stack(v), w.acquired, v.acquired, w.released, v.released)
  }

  lemma NumbersNext(n: nat)
    ensures Numbers(n + 1) == Numbers(n) + multiset{n}
  {
    assert seq(n + 1, i => i) == seq(n, i => i) + [n];
  }

  lemma OrderKept(stack: seq<nat>, next: seq<nat>, acquired: nat, acquired': nat, released: seq<nat>, released': seq<nat>)
    requires InOrder(stack, acquired) && StackStep(stack, next, acquired, acquired', released, released')
    ensures InOrder(next, acquired')
  {
  }

  lemma AccountKept(stack: seq<nat>, next: seq<nat>, acquired: nat, acquired': nat, released: seq<nat>, released': seq<nat>)
    requires Accounted(released, stack, acquired) && StackStep(stack, next, acquired, acquired', released, released')
    ensures Accounted(released', next, acquired')
  {
    NumbersNext(acquired);
    if stack != [] {
      assert stack == stack[..|stack| - 1] + [stack[|stack| - 1]];
    }
  }

  lemma PushOnTop(w: World, id: Option<LedgerId>)
    requires HeapOk(w) && RecordOk(w.r) && id != None
    requires id == w.r.ledger || (id == w.r.networkLedger && Closers(w.ledgers, w.r.ledger) == [])
    ensures var v := Push(w, id, true);
      HeapOk(v) && OneStack(w, v) && v.panicked == w.panicked &&
      (id == w.r.networkLedger ==> Closers(v.ledgers, w.r.ledger) == [])
  {
  }

  lemma PopFromTop(w: World, id: LedgerId)
    requires HeapOk(w) && RecordOk(w.r) && id in w.ledgers && w.ledgers[id] != []
    requires Some(id) == w.r.ledger || (Some(id) == w.r.networkLedger && Closers(w.ledgers, w.r.ledger) == [])
    ensures var v := Pop(w, id);
      HeapOk(v) && OneStack(w, v) && (Some(id) == w.r.networkLedger ==> Closers(v.ledgers, w.r.ledger) == [])
  {
    var c := w.ledgers[id];
    assert c == c[..|c| - 1] + [c[|c| - 1]];
  }

  /** The parts of the state that only API calls, restarts and health failures change. */
  predicate SameRecordBooks(r: Record, s: Record) {
    && s.configured == r.configured && s.digest == r.digest && s.profiles == r.profiles
    && s.configureRequest == r.configureRequest && s.pending == r.pending
    && s.activeTarget == r.activeTarget && s.activeDigest == r.activeDigest
    && s.activeProfiles == r.activeProfiles && s.cleanupDone == r.cleanupDone
    && s.recoveryCount == r.recoveryCount && s.restartAfterCleanup == r.restartAfterCleanup
  }

  predicate SameBooks(w: World, v: World) {
    && SameRecordBooks(w.r, v.r)
    && v.committed == w.committed && v.loading == w.loading && v.autoStarts == w.autoStarts
  }

  /** At most one more call of Runtime.Start, and that one for a validated profile. */
  predicate StartsGrow(w: World, v: World) {
    v.starts == w.starts ||
    (|v.starts| == |w.starts| + 1 && v.starts[..|w.starts|] == w.starts && CallOk(w.committed, v.starts[|w.starts|]))
  }

  lemma BooksKept(w: World, v: World)
    requires SameBooks(w, v) && InventoryOk(w) && RecoveryOk(w)
    requires StartsGrow(w, v)
    ensures InventoryOk(v) && RecoveryOk(v)
  {
    forall k | 0 <= k < |v.starts| ensures CallOk(v.committed, v.starts[k]) {
      var c := v.starts[k];
      assert CallOk(w.committed, c) by {
        if k < |w.starts| {
          assert c == w.starts[k];
        }
      }
      var inv :| inv in w.committed && inv.digest == c.digest && c.position < |inv.profiles| && inv.profiles[c.position] == c.profile;
      assert inv in v.committed;
    }
  }

  lemma Solo(w: World, i: nat)
    requires WorkersOk(w) && i < |w.workers|
    ensures i == 0 && |w.workers| == 1 && AttemptActive(w.r.state)
  {
  }

  /** The structural half of the invariant, which the worker steps establish one by one. */
  predicate Shape(w: World) {
    !w.panicked && RecordOk(w.r) && HeapOk(w) && WorkersOk(w)
  }

  lemma InvFromShape(w: World, v: World)
    requires Inv(w) && Shape(v) && OneStack(w, v) && InventoryOk(v) && RecoveryOk(v)
    ensures Inv(v)
  {
    hide Stack, WorkersOk, HeapOk, RecordOk, InventoryOk, RecoveryOk, StackStep, InOrder, Accounted;
    OrderKept(Stack(w), Stack(v), w.acquired, v.acquired, w.released, v.released);
    AccountKept(Stack(w), Stack(v), w.acquired, v.acquired, w.released, v.released);
  }

  /** A step that ends by moving the only worker on to `pc`. */
  lemma GotoShape(u: World, pc: Pc)
    requires !u.panicked && RecordOk(u.r) && HeapOk(u) && |u.workers| == 1 && AttemptActive(u.r.state)
    requires WorkerOk(u, u.workers[0].(pc := pc))
    ensures Shape(Goto(u, 0, pc)) && Stack(Goto(u, 0, pc)) == Stack(u)
  {
    hide RecordOk;
  }

  /**
   What a worker step promises: while the VPN is up and no stop is requested,
   nothing about the network changes; once a stop is requested, no generation
   begins and Runtime.Start is not called again.
   */
  predicate Promises(w: World, v: World) {
    v.r.configureRequest == w.r.configureRequest &&
    if w.r.stopRequested then
      v.r.stopRequested && v.r.closing == w.r.closing && v.r.generation == w.r.generation && v.starts == w.starts
    else
      !v.r.stopRequested &&
      (w.r.vpnActive ==>
         v.r.vpnActive && v.r.networkGeneration == w.r.networkGeneration &&
         Closers(v.ledgers, v.r.networkLedger) == Closers(w.ledgers, w.r.networkLedger))
  }

  /** A step that keeps the books, owns what it acquired, and leaves the state well shaped. */
  ghost predicate GoodStep(w: World, v: World) {
    Shape(v) && OneStack(w, v) && SameBooks(w, v) && v.starts == w.starts && Promises(w, v)
  }

  /** A step of the only worker that changes nothing but its program counter. */
  lemma GotoGood(w: World, pc: Pc)
    requires Shape(w) && |w.workers| == 1 && WorkerOk(w, w.workers[0].(pc := pc))
    ensures GoodStep(w, Goto(w, 0, pc))
  {
    GotoShape(w, pc);
  }

  // -------------------------------------------------------- prepareNetwork

  lemma NetCheckGood(w: World)
    requires Shape(w) && |w.workers| == 1 && w.workers[0].pc.NetCheck?
    ensures GoodStep(w, NetCheckStep(w, 0))
  {
    assert TargetFits(w.r.activeTarget, w.r.activeDigest, w.r.activeProfiles) && w.r.activeProfiles != [];
    hide HeapOk, RecordOk, RunsAttempt, GoodStep;
    GotoGood(w, NetCheckStep(w, 0).workers[0].pc);
  }

  lemma AcquireGood(w: World, a: Answer, work: Option<LedgerId>, next: Pc)
    requires Shape(w) && |w.workers| == 1
    requires w.workers[0].pc == NetTunnel(work) || w.workers[0].pc == NetRuntime(work)
    requires next == NetRuntime(work) || next == NetActivate
    ensures GoodStep(w, AcquireStep(w, 0, a, work, next))
  {
    Solo(w, 0);
    if a.lease {
      PushOnTop(w, work);
    }
    hide HeapOk, RecordOk, RunsAttempt;
    GotoShape(Push(w, work, a.lease), AcquireStep(w, 0, a, work, next).workers[0].pc);
  }

  lemma ActivateGood(w: World)
    requires Shape(w) && |w.workers| == 1 && w.workers[0].pc.NetActivate?
    ensures GoodStep(w, ActivateStep(w, 0))
  {
    Solo(w, 0);
    var u := w.(r := ActivateNetwork(w.r));
    assert RecordOk(u.r) && HeapOk(u);
    assert RunsAttempt(u.r, w.cancelled, w.workers[0].ctx, w.workers[0].target);
    hide HeapOk, RecordOk, RunsAttempt;
    GotoShape(u, NetContext);
  }

  lemma NetContextGood(w: World)
    requires Shape(w) && |w.workers| == 1 && w.workers[0].pc.NetContext?
    ensures GoodStep(w, NetContextStep(w, 0))
  {
    assert w.r.state != Connected;
    hide HeapOk, RecordOk, RunsAttempt, GoodStep;
    GotoGood(w, NetContextStep(w, 0).workers[0].pc);
  }

  // ------------------------------------------------- runStart, per candidate

  lemma SnapshotGood(w: World)
    requires Shape(w) && |w.workers| == 1 && w.workers[0].pc.Snapshot?
    ensures GoodStep(w, SnapshotStep(w, 0))
  {
    assert TargetFits(w.r.activeTarget, w.r.activeDigest, w.r.activeProfiles);
    assert SameSelection(w.workers[0].target, w.r.activeTarget);
    hide HeapOk, RecordOk, RunsAttempt, GoodStep;
    GotoGood(w, SnapshotStep(w, 0).workers[0].pc);
  }

  lemma SameStack(w: World, v: World)
    requires v.ledgers == w.ledgers && v.r.ledger == w.r.ledger && v.r.networkLedger == w.r.networkLedger
    ensures Stack(v) == Stack(w)
  {
  }

  /** A candidate after the first runs under the next generation of the same attempt. */
  lemma NextCandidateGood(w: World, profiles: seq<Profile>, index: nat)
    requires Shape(w) && |w.workers| == 1 && w.workers[0].pc == Candidate(profiles, index)
    requires 0 < index < |profiles| && PrepareCandidate(w.r, Cancelled(w, 0)).accepted
    ensures GoodStep(w, CandidateStep(w, 0, profiles, index))
  {
    Solo(w, 0);
    var v := CandidateStep(w, 0, profiles, index);
    var me := w.workers[0].(generation := v.workers[0].generation);
    var u := w.(r := v.r, workers := [me]);
    assert RecordOk(u.r) && RunsAttempt(u.r, u.cancelled, me.ctx, me.target);
    hide RecordOk, RunsAttempt, Stack;
    assert HeapOk(u) && u.r.ledger == w.r.ledger;
    hide HeapOk;
    assert Stack(u) == Stack(w) by { SameStack(w, u); }
    GotoShape(u, v.workers[0].pc);
  }

  lemma CandidateGood(w: World, profiles: seq<Profile>, index: nat)
    requires Shape(w) && |w.workers| == 1 && w.workers[0].pc == Candidate(profiles, index)
    ensures GoodStep(w, CandidateStep(w, 0, profiles, index))
  {
    if 0 < index < |profiles| && PrepareCandidate(w.r, Cancelled(w, 0)).accepted {
      NextCandidateGood(w, profiles, index);
    } else {
      Solo(w, 0);
      var v := CandidateStep(w, 0, profiles, index);
      assert v == Goto(w, 0, v.workers[0].pc);
      hide RecordOk, HeapOk, GoodStep, Stack;
      GotoGood(w, v.workers[0].pc);
    }
  }

  predicate SameAttempt(r: Record, s: Record) {
    && s.ledger == r.ledger && s.networkLedger == r.networkLedger && s.vpnActive == r.vpnActive
    && s.generation == r.generation && s.networkGeneration == r.networkGeneration && s.cancel == r.cancel
    && s.activeTarget == r.activeTarget && s.activeDigest == r.activeDigest && s.activeProfiles == r.activeProfiles
  }

  lemma AdvanceKeeps(r: Record, cancelled: set<nat>, me: Worker, state: State, now: int)
    requires RecordOk(r) && RunsAttempt(r, cancelled, me.ctx, me.target) && r.vpnActive && AttemptActive(r.state)
    requires state == Probing || state == Preparing || state == Connected
    ensures var o := Advance(r, me.generation, state, now);
      && RecordOk(o.rec) && RunsAttempt(o.rec, cancelled, me.ctx, me.target) && SameAttempt(r, o.rec)
      && SameRecordBooks(r, o.rec) && AttemptActive(o.rec.state) && o.go == NoGo
      && o.rec.stopRequested == r.stopRequested && o.rec.closing == r.closing
      && (if o.accepted then o.rec.state == state && !r.stopRequested else o.rec == r)
  {
  }

  /** Announcing a state change leaves the heap and the stack as they were. */
  lemma AdvanceHeap(w: World, v: World)
    requires HeapOk(w) && SameAttempt(w.r, v.r) && v.ledgers == w.ledgers && v.cancelled == w.cancelled
    ensures HeapOk(v) && Stack(v) == Stack(w)
  {
  }

  lemma AnnounceGood(w: World, a: Answer, profiles: seq<Profile>, index: nat)
    requires Shape(w) && |w.workers| == 1 && w.workers[0].pc == Announce(profiles, index)
    ensures var v := AnnounceStep(w, 0, a, profiles, index);
      Shape(v) && OneStack(w, v) && SameBooks(w, v) && Promises(w, v)
  {
    Solo(w, 0);
    var me := w.workers[0];
    var v := AnnounceStep(w, 0, a, profiles, index);
    var u := w.(r := v.r, starts := v.starts);
    AdvanceKeeps(w.r, w.cancelled, me, if me.target.mode == ProfileIndex then Preparing else Probing, a.now);
    AdvanceHeap(w, u);
    hide HeapOk, RecordOk, RunsAttempt, Stack, Advance, SameRecordBooks;
    GotoShape(u, v.workers[0].pc);
  }

  lemma AnnouncedCallOk(w: World, a: Answer, profiles: seq<Profile>, index: nat)
    requires Shape(w) && InventoryOk(w) && |w.workers| == 1 && w.workers[0].pc == Announce(profiles, index)
    ensures StartsGrow(w, AnnounceStep(w, 0, a, profiles, index))
  {
    var me := w.workers[0];
    assert SameSelection(me.target, w.r.activeTarget) && TargetFits(w.r.activeTarget, w.r.activeDigest, w.r.activeProfiles);
    assert Inventory(w.r.activeDigest, w.r.activeProfiles) in w.committed;
    assert CallOk(w.committed, CallOf(w.r, me, profiles, index));
  }

  lemma StartReturnGood(w: World, a: Answer, profiles: seq<Profile>, index: nat)
    requires Shape(w) && |w.workers| == 1 && w.workers[0].pc == InStart(profiles, index)
    ensures GoodStep(w, StartReturnStep(w, 0, a, profiles, index))
  {
    Solo(w, 0);
    if a.lease {
      PushOnTop(w, w.r.ledger);
    }
    hide HeapOk, RecordOk, RunsAttempt;
    GotoShape(Push(w, w.r.ledger, a.lease), StartReturnStep(w, 0, a, profiles, index).workers[0].pc);
  }

  lemma StartedGood(w: World, profiles: seq<Profile>, index: nat, invalidLease: bool, err: Cause)
    requires Shape(w) && |w.workers| == 1 && w.workers[0].pc == Started(profiles, index, invalidLease, err)
    ensures GoodStep(w, StartedStep(w, 0, profiles, index, invalidLease, err))
  {
    hide HeapOk, RecordOk, RunsAttempt, GoodStep;
    GotoGood(w, StartedStep(w, 0, profiles, index, invalidLease, err).workers[0].pc);
  }

  lemma ConnectingGood(w: World, a: Answer)
    requires Shape(w) && |w.workers| == 1 && w.workers[0].pc.Connecting?
    ensures GoodStep(w, ConnectingStep(w, 0, a))
  {
    Solo(w, 0);
    var v := ConnectingStep(w, 0, a);
    var u := w.(r := v.r);
    AdvanceKeeps(w.r, w.cancelled, w.workers[0], Connected, a.now);
    AdvanceHeap(w, u);
    hide HeapOk, RecordOk, RunsAttempt, Stack, Advance, SameRecordBooks;
    GotoShape(u, v.workers[0].pc);
  }

  lemma WaitingGood(w: World, a: Answer)
    requires Shape(w) && |w.workers| == 1 && w.workers[0].pc.Waiting?
    ensures GoodStep(w, WaitingStep(w, 0, a))
  {
    assert w.r.state == Connected ==> w.workers[0].ctx !in w.cancelled;
    hide HeapOk, RecordOk, RunsAttempt;
    if a.health {
      GotoGood(w, Reporting);
    } else if Cancelled(w, 0) {
      GotoGood(w, FinLock(NoError));
    }
  }

  lemma HealthFailureKeeps(r: Record, cancelled: set<nat>, me: Worker, now: int)
    requires RecordOk(r) && RunsAttempt(r, cancelled, me.ctx, me.target) && me.generation == r.generation
    requires r.vpnActive && AttemptActive(r.state)
    ensures var o := ReportHealthFailure(r, me.generation, now);
      RecordOk(o.rec) && SameAttempt(r, o.rec) && o.rec.state != Connected && AttemptActive(o.rec.state) &&
      (o.cancels.Some? ==> o.cancels == r.cancel) && o.go == NoGo && !o.panics &&
      o.rec.stopRequested == r.stopRequested && o.rec.closing == r.closing && o.rec.configureRequest == r.configureRequest
  {
  }

  /** A health failure queues a restart within the budget, or reports that the budget is spent. */
  lemma HealthFailureBudget(w: World, v: World, me: Worker, now: int)
    requires RecordOk(w.r) && RecoveryOk(w) && InventoryOk(w) && AttemptActive(w.r.state)
    requires var o := ReportHealthFailure(w.r, me.generation, now);
      v.r == o.rec && v.autoStarts == (if o.accepted && WasStable(w.r, now) then 0 else w.autoStarts) &&
      v.starts == w.starts && v.committed == w.committed && v.loading == w.loading
    ensures RecoveryOk(v) && InventoryOk(v)
  {
  }

  lemma ReportingGood(w: World, a: Answer)
    requires Shape(w) && RecoveryOk(w) && InventoryOk(w) && |w.workers| == 1 && w.workers[0].pc.Reporting?
    ensures var v := ReportingStep(w, 0, a);
      Shape(v) && OneStack(w, v) && RecoveryOk(v) && InventoryOk(v) && Promises(w, v)
  {
    Solo(w, 0);
    var v := ReportingStep(w, 0, a);
    var me := w.workers[0];
    HealthFailureKeeps(w.r, w.cancelled, me, a.now);
    HealthFailureBudget(w, v, me, a.now);
    var u := w.(r := v.r, ledgers := v.ledgers, cancelled := v.cancelled, autoStarts := v.autoStarts);
    assert v.ledgers == w.ledgers && HeapOk(u);
    hide HeapOk, RecordOk, RunsAttempt, ReportHealthFailure, RecoveryOk, InventoryOk;
    GotoShape(u, v.workers[0].pc);
  }

  lemma ReleasingGood(w: World, a: Answer, next: Pc, work: Option<LedgerId>)
    requires Shape(w) && |w.workers| == 1 && w.workers[0].pc.Releasing? && w.workers[0].pc.work == work
    requires var pc := w.workers[0].pc; next == Retired(pc.profiles, pc.index, pc.invalidLease)
    ensures GoodStep(w, ReleasingStep(w, 0, a, next, work))
  {
    Solo(w, 0);
    assert work.Some? && work.value in w.ledgers;
    if w.ledgers[work.value] != [] && a.err == NoError {
      PopFromTop(w, work.value);
      var u := Pop(w, work.value);
      hide HeapOk, RecordOk, RunsAttempt;
      assert WorkerOk(u, u.workers[0]);
    } else {
      hide HeapOk, RecordOk, RunsAttempt, GoodStep;
      GotoGood(w, ReleasingStep(w, 0, a, next, work).workers[0].pc);
    }
  }

  lemma RetiredGood(w: World, profiles: seq<Profile>, index: nat, invalidLease: bool)
    requires Shape(w) && |w.workers| == 1 && w.workers[0].pc == Retired(profiles, index, invalidLease)
    ensures GoodStep(w, RetiredStep(w, 0, profiles, index, invalidLease))
  {
    hide HeapOk, RecordOk, RunsAttempt, GoodStep;
    GotoGood(w, RetiredStep(w, 0, profiles, index, invalidLease).workers[0].pc);
  }

  // ---------------------------------------------------------------- finish

  lemma FinLockGood(w: World, cause: Cause)
    requires Shape(w) && |w.workers| == 1 && w.workers[0].pc == FinLock(cause)
    ensures GoodStep(w, FinLockStep(w, 0, cause))
    ensures FinLockStep(w, 0, cause) == Goto(w, 0, FinAttempt(cause, w.r.ledger))
  {
    Solo(w, 0);
    hide HeapOk, RecordOk, GoodStep;
    GotoGood(w, FinAttempt(cause, w.r.ledger));
  }

  lemma FinAttemptGood(w: World, a: Answer, cause: Cause, work: Option<LedgerId>)
    requires Shape(w) && |w.workers| == 1 && w.workers[0].pc == FinAttempt(cause, work)
    ensures GoodStep(w, FinAttemptStep(w, 0, a, cause, work))
  {
    Solo(w, 0);
    var v := FinAttemptStep(w, 0, a, cause, work);
    if v.workers[0].pc.FinAttempt? {
      PopFromTop(w, work.value);
      var u := Pop(w, work.value);
      hide HeapOk, RecordOk;
      assert WorkerOk(u, u.workers[0]);
    } else {
      hide HeapOk, RecordOk, GoodStep;
      GotoGood(w, v.workers[0].pc);
    }
  }

  lemma FinDecideGood(w: World, cause: Cause, cleanupErr: bool)
    requires Shape(w) && |w.workers| == 1 && w.workers[0].pc == FinDecide(cause, cleanupErr)
    ensures GoodStep(w, FinDecideStep(w, 0, cause, cleanupErr))
  {
    Solo(w, 0);
    assert w.r.networkLedger != None;
    hide HeapOk, RecordOk, GoodStep;
    GotoGood(w, FinDecideStep(w, 0, cause, cleanupErr).workers[0].pc);
  }

  lemma FinNetworkGood(w: World, a: Answer, cause: Cause, network: LedgerId)
    requires Shape(w) && |w.workers| == 1 && w.workers[0].pc == FinNetwork(cause, network)
    ensures GoodStep(w, FinNetworkStep(w, 0, a, cause, network))
  {
    Solo(w, 0);
    var v := FinNetworkStep(w, 0, a, cause, network);
    if v.workers[0].pc.FinNetwork? {
      PopFromTop(w, network);
      var u := Pop(w, network);
      hide HeapOk, RecordOk;
      assert WorkerOk(u, u.workers[0]);
    } else {
      hide HeapOk, RecordOk, GoodStep;
      GotoGood(w, v.workers[0].pc);
    }
  }

  /** How the last critical section of finish can end. */
  predicate EndEffect(r: Record, o: Out, failed: bool, releaseNetwork: bool) {
    && !o.panics && o.cancels == None && RecordOk(o.rec)
    && o.rec.stopRequested == r.stopRequested && o.rec.closing == r.closing
    && (r.stopRequested ==> !o.go.GoStart?)
    && (r.vpnActive && !r.stopRequested ==> o.rec.vpnActive && o.rec.networkLedger == r.networkLedger)
    && o.rec.configured == r.configured && o.rec.digest == r.digest && o.rec.profiles == r.profiles
    && o.rec.configureRequest == r.configureRequest && o.rec.networkGeneration == r.networkGeneration
    && (o.go.GoStart? ==>
          var g := r.generation + 1;
          && !failed && !releaseNetwork && (r.restartAfterCleanup || r.pending.Some?)
          && o.go == GoStart(g, g, o.rec.activeTarget) && o.rec.generation == g
          && o.rec.ledger == Some(AttemptLedger(g)) && o.rec.cancel == Some(g) && o.rec.state == Probing
          && o.rec.vpnActive && o.rec.networkLedger == r.networkLedger
          && o.rec.pending == None && !o.rec.restartAfterCleanup
          && (if r.pending.Some? then
                o.rec.activeTarget == r.pending.value.target && o.rec.activeDigest == r.pending.value.digest &&
                o.rec.activeProfiles == r.pending.value.profiles && o.rec.recoveryCount == 0
              else
                o.rec.activeTarget == r.activeTarget && o.rec.activeDigest == r.activeDigest &&
                o.rec.activeProfiles == r.activeProfiles && o.rec.recoveryCount == r.recoveryCount))
    && (!o.go.GoStart? ==>
          && o.rec.generation == r.generation && o.rec.cancel == None
          && o.rec.activeTarget == r.activeTarget && o.rec.activeDigest == r.activeDigest
          && o.rec.activeProfiles == r.activeProfiles && o.rec.recoveryCount == r.recoveryCount
          && (o.rec.restartAfterCleanup ==> r.restartAfterCleanup)
          && (o.rec.pending == r.pending || o.rec.pending == None)
          && (if failed then
                o.go == NoGo && o.rec.state == Failed && o.rec.cleanupFailed && !o.rec.cleanupDone &&
                o.rec.ledger == r.ledger && o.rec.networkLedger == r.networkLedger
              else
                o.rec.ledger == None && o.rec.networkLedger == if releaseNetwork then None else r.networkLedger))
    && (o.go.GoFinish? ==> o.go.generation == r.generation && o.rec.state == Stopping)
    && (o.go == NoGo ==> !AttemptActive(o.rec.state))
  }

  lemma FinishEndEffect(r: Record, cause: Cause, releaseNetwork: bool, cleanupErr: bool)
    requires RecordOk(r) && AttemptActive(r.state) && r.state != Connected
    requires if releaseNetwork then ReleasesNetwork(r) else r.vpnActive
    ensures EndEffect(r, FinishEnd(r, r.generation, cause, releaseNetwork, cleanupErr),
                      cleanupErr || cause == CleanupError, releaseNetwork)
  {
    hide EndEffect, FinishEnd, RecordOk;
    if cleanupErr || cause == CleanupError {
      FinishFailedEffect(r, cause, releaseNetwork, cleanupErr);
    } else {
      FinishSettledEffect(r, cause, releaseNetwork);
    }
  }

  lemma FinishFailedEffect(r: Record, cause: Cause, releaseNetwork: bool, cleanupErr: bool)
    requires RecordOk(r) && AttemptActive(r.state) && r.state != Connected
    requires if releaseNetwork then ReleasesNetwork(r) else r.vpnActive
    requires cleanupErr || cause == CleanupError
    ensures EndEffect(r, FinishEnd(r, r.generation, cause, releaseNetwork, cleanupErr), true, releaseNetwork)
  {
    hide FinishReleased;
  }

  lemma FinishSettledEffect(r: Record, cause: Cause, releaseNetwork: bool)
    requires RecordOk(r) && AttemptActive(r.state) && r.state != Connected && cause != CleanupError
    requires if releaseNetwork then ReleasesNetwork(r) else r.vpnActive
    ensures EndEffect(r, FinishEnd(r, r.generation, cause, releaseNetwork, false), false, releaseNetwork)
  {
    hide FinishFailed;
  }

  lemma FinEndHeap(w: World, cause: Cause, releaseNetwork: bool, cleanupErr: bool)
    requires Shape(w) && |w.workers| == 1 && w.workers[0].pc == FinEnd(cause, releaseNetwork, cleanupErr)
    ensures var v := FinEndStep(w, 0, cause, releaseNetwork, cleanupErr);
      && RecordOk(v.r) && HeapOk(v) && Stack(v) == Stack(w) && !v.panicked
      && (v.workers != [] && StartPhase(v.workers[0].pc) ==> Closers(v.ledgers, v.r.ledger) == [])
  {
    FinishEndEffect(w.r, cause, releaseNetwork, cleanupErr);
    hide FinishEnd, RecordOk;
  }

  lemma FinEndWorkers(w: World, cause: Cause, releaseNetwork: bool, cleanupErr: bool)
    requires Shape(w) && InventoryOk(w)
    requires |w.workers| == 1 && w.workers[0].pc == FinEnd(cause, releaseNetwork, cleanupErr)
    ensures WorkersOk(FinEndStep(w, 0, cause, releaseNetwork, cleanupErr))
  {
    var v := FinEndStep(w, 0, cause, releaseNetwork, cleanupErr);
    FinishEndEffect(w.r, cause, releaseNetwork, cleanupErr);
    assert w.workers[0].generation == w.r.generation;
    var o := FinishEnd(w.r, w.r.generation, cause, releaseNetwork, cleanupErr);
    hide FinishEnd, RecordOk, HeapOk, Stack, InventoryOk;
    if o.go.GoStart? {
      FinEndStarts(w, cause, releaseNetwork, cleanupErr);
    } else {
      assert v.workers == Launch([], o.go) && v.r == o.rec;
      hide FinEndStep, Closers;
    }
  }

  lemma FinEndStarts(w: World, cause: Cause, releaseNetwork: bool, cleanupErr: bool)
    requires Shape(w) && InventoryOk(w)
    requires |w.workers| == 1 && w.workers[0].pc == FinEnd(cause, releaseNetwork, cleanupErr)
    requires FinishEnd(w.r, w.r.generation, cause, releaseNetwork, cleanupErr).go.GoStart?
    ensures WorkersOk(FinEndStep(w, 0, cause, releaseNetwork, cleanupErr))
  {
    var v := FinEndStep(w, 0, cause, releaseNetwork, cleanupErr);
    FinEndHeap(w, cause, releaseNetwork, cleanupErr);
    FinishEndEffect(w.r, cause, releaseNetwork, cleanupErr);
    assert !w.r.cleanupDone && w.workers[0].generation == w.r.generation;
    assert w.r.generation + 1 !in w.cancelled;
    hide FinishEnd, RecordOk, HeapOk, Stack, Closers, WorkersOk;
    var o := FinishEnd(w.r, w.r.generation, cause, releaseNetwork, cleanupErr);
    assert v.workers == Launch([], o.go) && v.r == o.rec && v.cancelled == w.cancelled;
    hide FinEndStep;
    assert Validated(w, o.rec.activeTarget, o.rec.activeDigest, o.rec.activeProfiles);
    assert RunsAttempt(v.r, v.cancelled, o.go.ctx, o.go.target);
    hide RunsAttempt, EndEffect;
    FreshWorkerOk(v, o.go);
  }

  /** A worker just launched on an attempt that owns nothing yet is where the invariant wants it. */
  lemma FreshWorkerOk(v: World, go: Go)
    requires go.GoStart? && v.workers == [Worker(go.ctx, go.generation, go.target, NetCheck)]
    requires go.generation == v.r.generation && v.r.state == Probing
    requires RunsAttempt(v.r, v.cancelled, go.ctx, go.target) && Closers(v.ledgers, v.r.ledger) == []
    ensures WorkersOk(v)
  {
    hide RunsAttempt, Closers;
  }

  lemma FinEndInventory(w: World, cause: Cause, releaseNetwork: bool, cleanupErr: bool)
    requires Shape(w) && InventoryOk(w)
    requires |w.workers| == 1 && w.workers[0].pc == FinEnd(cause, releaseNetwork, cleanupErr)
    ensures InventoryOk(FinEndStep(w, 0, cause, releaseNetwork, cleanupErr))
  {
    var v := FinEndStep(w, 0, cause, releaseNetwork, cleanupErr);
    FinishEndEffect(w.r, cause, releaseNetwork, cleanupErr);
    assert !w.r.cleanupDone && w.workers[0].generation == w.r.generation;
    hide FinishEnd, RecordOk, HeapOk, WorkersOk;
  }

  lemma FinEndNetwork(w: World, cause: Cause, releaseNetwork: bool, cleanupErr: bool)
    requires Shape(w)
    requires |w.workers| == 1 && w.workers[0].pc == FinEnd(cause, releaseNetwork, cleanupErr)
    ensures Promises(w, FinEndStep(w, 0, cause, releaseNetwork, cleanupErr))
  {
    FinishEndEffect(w.r, cause, releaseNetwork, cleanupErr);
    FinEndHeap(w, cause, releaseNetwork, cleanupErr);
  }

  lemma FinEndRecovery(w: World, cause: Cause, releaseNetwork: bool, cleanupErr: bool)
    requires Shape(w) && RecoveryOk(w)
    requires |w.workers| == 1 && w.workers[0].pc == FinEnd(cause, releaseNetwork, cleanupErr)
    ensures RecoveryOk(FinEndStep(w, 0, cause, releaseNetwork, cleanupErr))
  {
    FinishEndEffect(w.r, cause, releaseNetwork, cleanupErr);
    assert !w.r.cleanupDone && w.workers[0].generation == w.r.generation;
    assert w.r.restartAfterCleanup ==> w.r.pending == None;
    hide FinishEnd, HeapOk, WorkersOk;
  }

  // ------------------------------------------------------------ every step

  lemma GoodStepInv(w: World, v: World)
    requires Inv(w) && Shape(v) && OneStack(w, v) && SameBooks(w, v) && StartsGrow(w, v)
    ensures Inv(v)
  {
    BooksKept(w, v);
    InvFromShape(w, v);
  }

  lemma GoodInv(w: World, v: World)
    requires Inv(w) && GoodStep(w, v)
    ensures Inv(v) && OneStack(w, v) && Promises(w, v)
  {
    GoodStepInv(w, v);
  }

  lemma NetworkStepInv(w: World, a: Answer)
    requires Inv(w) && |w.workers| == 1
    requires var pc := w.workers[0].pc; pc.NetCheck? || pc.NetTunnel? || pc.NetRuntime? || pc.NetActivate? || pc.NetContext?
    ensures var v := WorkStep(w, 0, a); Inv(v) && OneStack(w, v) && Promises(w, v)
  {
    var v := WorkStep(w, 0, a);
    assert Shape(w);
    hide Inv, Shape, OneStack, Promises, GoodStep, NetCheckStep, AcquireStep, ActivateStep, NetContextStep;
    match w.workers[0].pc {
      case NetCheck => NetCheckGood(w);
      case NetTunnel(work) => AcquireGood(w, a, work, if w.networkRuntime then NetRuntime(work) else NetActivate);
      case NetRuntime(work) => AcquireGood(w, a, work, NetActivate);
      case NetActivate => ActivateGood(w);
      case NetContext => NetContextGood(w);
    }
    GoodInv(w, v);
  }

  lemma CandidateStepInv(w: World, a: Answer)
    requires Inv(w) && |w.workers| == 1
    requires var pc := w.workers[0].pc; pc.Snapshot? || pc.Candidate? || pc.InStart? || pc.Started?
    ensures var v := WorkStep(w, 0, a); Inv(v) && OneStack(w, v) && Promises(w, v)
  {
    var v := WorkStep(w, 0, a);
    assert Shape(w);
    hide Inv, Shape, OneStack, Promises, GoodStep, SnapshotStep, CandidateStep, StartReturnStep, StartedStep;
    match w.workers[0].pc {
      case Snapshot => SnapshotGood(w);
      case Candidate(profiles, index) => CandidateGood(w, profiles, index);
      case InStart(profiles, index) => StartReturnGood(w, a, profiles, index);
      case Started(profiles, index, invalidLease, err) => StartedGood(w, profiles, index, invalidLease, err);
    }
    GoodInv(w, v);
  }

  lemma AnnounceStepInv(w: World, a: Answer)
    requires Inv(w) && |w.workers| == 1 && w.workers[0].pc.Announce?
    ensures var v := WorkStep(w, 0, a); Inv(v) && OneStack(w, v) && Promises(w, v)
  {
    var profiles, index := w.workers[0].pc.profiles, w.workers[0].pc.index;
    var v := AnnounceStep(w, 0, a, profiles, index);
    assert WorkStep(w, 0, a) == v;
    assert Shape(w) && InventoryOk(w);
    hide Inv, Shape, OneStack, Promises, SameBooks, StartsGrow, InventoryOk, AnnounceStep;
    AnnounceGood(w, a, profiles, index);
    AnnouncedCallOk(w, a, profiles, index);
    GoodStepInv(w, v);
  }

  lemma ReportingStepInv(w: World, a: Answer)
    requires Inv(w) && |w.workers| == 1 && w.workers[0].pc.Reporting?
    ensures var v := WorkStep(w, 0, a); Inv(v) && OneStack(w, v) && Promises(w, v)
  {
    var v := ReportingStep(w, 0, a);
    assert WorkStep(w, 0, a) == v;
    assert Shape(w) && InventoryOk(w) && RecoveryOk(w);
    hide Inv, Shape, OneStack, Promises, InventoryOk, RecoveryOk, ReportingStep, WorkStep;
    ReportingGood(w, a);
    InvFromShape(w, v);
  }

  lemma SettleStepInv(w: World, a: Answer)
    requires Inv(w) && |w.workers| == 1
    requires var pc := w.workers[0].pc; pc.Connecting? || pc.Waiting? || pc.Retired?
    ensures var v := WorkStep(w, 0, a); Inv(v) && OneStack(w, v) && Promises(w, v)
  {
    var v := WorkStep(w, 0, a);
    assert Shape(w);
    hide Inv, Shape, OneStack, Promises, GoodStep, ConnectingStep, WaitingStep, RetiredStep;
    match w.workers[0].pc {
      case Connecting => ConnectingGood(w, a);
      case Waiting => WaitingGood(w, a);
      case Retired(profiles, index, invalidLease) => RetiredGood(w, profiles, index, invalidLease);
    }
    GoodInv(w, v);
  }

  lemma ReleasingStepInv(w: World, a: Answer)
    requires Inv(w) && |w.workers| == 1 && w.workers[0].pc.Releasing?
    ensures var v := WorkStep(w, 0, a); Inv(v) && OneStack(w, v) && Promises(w, v)
  {
    var pc := w.workers[0].pc;
    var next := Retired(pc.profiles, pc.index, pc.invalidLease);
    var v := ReleasingStep(w, 0, a, next, pc.work);
    assert WorkStep(w, 0, a) == v;
    assert Shape(w);
    hide Inv, Shape, OneStack, Promises, GoodStep, ReleasingStep, WorkStep;
    ReleasingGood(w, a, next, pc.work);
    GoodInv(w, v);
  }

  lemma FinishStepInv(w: World, a: Answer)
    requires Inv(w) && |w.workers| == 1
    requires var pc := w.workers[0].pc; pc.FinLock? || pc.FinDecide?
    ensures var v := WorkStep(w, 0, a); Inv(v) && OneStack(w, v) && Promises(w, v)
  {
    var v := WorkStep(w, 0, a);
    assert Shape(w);
    hide Inv, Shape, OneStack, Promises, GoodStep, FinLockStep, FinDecideStep;
    match w.workers[0].pc {
      case FinLock(cause) => FinLockGood(w, cause);
      case FinDecide(cause, cleanupErr) => FinDecideGood(w, cause, cleanupErr);
    }
    GoodInv(w, v);
  }

  lemma FinishReleaseInv(w: World, a: Answer)
    requires Inv(w) && |w.workers| == 1
    requires var pc := w.workers[0].pc; pc.FinAttempt? || pc.FinNetwork?
    ensures var v := WorkStep(w, 0, a); Inv(v) && OneStack(w, v) && Promises(w, v)
  {
    var v := WorkStep(w, 0, a);
    assert Shape(w);
    hide Inv, Shape, OneStack, Promises, GoodStep, FinAttemptStep, FinNetworkStep;
    match w.workers[0].pc {
      case FinAttempt(cause, work) => FinAttemptGood(w, a, cause, work);
      case FinNetwork(cause, network) => FinNetworkGood(w, a, cause, network);
    }
    GoodInv(w, v);
  }

  lemma FinEndStepInv(w: World, a: Answer)
    requires Inv(w) && |w.workers| == 1 && w.workers[0].pc.FinEnd?
    ensures var v := WorkStep(w, 0, a); Inv(v) && OneStack(w, v) && Promises(w, v)
  {
    var pc := w.workers[0].pc;
    var v := FinEndStep(w, 0, pc.cause, pc.releaseNetwork, pc.cleanupErr);
    assert WorkStep(w, 0, a) == v;
    assert Shape(w) && InventoryOk(w) && RecoveryOk(w);
    FinEndHistory(w, pc.cause, pc.releaseNetwork, pc.cleanupErr);
    hide Inv, InventoryOk, RecoveryOk, WorkersOk, HeapOk, RecordOk, FinEndStep, WorkStep, Stack, Promises;
    FinEndHeap(w, pc.cause, pc.releaseNetwork, pc.cleanupErr);
    FinEndWorkers(w, pc.cause, pc.releaseNetwork, pc.cleanupErr);
    FinEndInventory(w, pc.cause, pc.releaseNetwork, pc.cleanupErr);
    FinEndRecovery(w, pc.cause, pc.releaseNetwork, pc.cleanupErr);
    FinEndNetwork(w, pc.cause, pc.releaseNetwork, pc.cleanupErr);
    InvFromShape(w, v);
  }

  lemma FinEndHistory(w: World, cause: Cause, releaseNetwork: bool, cleanupErr: bool)
    requires |w.workers| == 1
    ensures var v := FinEndStep(w, 0, cause, releaseNetwork, cleanupErr);
      v.acquired == w.acquired && v.released == w.released
  {
  }

  lemma StepInv(w: World, e: Event)
    requires Inv(w)
    ensures Inv(Next(w, e)) && OneStack(w, Next(w, e))
    ensures e.Work? ==> Promises(w, Next(w, e))
  {
    if !e.Work? {
      CallInv(w, e);
      CallHistory(w, e);
    } else if e.i < |w.workers| {
      Solo(w, e.i);
      var pc, a := w.workers[0].pc, e.answer;
      hide Inv, WorkStep, OneStack, Promises;
      if pc.NetCheck? || pc.NetTunnel? || pc.NetRuntime? || pc.NetActivate? || pc.NetContext? {
        NetworkStepInv(w, a);
      } else if pc.Announce? {
        AnnounceStepInv(w, a);
      } else if pc.Reporting? {
        ReportingStepInv(w, a);
      } else if pc.Releasing? {
        ReleasingStepInv(w, a);
      } else if pc.Snapshot? || pc.Candidate? || pc.InStart? || pc.Started? {
        CandidateStepInv(w, a);
      } else if pc.FinEnd? {
        FinEndStepInv(w, a);
      } else if pc.FinLock? || pc.FinDecide? {
        FinishStepInv(w, a);
      } else if pc.FinAttempt? || pc.FinNetwork? {
        FinishReleaseInv(w, a);
      } else {
        SettleStepInv(w, a);
      }
    }
  }

  lemma CallHistory(w: World, e: Event)
    requires !e.Work?
    ensures var v := Next(w, e);
      v.acquired == w.acquired && v.released == w.released && v.starts == w.starts
  {
  }

  lemma {:induction false} RunInv(w: World, events: seq<Event>)
    requires Inv(w)
    ensures Inv(Run(w, events))
    decreases |events|
  {
    if events != [] {
      StepInv(w, events[0]);
      RunInv(Next(w, events[0]), events[1..]);
    }
  }
}
