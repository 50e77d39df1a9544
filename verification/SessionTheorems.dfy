/**
 What the invariant means for whole runs of the session manager: any sequence of
 API calls, worker steps and platform answers, from the initial state.
 */
module SessionTheorems {
  import opened Options
  import opened SessionRecord
  import opened SessionWorld
  import opened SessionInvariant

  lemma Reachable(networkRuntime: bool, events: seq<Event>)
    ensures Inv(Run(Init(networkRuntime), events))
  {
    InitInv(networkRuntime);
    RunInv(Init(networkRuntime), events);
  }

  lemma {:induction false} RunSplit(w: World, first: seq<Event>, rest: seq<Event>)
    ensures Run(w, first + rest) == Run(Run(w, first), rest)
    decreases |first|
  {
    if first == [] {
      assert first + rest == rest;
    } else {
      assert (first + rest)[0] == first[0] && (first + rest)[1..] == first[1..] + rest;
      RunSplit(Next(w, first[0]), first[1..], rest);
    }
  }

  // ---------------------------------------------------------- worker ownership

  /**
   One goroutine owns the session exactly while an attempt is active, it belongs
   to the current generation, and no step ever dereferences a nil ledger, cancel
   function or missing profile.
   */
  lemma OneWorker(networkRuntime: bool, events: seq<Event>)
    ensures var w := Run(Init(networkRuntime), events);
      && !w.panicked
      && |w.workers| == (if AttemptActive(w.r.state) then 1 else 0)
      && (forall k :: 0 <= k < |w.workers| ==> w.workers[k].generation == w.r.generation)
  {
    Reachable(networkRuntime, events);
    var w := Run(Init(networkRuntime), events);
    assert forall k :: 0 <= k < |w.workers| ==> WorkerOk(w, w.workers[k]);
  }

  /** finish never takes its early return, so it cannot leave resources behind. */
  lemma FinishAlwaysProceeds(networkRuntime: bool, events: seq<Event>, a: Answer)
    ensures var w := Run(Init(networkRuntime), events);
      |w.workers| == 1 && w.workers[0].pc.FinLock? ==>
        WorkStep(w, 0, a).workers == [w.workers[0].(pc := FinAttempt(w.workers[0].pc.cause, w.r.ledger))]
  {
    Reachable(networkRuntime, events);
    var w := Run(Init(networkRuntime), events);
    if |w.workers| == 1 && w.workers[0].pc.FinLock? {
      assert WorkerOk(w, w.workers[0]);
      FinLockGood(w, w.workers[0].pc.cause);
    }
  }

  /** When Runtime.Start is called, nothing acquired by an earlier candidate or attempt is still held. */
  lemma AttemptsNeverOverlap(networkRuntime: bool, events: seq<Event>, e: Event)
    ensures var w := Run(Init(networkRuntime), events); var v := Next(w, e);
      v.starts != w.starts ==>
        Stack(v) == Closers(w.ledgers, w.r.networkLedger) && v.r.vpnActive && !v.r.stopRequested
  {
    Reachable(networkRuntime, events);
    var w := Run(Init(networkRuntime), events);
    StartNeedsEmptyLedger(w, e);
  }

  lemma StartNeedsEmptyLedger(w: World, e: Event)
    requires Inv(w)
    ensures var v := Next(w, e);
      v.starts != w.starts ==>
        Stack(v) == Closers(w.ledgers, w.r.networkLedger) && v.r.vpnActive && !v.r.stopRequested
  {
    if e.Work? && e.i < |w.workers| {
      assert WorkerOk(w, w.workers[e.i]);
      OnlyAnnounceStarts(w, e.i, e.answer);
    } else if !e.Work? {
      CallHistory(w, e);
    }
  }

  /** What the steps before finish leave of the history. */
  lemma StartPhaseHistory(w: World, i: nat, a: Answer)
    requires i < |w.workers| && StartPhase(w.workers[i].pc)
    ensures !w.workers[i].pc.Announce? ==> WorkStep(w, i, a).starts == w.starts
    ensures !w.workers[i].pc.Reporting? ==> WorkStep(w, i, a).autoStarts == w.autoStarts
  {
    hide Advance, PrepareCandidate, ReportHealthFailure, Slice, CallOf, ActivateNetwork, AttemptActive, WasStable, Cancelled,
      ReportingStep, AnnounceStep;
    if w.workers[i].pc.Reporting? {
      ReportingHistory(w, i, a);
    } else if w.workers[i].pc.Announce? {
      AnnounceHistory(w, i, a, w.workers[i].pc.profiles, w.workers[i].pc.index);
    }
  }

  lemma ReportingHistory(w: World, i: nat, a: Answer)
    requires i < |w.workers|
    ensures ReportingStep(w, i, a).starts == w.starts
  {
    hide ReportHealthFailure, Launch, Allocate, WasStable;
  }

  lemma AnnounceHistory(w: World, i: nat, a: Answer, profiles: seq<Profile>, index: nat)
    requires i < |w.workers|
    ensures AnnounceStep(w, i, a, profiles, index).autoStarts == w.autoStarts
  {
    hide Advance, CallOf;
  }

  /** The steps of finish call no Runtime.Start and, but for the last, begin no attempt. */
  lemma FinishHistory(w: World, i: nat, a: Answer)
    requires i < |w.workers| && !StartPhase(w.workers[i].pc)
    ensures WorkStep(w, i, a).starts == w.starts
    ensures !w.workers[i].pc.FinEnd? ==> WorkStep(w, i, a).autoStarts == w.autoStarts
  {
    hide FinishEnd, Launch, Allocate, AttemptActive, ReleasesNetwork;
  }

  lemma OnlyAnnounceStarts(w: World, i: nat, a: Answer)
    requires i < |w.workers|
    ensures !w.workers[i].pc.Announce? ==> WorkStep(w, i, a).starts == w.starts
  {
    hide WorkStep;
    if StartPhase(w.workers[i].pc) {
      StartPhaseHistory(w, i, a);
    } else {
      FinishHistory(w, i, a);
    }
  }

  // ----------------------------------------------------- protection continuity

  predicate AcceptedStop(w: World, e: Event) {
    e.StopAndWaitCalled? || (e.StopCalled? && AcceptsStop(w.r, e.generation))
  }

  predicate NoStopAccepted(w: World, events: seq<Event>)
    decreases |events|
  {
    events == [] || (!AcceptedStop(w, events[0]) && NoStopAccepted(Next(w, events[0]), events[1..]))
  }

  /** The VPN is up, no stop has been requested, and these closers hold it. */
  predicate Protected(w: World, networkGeneration: nat, closers: seq<nat>) {
    && w.r.vpnActive && !w.r.stopRequested
    && w.r.networkGeneration == networkGeneration
    && Closers(w.ledgers, w.r.networkLedger) == closers
  }

  /** The critical section an API call runs, with the effect proved for it. */
  predicate CallRuns(w: World, e: Event, o: Out) {
    && CallEffect(w.r, o)
    && Next(w, e).r == o.rec && Next(w, e).ledgers == Enact(w, o).ledgers && Next(w, e).workers == Enact(w, o).workers
    && (AcceptedStop(w, e) || (o.rec.stopRequested ==> w.r.stopRequested))
    && (w.r.closing && !o.rec.closing ==> e.ResumeCalled?)
    && (o.go.GoStart? ==> e.StartCalled?)
  }

  lemma ConfigureRuns(w: World, e: Event) returns (o: Out)
    requires Inv(w) && (e.ConfigureBegin? || e.ConfigureLoadFailed? || e.ConfigureEnd?)
    ensures CallRuns(w, e, o)
  {
    var r := w.r;
    CommittedInventory(w);
    RejectEffect(w);
    hide Inv, Launch, Allocate, CallEffect, ConfigureCommit;
    o := Reject(r);
    match e {
      case ConfigureBegin(expected, ctxErr) =>
        ConfigureAdmitEffect(r, expected, ctxErr);
        if ConfigureAdmit(r, expected, ctxErr).accepted {
          o := ConfigureAdmit(r, expected, ctxErr);
        }
      case ConfigureLoadFailed(request) =>
      case ConfigureEnd(request, loaded, ctxErr, storeErr) =>
        ConfigureCommitEffect(r, request, loaded, ctxErr, storeErr);
        if request in w.loading {
          o := ConfigureCommit(r, request, loaded, ctxErr, storeErr);
        }
    }
  }

  lemma CallIs(w: World, e: Event) returns (o: Out)
    requires Inv(w) && !e.Work?
    ensures CallRuns(w, e, o)
  {
    var r := w.r;
    CommittedInventory(w);
    hide Inv, Launch, Allocate, CallEffect, Start, Stop, StopAndWait, Resume, SameInventory;
    match e {
      case StartCalled(expected, target, supplied, saveErr) =>
        o := Start(r, expected, target, supplied, saveErr);
        StartEffect(r, expected, target, supplied, saveErr);
      case StopCalled(generation) =>
        o := Stop(r, generation);
        StopEffect(r, generation);
      case StopAndWaitCalled =>
        o := StopAndWait(r);
        StopAndWaitEffect(r);
      case ResumeCalled =>
        o := Resume(r);
        ResumeEffect(r);
      case _ =>
        o := ConfigureRuns(w, e);
    }
  }

  lemma RejectEffect(w: World)
    requires Inv(w)
    ensures CallEffect(w.r, Reject(w.r)) && Enact(w, Reject(w.r)) == w
  {
  }

  lemma ProtectedAcrossCall(w: World, e: Event, n: nat, closers: seq<nat>)
    requires Inv(w) && Protected(w, n, closers) && !e.Work? && !AcceptedStop(w, e)
    ensures Protected(Next(w, e), n, closers)
  {
    assert RecordOk(w.r) && HeapOk(w);
    hide Inv, RecordOk, Next;
    var o := CallIs(w, e);
    assert o.rec.networkLedger == w.r.networkLedger;
  }

  /**
   Once the VPN is up it stays up, in the same network generation and with every
   network closer untouched, through failed candidates, health recoveries,
   switches, retries and Configures, until a Stop or StopAndWait is accepted.
   */
  lemma {:induction false} ProtectionContinuity(w: World, events: seq<Event>, n: nat, closers: seq<nat>)
    requires Inv(w) && Protected(w, n, closers) && NoStopAccepted(w, events)
    ensures Protected(Run(w, events), n, closers)
    decreases |events|
  {
    if events != [] {
      StepInv(w, events[0]);
      ProtectedAcrossStep(w, events[0], n, closers);
      ProtectionContinuity(Next(w, events[0]), events[1..], n, closers);
    }
  }

  lemma ProtectedAcrossStep(w: World, e: Event, n: nat, closers: seq<nat>)
    requires Inv(w) && Protected(w, n, closers) && !AcceptedStop(w, e)
    ensures Protected(Next(w, e), n, closers)
  {
    if e.Work? {
      hide Inv, Next;
      StepInv(w, e);
    } else {
      ProtectedAcrossCall(w, e, n, closers);
    }
  }

  // ---------------------------------------------------- stop and closing fences

  /** A Start that is accepted and begins an attempt. */
  predicate FreshStart(w: World, e: Event) {
    e.StartCalled? && Start(w.r, e.expected, e.target, e.supplied, e.saveErr).go.GoStart?
  }

  predicate NoFreshStart(w: World, events: seq<Event>)
    decreases |events|
  {
    events == [] || (!FreshStart(w, events[0]) && NoFreshStart(Next(w, events[0]), events[1..]))
  }

  lemma FencedStep(w: World, e: Event)
    requires Inv(w) && w.r.stopRequested && !FreshStart(w, e)
    ensures var v := Next(w, e);
      v.r.stopRequested && v.r.generation == w.r.generation && v.starts == w.starts
  {
    if e.Work? {
      hide Inv, Next;
      StepInv(w, e);
    } else {
      var o := CallIs(w, e);
      CallHistory(w, e);
      GoStartOnlyFresh(w, e);
      hide Inv, Next, RecordOk;
    }
  }

  lemma GoStartOnlyFresh(w: World, e: Event)
    requires !e.Work? && !FreshStart(w, e)
    ensures |Next(w, e).workers| > |w.workers| ==> !StartPhase(Next(w, e).workers[|w.workers|].pc)
  {
  }

  /**
   After an accepted Stop no generation begins and Runtime.Start is not called
   again, however the run continues, until a fresh Start is accepted.
   */
  lemma {:induction false} StopFence(w: World, events: seq<Event>)
    requires Inv(w) && w.r.stopRequested && NoFreshStart(w, events)
    ensures var v := Run(w, events);
      v.r.stopRequested && v.r.generation == w.r.generation && v.starts == w.starts
    decreases |events|
  {
    if events != [] {
      StepInv(w, events[0]);
      FencedStep(w, events[0]);
      StopFence(Next(w, events[0]), events[1..]);
    }
  }

  /** The call of Stop or StopAndWait that raises the fence. */
  lemma StopRaisesFence(w: World, e: Event)
    requires AcceptedStop(w, e)
    ensures Next(w, e).r.stopRequested
  {
    hide AttemptActive, RetryableCleanup, Launch, Allocate;
    if e.StopCalled? {
      assert Next(w, e).r == Stop(w.r, e.generation).rec;
      hide Next, StopAndWait;
    }
  }

  predicate NoResume(events: seq<Event>) { forall k :: 0 <= k < |events| ==> !events[k].ResumeCalled? }

  /**
   StopAndWait is a stronger fence: until Resume even a fresh Start is refused,
   so no generation begins and no Runtime.Start is called whatever else happens.
   */
  lemma {:induction false} CloseFence(w: World, events: seq<Event>)
    requires Inv(w) && w.r.closing && NoResume(events)
    ensures var v := Run(w, events);
      v.r.closing && v.r.generation == w.r.generation && v.starts == w.starts
    decreases |events|
  {
    if events != [] {
      var e := events[0];
      StepInv(w, e);
      assert !e.ResumeCalled?;
      ClosedStep(w, e);
      CloseFence(Next(w, e), events[1..]);
    }
  }

  lemma ClosedStep(w: World, e: Event)
    requires Inv(w) && w.r.closing && !e.ResumeCalled?
    ensures var v := Next(w, e);
      v.r.closing && v.r.generation == w.r.generation && v.starts == w.starts
  {
    assert w.r.stopRequested;
    if !e.Work? {
      var o := CallIs(w, e);
      assert !FreshStart(w, e);
    } else {
      StepInv(w, e);
    }
    FencedStep(w, e);
  }

  /** Resume succeeds only when every closer ever acquired has succeeded. */
  lemma ResumeNeedsCleanup(networkRuntime: bool, events: seq<Event>)
    ensures var w := Run(Init(networkRuntime), events); var v := Next(w, ResumeCalled);
      w.r.closing && !v.r.closing ==> w.workers == [] && multiset(w.released) == Numbers(w.acquired)
  {
    TruthfulCleanup(networkRuntime, events);
  }

  // --------------------------------------------------------- truthful cleanup

  /**
   cleanupDone means every closer ever acquired has succeeded exactly once and
   nobody works; cleanupFailed means the session still holds its ledgers.
   */
  lemma TruthfulCleanup(networkRuntime: bool, events: seq<Event>)
    ensures var w := Run(Init(networkRuntime), events); var r := w.r;
      && (r.cleanupDone ==>
            && r.ledger == None && r.networkLedger == None && !r.vpnActive && w.workers == []
            && multiset(w.released) == Numbers(w.acquired))
      && (r.cleanupFailed ==> !r.cleanupDone && r.state == Failed && RetryableCleanup(r))
      && Accounted(w.released, Stack(w), w.acquired)
  {
    Reachable(networkRuntime, events);
  }

  /** After a failed cleanup, an accepted Stop puts one worker on exactly what is still held. */
  lemma StopRetriesCleanup(networkRuntime: bool, events: seq<Event>, generation: nat)
    ensures var w := Run(Init(networkRuntime), events); var v := Next(w, StopCalled(generation));
      w.r.cleanupFailed && AcceptsStop(w.r, generation) ==>
        && v.r.state == Stopping && Stack(v) == Stack(w)
        && v.workers == [Worker(0, w.r.generation, NoTarget, FinLock(NoError))]
  {
    Reachable(networkRuntime, events);
    var w := Run(Init(networkRuntime), events);
    CallInv(w, StopCalled(generation));
  }

  // ------------------------------------------------------------ teardown order

  /**
   Whatever fails and is retried, one step releases at most one closer, and it is
   the most recently acquired of all those still held: attempt before network,
   last before first.
   */
  lemma TeardownOrder(networkRuntime: bool, events: seq<Event>, e: Event)
    ensures var w := Run(Init(networkRuntime), events); var v := Next(w, e);
      v.released != w.released ==>
        exists c :: v.released == w.released + [c] && c in Stack(w) && c !in Stack(v) &&
                    (forall d :: d in Stack(v) ==> d < c)
  {
    Reachable(networkRuntime, events);
    var w := Run(Init(networkRuntime), events);
    StepInv(w, e);
    TopIsLatest(Stack(w), Stack(Next(w, e)), w.acquired, Next(w, e).acquired, w.released, Next(w, e).released);
  }

  lemma TopIsLatest(stack: seq<nat>, next: seq<nat>, acquired: nat, acquired': nat, released: seq<nat>, released': seq<nat>)
    requires InOrder(stack, acquired) && StackStep(stack, next, acquired, acquired', released, released')
    ensures released' != released ==>
              exists c :: released' == released + [c] && c in stack && c !in next && (forall d :: d in next ==> d < c)
  {
    if released' != released {
      var c := stack[|stack| - 1];
      assert released' == released + [c];
      assert forall k :: 0 <= k < |next| ==> next[k] == stack[k];
    }
  }

  // ---------------------------------------------------------- bounded recovery

  /** The step in which cleanup ends and a restart queued by a health failure begins. */
  predicate StartsAutomatically(w: World, e: Event) {
    e.Work? && e.i < |w.workers| && w.workers[e.i].pc.FinEnd? && w.r.pending == None &&
    var pc := w.workers[e.i].pc;
    FinishEnd(w.r, w.workers[e.i].generation, pc.cause, pc.releaseNetwork, pc.cleanupErr).go.GoStart?
  }

  /** A user Start or Retry, a switch taking over, or the failure of a connection that was stable. */
  predicate RenewsBudget(w: World, e: Event) {
    || FreshStart(w, e)
    || (e.Work? && e.i < |w.workers| && w.workers[e.i].pc.FinEnd? && w.r.pending != None)
    || (e.Work? && e.i < |w.workers| && w.workers[e.i].pc.Reporting? && WasStable(w.r, e.answer.now))
  }

  function AutomaticStarts(w: World, events: seq<Event>): nat
    decreases |events|
  {
    if events == [] then 0
    else (if StartsAutomatically(w, events[0]) then 1 else 0) + AutomaticStarts(Next(w, events[0]), events[1..])
  }

  predicate BudgetNotRenewed(w: World, events: seq<Event>)
    decreases |events|
  {
    events == [] || (!RenewsBudget(w, events[0]) && BudgetNotRenewed(Next(w, events[0]), events[1..]))
  }

  lemma BudgetWork(w: World, i: nat, a: Answer)
    requires i < |w.workers| && !RenewsBudget(w, Work(i, a))
    ensures WorkStep(w, i, a).autoStarts == w.autoStarts + if StartsAutomatically(w, Work(i, a)) then 1 else 0
  {
    var pc := w.workers[i].pc;
    if pc.FinEnd? {
      hide FinishEnd, Launch, Allocate;
      assert WorkStep(w, i, a) == FinEndStep(w, i, pc.cause, pc.releaseNetwork, pc.cleanupErr);
    } else if pc.Reporting? {
      hide ReportHealthFailure, Launch, Allocate, WasStable;
      assert WorkStep(w, i, a) == ReportingStep(w, i, a);
    } else {
      hide WorkStep;
      if StartPhase(pc) {
        StartPhaseHistory(w, i, a);
      } else {
        FinishHistory(w, i, a);
      }
    }
  }

  lemma BudgetStep(w: World, e: Event)
    requires !RenewsBudget(w, e)
    ensures Next(w, e).autoStarts == w.autoStarts + if StartsAutomatically(w, e) then 1 else 0
  {
    hide Start, Stop, StopAndWait, Resume, ConfigureAdmit, ConfigureCommit, WorkStep, FinishEnd, Launch, Allocate;
    if e.Work? && e.i < |w.workers| {
      BudgetWork(w, e.i, e.answer);
    }
  }

  /** From any reachable state at most three attempts begin automatically before the budget is renewed. */
  lemma {:induction false} BoundedRecovery(w: World, events: seq<Event>)
    requires Inv(w) && BudgetNotRenewed(w, events)
    ensures w.autoStarts + AutomaticStarts(w, events) <= AUTO_RECOVERY_LIMIT
    decreases |events|
  {
    if events != [] {
      StepInv(w, events[0]);
      BudgetStep(w, events[0]);
      BoundedRecovery(Next(w, events[0]), events[1..]);
    }
  }

  /** A queued switch and a queued health restart exclude each other. */
  lemma SwitchExcludesRestart(networkRuntime: bool, events: seq<Event>)
    ensures var r := Run(Init(networkRuntime), events).r;
      && !(r.pending.Some? && r.restartAfterCleanup)
      && (r.pending.Some? || r.restartAfterCleanup ==> r.state == Stopping && r.vpnActive && !r.stopRequested)
  {
    Reachable(networkRuntime, events);
  }

  // ------------------------------------------------------ inventory consistency

  /**
   Every call of Runtime.Start that was ever made used a profile at an in-range
   position of an inventory some Configure had committed, under that digest.
   */
  lemma StartsUseCommittedProfiles(networkRuntime: bool, events: seq<Event>, k: nat)
    requires k < |Run(Init(networkRuntime), events).starts|
    ensures var w := Run(Init(networkRuntime), events); var c := w.starts[k];
      exists inv :: inv in w.committed && inv.digest == c.digest &&
                    c.position < |inv.profiles| && inv.profiles[c.position] == c.profile
  {
    Reachable(networkRuntime, events);
    var w := Run(Init(networkRuntime), events);
    assert CallOk(w.committed, w.starts[k]);
  }

  /** The selection a running attempt uses was validated against the inventory it uses, whatever was configured since. */
  lemma ActiveSelectionFits(networkRuntime: bool, events: seq<Event>)
    ensures var w := Run(Init(networkRuntime), events); var r := w.r;
      && (AttemptActive(r.state) ==>
            Inventory(r.activeDigest, r.activeProfiles) in w.committed &&
            TargetFits(r.activeTarget, r.activeDigest, r.activeProfiles))
      && (r.pending.Some? ==>
            Inventory(r.pending.value.digest, r.pending.value.profiles) in w.committed &&
            TargetFits(r.pending.value.target, r.pending.value.digest, r.pending.value.profiles))
  {
    Reachable(networkRuntime, events);
  }

  lemma RequestsOnlyGrow(w: World, e: Event)
    requires Inv(w)
    ensures w.r.configureRequest <= Next(w, e).r.configureRequest
  {
    if e.Work? {
      hide Inv, Next;
      StepInv(w, e);
    } else {
      hide Inv, Next, RecordOk;
      var o := CallIs(w, e);
    }
  }

  /**
   Once a later Configure has been admitted, no earlier one can commit: its
   second critical section leaves the record as it found it, however long it took.
   */
  lemma {:induction false} SupersededConfigureNeverCommits(w: World, events: seq<Event>, request: nat,
      loaded: Inventory, ctxErr: bool, storeErr: bool)
    requires Inv(w) && request < w.r.configureRequest
    ensures var v := Run(w, events); Next(v, ConfigureEnd(request, loaded, ctxErr, storeErr)).r == v.r
    decreases |events|
  {
    if events != [] {
      StepInv(w, events[0]);
      RequestsOnlyGrow(w, events[0]);
      hide Inv, Next;
      SupersededConfigureNeverCommits(Next(w, events[0]), events[1..], request, loaded, ctxErr, storeErr);
    } else {
      LateConfigure(w, request, loaded, ctxErr, storeErr);
    }
  }

  lemma LateConfigure(w: World, request: nat, loaded: Inventory, ctxErr: bool, storeErr: bool)
    requires request < w.r.configureRequest
    ensures Next(w, ConfigureEnd(request, loaded, ctxErr, storeErr)).r == w.r
  {
  }

  // --------------------------------------------------- release stays possible

  /** How far a stopped worker is from settling. */
  function Distance(pc: Pc): nat {
    match pc
    case NetCheck => 20
    case NetTunnel(_) => 19
    case NetRuntime(_) => 18
    case NetActivate => 17
    case NetContext => 16
    case Snapshot => 15
    case Candidate(_, _) => 14
    case Announce(_, _) => 13
    case InStart(_, _) => 12
    case Started(_, _, _, _) => 11
    case Connecting => 10
    case Waiting => 9
    case Reporting => 8
    case Releasing(_, _, _, _) => 7
    case Retired(_, _, _) => 6
    case FinEnd(_, releaseNetwork, _) => if releaseNetwork then 0 else 5
    case FinLock(_) => 4
    case FinAttempt(_, _) => 3
    case FinDecide(_, _) => 2
    case FinNetwork(_, _) => 1
  }

  /** Closers succeed; anything else may succeed or fail, but reports no failed cleanup of its own. */
  predicate Gentle(pc: Pc, a: Answer) {
    a.err != CleanupError && (pc.Releasing? || pc.FinAttempt? || pc.FinNetwork? ==> a.err == NoError)
  }

  /** No cleanup has failed yet in this worker's hands. */
  predicate Untroubled(pc: Pc) {
    && (pc.Started? ==> pc.err != CleanupError)
    && (pc.FinLock? || pc.FinAttempt? || pc.FinDecide? || pc.FinNetwork? || pc.FinEnd? ==> pc.cause != CleanupError)
    && (pc.FinDecide? || pc.FinEnd? ==> !pc.cleanupErr)
  }

  /** The worker either came closer to settling or released a closer. */
  predicate Closer(w: World, v: World) {
    |w.workers| == 1 && |v.workers| == 1 &&
    (Distance(v.workers[0].pc) < Distance(w.workers[0].pc) ||
     (v.workers[0].pc == w.workers[0].pc && |Stack(v)| < |Stack(w)|)) &&
    (Untroubled(w.workers[0].pc) ==> Untroubled(v.workers[0].pc))
  }

  predicate NetPhase(pc: Pc) {
    pc.NetCheck? || BeforeActivation(pc) || pc.NetContext? || pc.Snapshot?
  }

  lemma CalmAcquire(w: World, a: Answer)
    requires |w.workers| == 1 && (w.workers[0].pc.NetTunnel? || w.workers[0].pc.NetRuntime?)
    requires Gentle(w.workers[0].pc, a)
    ensures Closer(w, WorkStep(w, 0, a))
  {
    hide Stack;
  }

  lemma CalmNet(w: World, a: Answer)
    requires |w.workers| == 1 && NetPhase(w.workers[0].pc)
    requires RunsAttempt(w.r, w.cancelled, w.workers[0].ctx, w.workers[0].target)
    requires Gentle(w.workers[0].pc, a)
    ensures Closer(w, WorkStep(w, 0, a))
  {
    if w.workers[0].pc.NetTunnel? || w.workers[0].pc.NetRuntime? {
      hide Closer, WorkStep, Gentle;
      CalmAcquire(w, a);
    } else {
      hide Slice, AcquireStep, Stack;
    }
  }

  lemma CalmCandidate(w: World, a: Answer)
    requires Inv(w) && w.r.stopRequested && |w.workers| == 1
    requires var pc := w.workers[0].pc; StartPhase(pc) && !pc.Releasing? && !NetPhase(pc)
    requires Gentle(w.workers[0].pc, a)
    ensures Closer(w, WorkStep(w, 0, a))
  {
    assert WorkerOk(w, w.workers[0]) && RecordOk(w.r) && AttemptActive(w.r.state);
    assert w.r.state == Stopping && Cancelled(w, 0);
    hide Inv, RecordOk, WorkStep, Closer;
    CalmCandidateStep(w, a);
  }

  lemma CalmCandidateStep(w: World, a: Answer)
    requires |w.workers| == 1 && WorkerOk(w, w.workers[0]) && w.r.state == Stopping && w.r.stopRequested && Cancelled(w, 0)
    requires var pc := w.workers[0].pc; StartPhase(pc) && !pc.Releasing? && !NetPhase(pc)
    requires Gentle(w.workers[0].pc, a)
    ensures Closer(w, WorkStep(w, 0, a))
  {
    hide Stack;
    if w.workers[0].pc.Reporting? {
      assert WorkStep(w, 0, a) == ReportingStep(w, 0, a);
      ReportingCloser(w, a);
      hide WorkStep, Closer;
    } else if w.workers[0].pc.Candidate? || w.workers[0].pc.Announce? {
      AnnouncingCloser(w, a);
      hide WorkStep, Closer;
    } else {
      hide ReportingStep, CandidateStep, AnnounceStep;
    }
  }

  lemma AnnouncingCloser(w: World, a: Answer)
    requires |w.workers| == 1 && WorkerOk(w, w.workers[0]) && w.r.state == Stopping && w.r.stopRequested && Cancelled(w, 0)
    requires w.workers[0].pc.Candidate? || w.workers[0].pc.Announce?
    ensures Closer(w, WorkStep(w, 0, a))
  {
    hide Stack;
  }

  lemma ReportingCloser(w: World, a: Answer)
    requires |w.workers| == 1 && w.workers[0].pc.Reporting? && w.r.state == Stopping
    ensures Closer(w, ReportingStep(w, 0, a))
  {
    hide PrepareHealthRecovery, Stack, WasStable;
  }

  lemma CalmStart(w: World, a: Answer)
    requires Inv(w) && w.r.stopRequested && |w.workers| == 1 && StartPhase(w.workers[0].pc) && !w.workers[0].pc.Releasing?
    requires Gentle(w.workers[0].pc, a)
    ensures Closer(w, WorkStep(w, 0, a))
  {
    assert WorkerOk(w, w.workers[0]);
    hide Inv, Closer, WorkStep;
    if NetPhase(w.workers[0].pc) {
      CalmNet(w, a);
    } else {
      CalmCandidate(w, a);
    }
  }

  lemma CalmRelease(w: World, id: LedgerId, a: Answer)
    requires Inv(w) && w.r.stopRequested && |w.workers| == 1
    requires var pc := w.workers[0].pc;
      ((pc.Releasing? || pc.FinAttempt?) && pc.work == Some(id)) || (pc.FinNetwork? && pc.network == id)
    requires Gentle(w.workers[0].pc, a)
    ensures Closer(w, WorkStep(w, 0, a))
  {
    assert WorkerOk(w, w.workers[0]) && RecordOk(w.r) && HeapOk(w) && AttemptActive(w.r.state);
    assert id in w.ledgers;
    if w.ledgers[id] != [] {
      PopFromTop(w, id);
      StackShrinks(w, Pop(w, id));
    }
    hide Inv, RecordOk, HeapOk, Stack, OneStack, WorkerOk;
    CalmReleaseStep(w, id, a);
  }

  lemma CalmReleaseStep(w: World, id: LedgerId, a: Answer)
    requires |w.workers| == 1 && id in w.ledgers
    requires var pc := w.workers[0].pc;
      ((pc.Releasing? || pc.FinAttempt?) && pc.work == Some(id)) || (pc.FinNetwork? && pc.network == id)
    requires w.ledgers[id] != [] ==> |Stack(Pop(w, id))| < |Stack(w)|
    requires Gentle(w.workers[0].pc, a)
    ensures Closer(w, WorkStep(w, 0, a))
  {
    hide Stack;
  }

  lemma StackShrinks(w: World, v: World)
    requires OneStack(w, v) && v.released != w.released
    ensures |Stack(v)| < |Stack(w)|
  {
  }

  lemma CalmNothing(w: World, a: Answer)
    requires |w.workers| == 1 && w.workers[0].pc.FinAttempt? && w.workers[0].pc.work == None
    requires Gentle(w.workers[0].pc, a)
    ensures Closer(w, WorkStep(w, 0, a))
  {
  }

  lemma CalmFinish(w: World, a: Answer)
    requires Inv(w) && w.r.stopRequested && |w.workers| == 1
    requires var pc := w.workers[0].pc; pc.FinLock? || pc.FinDecide?
    requires Gentle(w.workers[0].pc, a)
    ensures Closer(w, WorkStep(w, 0, a))
  {
    assert WorkerOk(w, w.workers[0]) && RecordOk(w.r) && AttemptActive(w.r.state);
    hide Inv, RecordOk;
  }

  lemma CalmEnd(w: World, cause: Cause, releaseNetwork: bool, cleanupErr: bool)
    requires Inv(w) && w.r.stopRequested && |w.workers| == 1
    requires w.workers[0].pc == FinEnd(cause, releaseNetwork, cleanupErr)
    ensures var v := FinEndStep(w, 0, cause, releaseNetwork, cleanupErr);
      Closer(w, v) || (v.workers == [] && (Untroubled(w.workers[0].pc) ==> v.r.cleanupDone))
  {
    assert WorkerOk(w, w.workers[0]) && RecordOk(w.r) && AttemptActive(w.r.state);
    FinishEndEffect(w.r, cause, releaseNetwork, cleanupErr);
    hide Inv, Stack, FinishEnd;
  }

  lemma CalmStep(w: World, a: Answer)
    requires Inv(w) && w.r.stopRequested && |w.workers| == 1
    requires Gentle(w.workers[0].pc, a)
    ensures var pc := w.workers[0].pc; var v := WorkStep(w, 0, a);
      Closer(w, v) || (v.workers == [] && (Untroubled(pc) ==> v.r.cleanupDone))
  {
    var pc := w.workers[0].pc;
    assert WorkerOk(w, w.workers[0]);
    hide Inv, WorkStep, Closer, Untroubled;
    if pc.Releasing? {
      CalmRelease(w, pc.work.value, a);
    } else if pc.FinNetwork? {
      CalmRelease(w, pc.network, a);
    } else if pc.FinAttempt? {
      if pc.work == None {
        CalmNothing(w, a);
      } else {
        CalmRelease(w, pc.work.value, a);
      }
    } else if StartPhase(pc) {
      CalmStart(w, a);
    } else if pc.FinEnd? {
      CalmEnd(w, pc.cause, pc.releaseNetwork, pc.cleanupErr);
      EndStepIs(w, a);
    } else {
      CalmFinish(w, a);
    }
  }

  lemma EndStepIs(w: World, a: Answer)
    requires |w.workers| == 1 && w.workers[0].pc.FinEnd?
    ensures var pc := w.workers[0].pc;
      WorkStep(w, 0, a) == FinEndStep(w, 0, pc.cause, pc.releaseNetwork, pc.cleanupErr)
  {
  }

  function Works(answers: seq<Answer>): seq<Event> { seq(|answers|, k requires 0 <= k < |answers| => Work(0, answers[k])) }

  /** Every answer is gentle at the step it meets, as long as a worker is there to take it. */
  predicate AllGentle(w: World, answers: seq<Answer>)
    decreases |answers|
  {
    answers == [] || w.workers == [] ||
    (Gentle(w.workers[0].pc, answers[0]) && AllGentle(Next(w, Work(0, answers[0])), answers[1..]))
  }

  /** How many steps a stopped session may still need. */
  function Effort(w: World): nat { if w.workers == [] then 0 else 2 * Distance(w.workers[0].pc) + |Stack(w)| + 1 }

  lemma EffortShrinks(w: World, v: World)
    requires OneStack(w, v) && Closer(w, v)
    ensures Effort(v) < Effort(w)
  {
    hide Stack, Untroubled;
  }

  lemma NoWorkerNoWork(w: World, answers: seq<Answer>)
    requires w.workers == []
    ensures Run(w, Works(answers)) == w
    decreases |answers|
  {
    if answers != [] {
      assert Works(answers)[1..] == Works(answers[1..]);
      NoWorkerNoWork(w, answers[1..]);
    }
  }

  /**
   Whatever else its steps bring, if closers succeed from now on the worker of a
   stopped session settles within as many steps as its effort says.
   */
  lemma {:induction false} Settles(w: World, answers: seq<Answer>)
    requires Inv(w) && w.r.stopRequested && |w.workers| <= 1 && (w.workers == [] ==> w.r.cleanupDone || w.r.cleanupFailed)
    requires AllGentle(w, answers) && |answers| >= Effort(w)
    ensures var v := Run(w, Works(answers));
      && Inv(v) && v.workers == [] && (v.r.cleanupDone || v.r.cleanupFailed)
      && (w.workers != [] && Untroubled(w.workers[0].pc) ==> v.r.cleanupDone)
    decreases |answers|
  {
    if w.workers == [] {
      NoWorkerNoWork(w, answers);
    } else {
      var e := Work(0, answers[0]);
      var v := Next(w, e);
      assert v == WorkStep(w, 0, answers[0]);
      assert Works(answers)[0] == e && Works(answers)[1..] == Works(answers[1..]);
      hide Inv, Next, Stack, WorkStep, OneStack, Effort;
      StepInv(w, e);
      CalmStep(w, answers[0]);
      if v.workers == [] {
        NoWorkerNoWork(v, answers[1..]);
        SettledOutcome(v);
      } else {
        EffortShrinks(w, v);
        Settles(v, answers[1..]);
      }
    }
  }

  lemma SettledOutcome(w: World)
    requires Inv(w) && w.r.stopRequested && w.workers == []
    ensures w.r.cleanupDone || w.r.cleanupFailed
  {
  }

  /** A Stop of the current generation. */
  function Stopped(w: World): World { Next(w, StopCalled(w.r.generation)) }

  /** A Stop of the current generation, sent to a session that has not settled, leaves one worker and a stop request. */
  lemma StopTakes(w: World)
    requires Inv(w) && !w.r.cleanupDone
    ensures var v := Stopped(w);
      && Inv(v) && v.r.stopRequested && |v.workers| == 1
      && (w.workers == [] ==> Untroubled(v.workers[0].pc))
  {
    var e := StopCalled(w.r.generation);
    CallInv(w, e);
    assert Next(w, e) == Enact(w, Stop(w.r, w.r.generation));
    StopHandsOver(w);
    hide Inv, Next;
  }

  lemma StopHandsOver(w: World)
    requires Inv(w) && !w.r.cleanupDone
    ensures var v := Enact(w, Stop(w.r, w.r.generation));
      v.r.stopRequested && |v.workers| == 1 && (w.workers == [] ==> Untroubled(v.workers[0].pc))
  {
    StopEffect(w.r, w.r.generation);
    hide HeapOk, Stack, InventoryOk;
  }

  /** Acknowledging a session that has settled starts nothing. */
  lemma StopAcknowledged(w: World)
    requires Inv(w) && w.r.cleanupDone
    ensures var v := Stopped(w); Inv(v) && v.r.cleanupDone && v.workers == []
  {
    CallInv(w, StopCalled(w.r.generation));
    StopEffect(w.r, w.r.generation);
  }

  /** A Stop followed by gentle steps; it releases everything if nothing was in progress when it came. */
  lemma StopAndSettle(w: World, answers: seq<Answer>)
    requires Inv(w) && AllGentle(Stopped(w), answers) && |answers| >= Effort(Stopped(w))
    ensures var v := Run(Stopped(w), Works(answers));
      && Inv(v) && v.workers == [] && (v.r.cleanupDone || v.r.cleanupFailed)
      && (w.workers == [] ==> v.r.cleanupDone)
  {
    hide Inv, Next, Stopped, AllGentle, Effort;
    if w.r.cleanupDone {
      StopAcknowledged(w);
      NoWorkerNoWork(Stopped(w), answers);
    } else {
      StopTakes(w);
      Settles(Stopped(w), answers);
    }
  }

  /**
   No reachable state is stuck: whatever happened and failed before, a Stop, its
   steps, another Stop and its steps release everything that was ever acquired,
   whatever else those steps bring, provided that closers succeed from the first
   Stop on.
   */
  lemma NeverStuck(networkRuntime: bool, events: seq<Event>, first: seq<Answer>, second: seq<Answer>)
    requires var w := Stopped(Run(Init(networkRuntime), events)); AllGentle(w, first) && |first| >= Effort(w)
    requires var w := Stopped(Run(Stopped(Run(Init(networkRuntime), events)), Works(first)));
      AllGentle(w, second) && |second| >= Effort(w)
    ensures var w := Run(Stopped(Run(Stopped(Run(Init(networkRuntime), events)), Works(first))), Works(second));
      w.r.cleanupDone && w.workers == [] && multiset(w.released) == Numbers(w.acquired)
  {
    var start := Run(Init(networkRuntime), events);
    Reachable(networkRuntime, events);
    hide Inv, Run, Next, AllGentle, Effort, Stopped;
    StopAndSettle(start, first);
    var middle := Run(Stopped(start), Works(first));
    StopAndSettle(middle, second);
    DoneMeansReleased(Run(Stopped(middle), Works(second)));
  }

  lemma DoneMeansReleased(w: World)
    requires Inv(w) && w.r.cleanupDone
    ensures multiset(w.released) == Numbers(w.acquired)
  {
  }
}
