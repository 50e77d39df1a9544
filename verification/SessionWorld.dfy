/**
 The session manager as a transition system: the record, every goroutine that
 works on it, the heap of ledgers, and the calls in flight. One event is one
 critical section or the return of one external call, so any interleaving of
 API calls, worker steps and platform outcomes is a sequence of events.
 */
module SessionWorld {
  import opened Options
  import opened SessionRecord

  /** Where a goroutine running runStart or finish is. */
  datatype Pc =
    | NetCheck
    | NetTunnel(work: Option<LedgerId>)
    | NetRuntime(work: Option<LedgerId>)
    | NetActivate
    | NetContext
    | Snapshot
    | Candidate(profiles: seq<Profile>, index: nat)
    | Announce(profiles: seq<Profile>, index: nat)
    | InStart(profiles: seq<Profile>, index: nat)
    | Started(profiles: seq<Profile>, index: nat, invalidLease: bool, err: Cause)
    | Connecting
    | Waiting
    | Reporting
    | Releasing(profiles: seq<Profile>, index: nat, invalidLease: bool, work: Option<LedgerId>)
    | Retired(profiles: seq<Profile>, index: nat, invalidLease: bool)
    | FinLock(cause: Cause)
    | FinAttempt(cause: Cause, work: Option<LedgerId>)
    | FinDecide(cause: Cause, cleanupErr: bool)
    | FinNetwork(cause: Cause, network: LedgerId)
    | FinEnd(cause: Cause, releaseNetwork: bool, cleanupErr: bool)

  datatype Worker = Worker(ctx: nat, generation: nat, target: Target, pc: Pc)

  /** One call of Runtime.Start: the attempt generation, the profile and where it came from. */
  datatype StartCall = StartCall(generation: nat, digest: string, position: nat, profile: Profile)

  /**
   committed, acquired, released, starts and autoStarts are history: accepted
   inventories, closers handed to a ledger (numbered in order), closers that
   succeeded, calls of Runtime.Start, and attempts begun by health recovery
   since the last user Start, Retry or switch or the last stable connection.
   */
  datatype World = World(
    r: Record,
    workers: seq<Worker>,
    ledgers: map<LedgerId, seq<nat>>,
    cancelled: set<nat>,
    loading: set<nat>,
    networkRuntime: bool,
    committed: set<RawInventory>,
    acquired: nat,
    released: seq<nat>,
    starts: seq<StartCall>,
    autoStarts: nat,
    panicked: bool)

  function Init(networkRuntime: bool): World {
    World(InitialRecord, [], map[], {}, {}, networkRuntime, {}, 0, [], [], 0, false)
  }

  /** What the environment answers to an external call, and the clock it reads. */
  datatype Answer = Answer(lease: bool, err: Cause, health: bool, now: int)

  datatype Event =
    | ConfigureBegin(expected: nat, ctxErr: bool)
    | ConfigureLoadFailed(request: nat)
    | ConfigureEnd(request: nat, loaded: Inventory, ctxErr: bool, storeErr: bool)
    | StartCalled(expected: nat, target: Target, supplied: bool, saveErr: bool)
    | StopCalled(generation: nat)
    | StopAndWaitCalled
    | ResumeCalled
    | Work(i: nat, answer: Answer)

  // ------------------------------------------------------------------ helpers

  function Closers(ledgers: map<LedgerId, seq<nat>>, id: Option<LedgerId>): seq<nat> {
    if id.Some? && id.value in ledgers then ledgers[id.value] else []
  }

  /** Every closer still owned, oldest first. */
  function Stack(w: World): seq<nat> {
    Closers(w.ledgers, w.r.networkLedger) + Closers(w.ledgers, w.r.ledger)
  }

  function Launch(workers: seq<Worker>, go: Go): seq<Worker> {
    match go
    case NoGo => workers
    case GoStart(ctx, g, target) => workers + [Worker(ctx, g, target, NetCheck)]
    case GoFinish(g) => workers + [Worker(0, g, NoTarget, FinLock(NoError))]
  }

  function Allocate(ledgers: map<LedgerId, seq<nat>>, id: Option<LedgerId>): map<LedgerId, seq<nat>> {
    if id.Some? && id.value !in ledgers then ledgers[id.value := []] else ledgers
  }

  /** The effect of a critical section on everything outside the record. */
  function Enact(w: World, out: Out): World {
    w.(r := out.rec,
       workers := Launch(w.workers, out.go),
       ledgers := Allocate(Allocate(w.ledgers, out.rec.ledger), out.rec.networkLedger),
       cancelled := if out.cancels.Some? then w.cancelled + {out.cancels.value} else w.cancelled,
       panicked := w.panicked || out.panics)
  }

  function Goto(w: World, i: nat, pc: Pc): World
    requires i < |w.workers|
  {
    w.(workers := w.workers[i := w.workers[i].(pc := pc)])
  }

  function Exit(w: World, i: nat): World
    requires i < |w.workers|
  {
    w.(workers := w.workers[..i] + w.workers[i + 1..])
  }

  function Panic(w: World): World { w.(panicked := true) }

  /** A lease that the callee returned is pushed, whatever error came with it. */
  function Push(w: World, id: Option<LedgerId>, lease: bool): World {
    if !lease then w
    else if id == None || id.value !in w.ledgers then Panic(w)
    else w.(ledgers := w.ledgers[id.value := w.ledgers[id.value] + [w.acquired]], acquired := w.acquired + 1)
  }

  /** A closer that succeeded leaves its ledger; closers are tried last first. */
  function Pop(w: World, id: LedgerId): World
    requires id in w.ledgers && w.ledgers[id] != []
  {
    var c := w.ledgers[id];
    w.(ledgers := w.ledgers[id := c[..|c| - 1]], released := w.released + [c[|c| - 1]])
  }

  function Cancelled(w: World, i: nat): bool
    requires i < |w.workers|
  {
    w.workers[i].ctx in w.cancelled
  }

  // ---------------------------------------------------- prepareNetwork, step by step

  /** The first lock: an active network is reused, otherwise activation begins. */
  function NetCheckStep(w: World, i: nat): World
    requires i < |w.workers|
  {
    var r := w.r;
    if r.vpnActive then Goto(w, i, Snapshot)
    else if r.activeProfiles == [] || (r.activeTarget.mode == ProfileIndex && !(0 <= r.activeTarget.index < |r.activeProfiles|))
    then Panic(w)
    else Goto(w, i, NetTunnel(r.networkLedger))
  }

  /** PrepareTunnel or PrepareNetwork returns: the lease is owned first, the error looked at second. */
  function AcquireStep(w: World, i: nat, a: Answer, work: Option<LedgerId>, next: Pc): World
    requires i < |w.workers|
  {
    Goto(Push(w, work, a.lease), i,
         if a.err != NoError then FinLock(a.err) else if !a.lease then FinLock(Ordinary) else next)
  }

  function ActivateStep(w: World, i: nat): World
    requires i < |w.workers|
  {
    Goto(w.(r := ActivateNetwork(w.r)), i, NetContext)
  }

  function NetContextStep(w: World, i: nat): World
    requires i < |w.workers|
  {
    Goto(w, i, if Cancelled(w, i) then FinLock(Ordinary) else Snapshot)
  }

  // ------------------------------------------------------ runStart, step by step

  /** The profiles runStart walks: all of them, or the one its target names. */
  function Slice(profiles: seq<Profile>, target: Target): seq<Profile> {
    if target.mode == ProfileIndex && 0 <= target.index < |profiles| then profiles[target.index..target.index + 1] else profiles
  }

  function SnapshotStep(w: World, i: nat): World
    requires i < |w.workers|
  {
    var r, me := w.r, w.workers[i];
    if me.target.mode == ProfileIndex && !(0 <= me.target.index < |r.activeProfiles|) then Panic(w)
    else Goto(w, i, Candidate(Slice(r.activeProfiles, me.target), 0))
  }

  /** Where in the active inventory the candidate at `index` of the walked profiles sits. */
  function Position(target: Target, index: nat): nat {
    if target.mode == ProfileIndex && target.index >= 0 then target.index + index else index
  }

  function CallOf(r: Record, me: Worker, profiles: seq<Profile>, index: nat): StartCall
    requires index < |profiles|
  {
    StartCall(me.generation, r.activeDigest, Position(me.target, index), profiles[index])
  }

  /** The loop head and prepareCandidate: every candidate after the first takes a new generation. */
  function CandidateStep(w: World, i: nat, profiles: seq<Profile>, index: nat): World
    requires i < |w.workers|
  {
    if index >= |profiles| then Goto(w, i, FinLock(Ordinary))
    else if index == 0 then Goto(w, i, Announce(profiles, index))
    else
      var out := PrepareCandidate(w.r, Cancelled(w, i));
      if !out.accepted then Goto(w, i, FinLock(Ordinary))
      else
        w.(r := out.rec,
           workers := w.workers[i := w.workers[i].(generation := out.rec.generation, pc := Announce(profiles, index))])
  }

  /** Announces the candidate; only then is Runtime.Start called for it. */
  function AnnounceStep(w: World, i: nat, a: Answer, profiles: seq<Profile>, index: nat): World
    requires i < |w.workers|
  {
    var r, me := w.r, w.workers[i];
    var out := Advance(r, me.generation, if me.target.mode == ProfileIndex then Preparing else Probing, a.now);
    if !out.accepted then Goto(w, i, FinLock(Ordinary))
    else if index >= |profiles| then Panic(w)
    else Goto(w.(r := out.rec, starts := w.starts + [CallOf(r, me, profiles, index)]), i, InStart(profiles, index))
  }

  /** Runtime.Start returns; a nil lease without an error is an error. */
  function StartReturnStep(w: World, i: nat, a: Answer, profiles: seq<Profile>, index: nat): World
    requires i < |w.workers|
  {
    var invalidLease := a.err == NoError && !a.lease;
    Goto(Push(w, w.r.ledger, a.lease), i,
         Started(profiles, index, invalidLease, if invalidLease then Ordinary else a.err))
  }

  function StartedStep(w: World, i: nat, profiles: seq<Profile>, index: nat, invalidLease: bool, err: Cause): World
    requires i < |w.workers|
  {
    Goto(w, i,
         if err == NoError && !Cancelled(w, i) then Connecting
         else if err == CleanupError then FinLock(CleanupError)
         else Releasing(profiles, index, invalidLease, w.r.ledger))
  }

  function ConnectingStep(w: World, i: nat, a: Answer): World
    requires i < |w.workers|
  {
    var out := Advance(w.r, w.workers[i].generation, Connected, a.now);
    Goto(w.(r := out.rec), i, if out.accepted then Waiting else FinLock(NoError))
  }

  /** The select of waitForAttemptEnd: a health failure, or a cancelled context, or neither yet. */
  function WaitingStep(w: World, i: nat, a: Answer): World
    requires i < |w.workers|
  {
    if a.health then Goto(w, i, Reporting)
    else if Cancelled(w, i) then Goto(w, i, FinLock(NoError))
    else w
  }

  function ReportingStep(w: World, i: nat, a: Answer): World
    requires i < |w.workers|
  {
    var out := ReportHealthFailure(w.r, w.workers[i].generation, a.now);
    var stable := out.accepted && WasStable(w.r, a.now);
    Goto(Enact(w, out).(autoStarts := if stable then 0 else w.autoStarts), i, FinLock(NoError))
  }

  /** One closer of a failed candidate. */
  function ReleasingStep(w: World, i: nat, a: Answer, next: Pc, work: Option<LedgerId>): World
    requires i < |w.workers|
  {
    if work == None || work.value !in w.ledgers then Panic(w)
    else if w.ledgers[work.value] == [] then Goto(w, i, next)
    else if a.err != NoError then Goto(w, i, FinLock(CleanupError))
    else Pop(w, work.value)
  }

  function RetiredStep(w: World, i: nat, profiles: seq<Profile>, index: nat, invalidLease: bool): World
    requires i < |w.workers|
  {
    if Cancelled(w, i) || invalidLease || w.workers[i].target.mode == ProfileIndex then Goto(w, i, FinLock(Ordinary))
    else Goto(w, i, Candidate(profiles, index + 1))
  }

  // -------------------------------------------------------- finish, step by step

  /** The first lock: a worker of another generation, or of a settled session, has nothing to finish. */
  function FinLockStep(w: World, i: nat, cause: Cause): World
    requires i < |w.workers|
  {
    if w.r.generation != w.workers[i].generation || !AttemptActive(w.r.state) then Exit(w, i)
    else Goto(w, i, FinAttempt(cause, w.r.ledger))
  }

  /** One closer of the attempt ledger, unless the attempt already reported a failed cleanup. */
  function FinAttemptStep(w: World, i: nat, a: Answer, cause: Cause, work: Option<LedgerId>): World
    requires i < |w.workers|
  {
    if cause == CleanupError || work == None || work.value !in w.ledgers || w.ledgers[work.value] == []
    then Goto(w, i, FinDecide(cause, false))
    else if a.err != NoError then Goto(w, i, FinDecide(cause, true))
    else Pop(w, work.value)
  }

  function FinDecideStep(w: World, i: nat, cause: Cause, cleanupErr: bool): World
    requires i < |w.workers|
  {
    var release := ReleasesNetwork(w.r);
    if !cleanupErr && cause != CleanupError && release && w.r.networkLedger != None
    then Goto(w, i, FinNetwork(cause, w.r.networkLedger.value))
    else Goto(w, i, FinEnd(cause, release, cleanupErr))
  }

  /** One closer of the network ledger. */
  function FinNetworkStep(w: World, i: nat, a: Answer, cause: Cause, network: LedgerId): World
    requires i < |w.workers|
  {
    if network !in w.ledgers || w.ledgers[network] == [] then Goto(w, i, FinEnd(cause, true, false))
    else if a.err != NoError then Goto(w, i, FinEnd(cause, true, true))
    else Pop(w, network)
  }

  function FinEndStep(w: World, i: nat, cause: Cause, releaseNetwork: bool, cleanupErr: bool): World
    requires i < |w.workers|
  {
    var out := FinishEnd(w.r, w.workers[i].generation, cause, releaseNetwork, cleanupErr);
    Enact(Exit(w, i), out).(autoStarts := if !out.go.GoStart? then w.autoStarts
                                          else if w.r.pending != None then 0 else w.autoStarts + 1)
  }

  function WorkStep(w: World, i: nat, a: Answer): World
    requires i < |w.workers|
  {
    match w.workers[i].pc
    case NetCheck => NetCheckStep(w, i)
    case NetTunnel(work) => AcquireStep(w, i, a, work, if w.networkRuntime then NetRuntime(work) else NetActivate)
    case NetRuntime(work) => AcquireStep(w, i, a, work, NetActivate)
    case NetActivate => ActivateStep(w, i)
    case NetContext => NetContextStep(w, i)
    case Snapshot => SnapshotStep(w, i)
    case Candidate(profiles, index) => CandidateStep(w, i, profiles, index)
    case Announce(profiles, index) => AnnounceStep(w, i, a, profiles, index)
    case InStart(profiles, index) => StartReturnStep(w, i, a, profiles, index)
    case Started(profiles, index, invalidLease, err) => StartedStep(w, i, profiles, index, invalidLease, err)
    case Connecting => ConnectingStep(w, i, a)
    case Waiting => WaitingStep(w, i, a)
    case Reporting => ReportingStep(w, i, a)
    case Releasing(profiles, index, invalidLease, work) =>
      ReleasingStep(w, i, a, Retired(profiles, index, invalidLease), work)
    case Retired(profiles, index, invalidLease) => RetiredStep(w, i, profiles, index, invalidLease)
    case FinLock(cause) => FinLockStep(w, i, cause)
    case FinAttempt(cause, work) => FinAttemptStep(w, i, a, cause, work)
    case FinDecide(cause, cleanupErr) => FinDecideStep(w, i, cause, cleanupErr)
    case FinNetwork(cause, network) => FinNetworkStep(w, i, a, cause, network)
    case FinEnd(cause, releaseNetwork, cleanupErr) => FinEndStep(w, i, cause, releaseNetwork, cleanupErr)
  }

  // -------------------------------------------------------------- transitions

  function Next(w: World, e: Event): World {
    match e
    case ConfigureBegin(expected, ctxErr) =>
      var out := ConfigureAdmit(w.r, expected, ctxErr);
      if out.accepted then Enact(w, out).(loading := w.loading + {out.rec.configureRequest}) else w
    case ConfigureLoadFailed(request) => w.(loading := w.loading - {request})
    case ConfigureEnd(request, loaded, ctxErr, storeErr) =>
      if request !in w.loading then w
      else
        var out := ConfigureCommit(w.r, request, loaded, ctxErr, storeErr);
        Enact(w, out).(loading := w.loading - {request},
                       committed := if out.accepted then w.committed + {loaded} else w.committed)
    case StartCalled(expected, target, supplied, saveErr) =>
      var out := Start(w.r, expected, target, supplied, saveErr);
      Enact(w, out).(autoStarts := if out.go.GoStart? then 0 else w.autoStarts)
    case StopCalled(generation) => Enact(w, Stop(w.r, generation))
    case StopAndWaitCalled => Enact(w, StopAndWait(w.r))
    case ResumeCalled => Enact(w, Resume(w.r))
    case Work(i, answer) => if i < |w.workers| then WorkStep(w, i, answer) else w
  }

  function Run(w: World, events: seq<Event>): World
    decreases |events|
  {
    if events == [] then w else Run(Next(w, events[0]), events[1..])
  }
}
