/**
 Which generations a Stop is good for. The answer is read off what callers can
 see: the generations that Start, Retry and a switch answered, the one whose
 connection failed and is being restored, and the current one.
 */
module SessionStops {
  import opened Options
  import opened SessionRecord
  import opened SessionWorld
  import opened SessionInvariant
  import T = SessionTheorems

  /**
   `started`: the generation the last Start or Retry answered, until it connects or
   the session is idle. `replaced`: the one the last switch answered, until a stop
   or a Start from scratch. `failed`: the one whose connection was lost, while its
   recovery goes on. Zero stands for none.
   */
  datatype Owed = Owed(started: nat, replaced: nat, failed: nat)

  const Nothing := Owed(0, 0, 0)

  /** A caller may hold this generation and expect to stop the session with it. */
  predicate Owes(a: Owed, w: World, generation: nat) {
    generation != 0 && (generation == w.r.generation || generation == a.started || generation == a.replaced || generation == a.failed)
  }

  /** A Start or Retry was accepted and its attempt launched. */
  predicate Launches(w: World, e: Event) { e.StartCalled? && |Next(w, e).workers| > |w.workers| }

  predicate Switches(w: World, e: Event) { e.StartCalled? && w.r.pending == None && Next(w, e).r.pending != None }

  predicate Enters(w: World, e: Event, state: State) { w.r.state != state && Next(w, e).r.state == state }

  /** A connection is lost and its recovery queued. */
  predicate Loses(w: World, e: Event) { w.r.state == Connected && Next(w, e).r.restartAfterCleanup }

  predicate Stops(a: Owed, w: World, e: Event) { e.StopCalled? && Owes(a, w, e.generation) }

  function Observe(a: Owed, w: World, e: Event): Owed {
    var v := Next(w, e);
    Owed(
      if Launches(w, e) then v.r.generation
      else if Enters(w, e, Connected) || Enters(w, e, Idle) then 0 else a.started,
      if Switches(w, e) then w.r.generation
      else if Stops(a, w, e) || (Launches(w, e) && v.r.networkGeneration != w.r.networkGeneration) then 0 else a.replaced,
      if Loses(w, e) then w.r.generation
      else if Stops(a, w, e) || e.StopAndWaitCalled? || Enters(w, e, Connected) || Enters(w, e, Failed) || Enters(w, e, Idle) then 0
      else a.failed)
  }

  function Watch(a: Owed, w: World, events: seq<Event>): Owed
    decreases |events|
  {
    if events == [] then a else Watch(Observe(a, w, events[0]), Next(w, events[0]), events[1..])
  }

  // ---------------------------------------------------------------- invariant

  /** The record remembers exactly what is owed. */
  predicate Remembers(a: Owed, r: Record) {
    && a.started == r.startOrigin && a.replaced == r.switchOrigin
    && a.failed == (if r.recovering then r.recoveryOrigin else 0)
    && (r.state == Connected ==> r.startOrigin == 0 && !r.recovering && r.recoveryOrigin == 0)
    && (r.state == Idle ==> r.startOrigin == 0)
  }

  lemma StartRemembers(a: Owed, w: World, e: Event)
    requires RecordOk(w.r) && Remembers(a, w.r) && e.StartCalled?
    ensures Remembers(Observe(a, w, e), Next(w, e).r)
  {
    hide Allocate;
  }

  lemma StopRemembers(a: Owed, w: World, e: Event)
    requires RecordOk(w.r) && Remembers(a, w.r) && e.StopCalled?
    ensures Remembers(Observe(a, w, e), Next(w, e).r)
  {
    assert AcceptsStop(w.r, e.generation) <==> Owes(a, w, e.generation);
    assert Next(w, e).r == Stop(w.r, e.generation).rec;
    hide Next, Owes;
  }

  /** A call that starts and stops nothing leaves what is owed alone. */
  predicate Untouched(r: Record, s: Record) {
    && s.startOrigin == r.startOrigin && s.switchOrigin == r.switchOrigin && s.recovering == r.recovering
    && (s.recovering ==> s.recoveryOrigin == r.recoveryOrigin)
    && (s.restartAfterCleanup == r.restartAfterCleanup)
    && (s.state == r.state || s.state == Configured) && (s.state == Connected ==> s.recoveryOrigin == r.recoveryOrigin)
  }

  lemma OtherCallKeeps(w: World, e: Event)
    requires RecordOk(w.r) && (e.ConfigureBegin? || e.ConfigureLoadFailed? || e.ConfigureEnd? || e.ResumeCalled?)
    ensures Untouched(w.r, Next(w, e).r)
  {
    hide Allocate, Launch;
  }

  lemma OtherCallRemembers(a: Owed, w: World, e: Event)
    requires RecordOk(w.r) && Remembers(a, w.r) && !e.Work? && !e.StartCalled? && !e.StopCalled?
    ensures Remembers(Observe(a, w, e), Next(w, e).r)
  {
    if e.StopAndWaitCalled? {
      assert Next(w, e).r == StopAndWait(w.r).rec;
    } else {
      OtherCallKeeps(w, e);
    }
    hide Next, Launches, Switches;
  }

  /** What a worker step may do to the fields that say what is owed. */
  predicate StepKeeps(r: Record, s: Record) {
    && s.switchOrigin == r.switchOrigin
    && (if s.state == Connected && r.state != Connected then s.startOrigin == 0 && !s.recovering && s.recoveryOrigin == 0
        else if s.state == Idle then s.startOrigin == 0 && !s.recovering
        else s.startOrigin == r.startOrigin)
    && (s.state == Failed ==> !s.recovering)
    && (s.state != Connected && s.state != Idle && s.state != Failed ==>
          if r.state == Connected then
            if s.restartAfterCleanup then s.recovering && s.recoveryOrigin == r.generation else !s.recovering
          else s.recovering == r.recovering && s.recoveryOrigin == r.recoveryOrigin)
    && (s.state == Connected && r.state == Connected ==> s == r)
  }

  lemma WorkKeeps(w: World, a: Answer)
    requires Inv(w) && |w.workers| == 1
    requires w.r.state == Connected ==> !w.r.recovering && w.r.recoveryOrigin == 0
    ensures StepKeeps(w.r, WorkStep(w, 0, a).r)
  {
    assert WorkerOk(w, w.workers[0]) && RecordOk(w.r) && AttemptActive(w.r.state);
    var pc := w.workers[0].pc;
    hide Inv, HeapOk, Stack, RunsAttempt, Closers;
    if pc.FinEnd? {
      EndKeeps(w.r, pc.cause, pc.releaseNetwork, pc.cleanupErr);
      assert WorkStep(w, 0, a).r == FinishEnd(w.r, w.r.generation, pc.cause, pc.releaseNetwork, pc.cleanupErr).rec by {
        hide FinishEnd, Allocate, Launch, WorkerOk, RecordOk;
      }
    } else if pc.Reporting? {
      ReportKeeps(w.r, w.workers[0].generation, a.now);
      assert WorkStep(w, 0, a).r == ReportHealthFailure(w.r, w.workers[0].generation, a.now).rec by {
        hide ReportHealthFailure, Allocate, Launch, WorkerOk, RecordOk;
      }
    } else {
      MoveKeeps(w, a);
    }
  }

  lemma EndKeeps(r: Record, cause: Cause, releaseNetwork: bool, cleanupErr: bool)
    requires RecordOk(r) && AttemptActive(r.state) && r.state != Connected
    requires if releaseNetwork then ReleasesNetwork(r) else r.vpnActive
    ensures StepKeeps(r, FinishEnd(r, r.generation, cause, releaseNetwork, cleanupErr).rec)
  {
  }

  lemma ReportKeeps(r: Record, generation: nat, now: int)
    requires RecordOk(r) && AttemptActive(r.state) && generation == r.generation
    requires r.state == Connected ==> !r.recovering && r.recoveryOrigin == 0
    ensures StepKeeps(r, ReportHealthFailure(r, generation, now).rec)
  {
  }

  lemma MoveKeeps(w: World, a: Answer)
    requires |w.workers| == 1 && !w.workers[0].pc.FinEnd? && !w.workers[0].pc.Reporting?
    requires RecordOk(w.r) && AttemptActive(w.r.state) && (w.r.state == Connected ==> w.workers[0].pc.Waiting?)
    requires w.workers[0].generation == w.r.generation
    ensures StepKeeps(w.r, WorkStep(w, 0, a).r)
  {
    var pc := w.workers[0].pc;
    var g := w.workers[0].generation;
    hide RecordOk, StepKeeps;
    if pc.Announce? || pc.Connecting? {
      var state := if pc.Connecting? then Connected else if w.workers[0].target.mode == ProfileIndex then Preparing else Probing;
      AdvanceMoves(w.r, g, state, a.now);
      assert WorkStep(w, 0, a).r in {w.r, Advance(w.r, g, state, a.now).rec} by {
        if !Advance(w.r, g, state, a.now).accepted {
          assert Advance(w.r, g, state, a.now).rec == w.r;
        }
        hide Advance, CallOf;
      }
      SameKeeps(w.r);
    } else if pc.Candidate? || pc.NetActivate? {
      CandidateMoves(w.r, Cancelled(w, 0));
      assert WorkStep(w, 0, a).r in {w.r, PrepareCandidate(w.r, Cancelled(w, 0)).rec, ActivateNetwork(w.r)} by {
        hide PrepareCandidate, ActivateNetwork;
      }
    } else {
      SameRecord(w, a);
      SameKeeps(w.r);
    }
  }

  lemma AdvanceMoves(r: Record, generation: nat, state: State, now: int)
    requires AttemptActive(r.state) && r.state != Connected && (state == Connected || state == Probing || state == Preparing)
    ensures StepKeeps(r, Advance(r, generation, state, now).rec)
  {
  }

  lemma CandidateMoves(r: Record, cancelled: bool)
    requires AttemptActive(r.state) && r.state != Connected
    ensures StepKeeps(r, PrepareCandidate(r, cancelled).rec) && StepKeeps(r, ActivateNetwork(r)) && StepKeeps(r, r)
  {
  }

  lemma SameKeeps(r: Record)
    requires AttemptActive(r.state)
    ensures StepKeeps(r, r) || r.state == Connected
    ensures r.state == Connected ==> StepKeeps(r, r)
  {
  }

  /** The other steps leave the record alone. */
  lemma SameRecord(w: World, a: Answer)
    requires |w.workers| == 1
    requires var pc := w.workers[0].pc;
      !pc.FinEnd? && !pc.Reporting? && !pc.Announce? && !pc.Connecting? && !pc.Candidate? && !pc.NetActivate?
    ensures WorkStep(w, 0, a).r == w.r
  {
    hide Slice, CallOf, AttemptActive, ReleasesNetwork;
  }

  lemma WorkRemembers(a: Owed, w: World, e: Event)
    requires Inv(w) && Remembers(a, w.r) && e.Work?
    ensures Remembers(Observe(a, w, e), Next(w, e).r)
  {
    if e.i < |w.workers| {
      Solo(w, e.i);
      var v := WorkStep(w, 0, e.answer);
      assert Next(w, e) == v && WorkerOk(w, w.workers[0]) && RecordOk(w.r);
      WorkKeeps(w, e.answer);
      StepInv(w, e);
      assert RecordOk(v.r);
      hide Inv, WorkStep, Next;
    } else {
      hide Inv;
    }
  }

  lemma StepRemembers(a: Owed, w: World, e: Event)
    requires Inv(w) && Remembers(a, w.r)
    ensures Remembers(Observe(a, w, e), Next(w, e).r)
  {
    assert RecordOk(w.r);
    hide Inv, Remembers, Next, Observe;
    match e
    case StartCalled(_, _, _, _) => StartRemembers(a, w, e);
    case StopCalled(_) => StopRemembers(a, w, e);
    case Work(_, _) => WorkRemembers(a, w, e);
    case _ => OtherCallRemembers(a, w, e);
  }

  lemma {:induction false} RunRemembers(a: Owed, w: World, events: seq<Event>)
    requires Inv(w) && Remembers(a, w.r)
    ensures Inv(Run(w, events)) && Remembers(Watch(a, w, events), Run(w, events).r)
    decreases |events|
  {
    if events != [] {
      StepInv(w, events[0]);
      StepRemembers(a, w, events[0]);
      hide Inv, Next, Remembers, Observe;
      RunRemembers(Observe(a, w, events[0]), Next(w, events[0]), events[1..]);
    }
  }

  // ----------------------------------------------------------------- theorems

  /** A stop of a running attempt marks it stopping and cancels its context. */
  predicate Stopped(w: World, v: World) {
    && v.r.stopRequested && v.r.pending == None && !v.r.restartAfterCleanup
    && (AttemptActive(w.r.state) ==>
          && v.r.state == Stopping && v.workers == w.workers
          && (w.r.state != Stopping && w.r.cancel.Some? ==> w.r.cancel.value in v.cancelled))
    && (w.r.state == Failed && !w.r.cleanupDone ==> v.r.state == Stopping && |v.workers| == 1)
  }

  lemma StopTakes(w: World, generation: nat)
    requires Inv(w) && AcceptsStop(w.r, generation)
    ensures Stopped(w, Next(w, StopCalled(generation)))
  {
    assert RecordOk(w.r) && WorkersOk(w);
    hide Inv, Allocate;
  }

  /** In every reachable state a Stop is taken exactly if its generation is owed; otherwise it changes nothing. */
  lemma StopIffOwed(networkRuntime: bool, events: seq<Event>, generation: nat)
    ensures var w := Run(Init(networkRuntime), events); var v := Next(w, StopCalled(generation));
      if Owes(Watch(Nothing, Init(networkRuntime), events), w, generation) then Stopped(w, v) else v == w
  {
    InitInv(networkRuntime);
    RunRemembers(Nothing, Init(networkRuntime), events);
    var w := Run(Init(networkRuntime), events);
    var a := Watch(Nothing, Init(networkRuntime), events);
    assert AcceptsStop(w.r, generation) <==> Owes(a, w, generation);
    hide Run, Watch, Owes, AcceptsStop;
    if AcceptsStop(w.r, generation) {
      StopTakes(w, generation);
    } else {
      RefusedStop(w, generation);
    }
  }

  lemma RefusedStop(w: World, generation: nat)
    requires Inv(w) && !AcceptsStop(w.r, generation)
    ensures Next(w, StopCalled(generation)) == w
  {
    hide AcceptsStop, WorkersOk, RecordOk;
    T.RejectEffect(w);
    assert Stop(w.r, generation) == Reject(w.r);
    hide Stop, Enact;
  }

  /** Nothing has decided yet what becomes of the attempt a Start answered. */
  predicate Undecided(w: World, events: seq<Event>)
    decreases |events|
  {
    events != [] ==>
      !Launches(w, events[0]) && !Enters(w, events[0], Connected) && !Enters(w, events[0], Idle) &&
      Undecided(Next(w, events[0]), events[1..])
  }

  lemma {:induction false} StartedStays(a: Owed, w: World, events: seq<Event>)
    requires Undecided(w, events)
    ensures Watch(a, w, events).started == a.started
    decreases |events|
  {
    if events != [] {
      assert Observe(a, w, events[0]).started == a.started;
      hide Next, Observe;
      StartedStays(Observe(a, w, events[0]), Next(w, events[0]), events[1..]);
    }
  }

  /**
   The generation that a Start or Retry answered stops the session for as long as
   the attempt is not connected, the session not idle and no other Start launched,
   however many candidates with generations of their own have been tried since.
   */
  lemma AnsweredStartCanBeStopped(networkRuntime: bool, before: seq<Event>, e: Event, after: seq<Event>)
    requires var w := Run(Init(networkRuntime), before); Launches(w, e) && Undecided(Next(w, e), after)
    ensures var v := Next(Run(Init(networkRuntime), before), e); var u := Run(v, after);
      Stopped(u, Next(u, StopCalled(v.r.generation)))
  {
    InitInv(networkRuntime);
    RunRemembers(Nothing, Init(networkRuntime), before);
    var w := Run(Init(networkRuntime), before);
    var a := Watch(Nothing, Init(networkRuntime), before);
    var b, v := Observe(a, w, e), Next(w, e);
    StepInv(w, e);
    StepRemembers(a, w, e);
    LaunchedIsCounted(w, e);
    assert b.started == v.r.generation;
    hide Observe, Next, Run, Watch, Launches;
    RunRemembers(b, v, after);
    StartedStays(b, v, after);
    StopTakes(Run(v, after), v.r.generation);
  }

  lemma LaunchedIsCounted(w: World, e: Event)
    requires Inv(w) && Launches(w, e)
    ensures Next(w, e).r.generation != 0
  {
    StepInv(w, e);
    assert RecordOk(Next(w, e).r) && WorkersOk(Next(w, e));
  }

  /** No stop has been taken and no network acquired anew since a switch was queued, and no other switch replaced it. */
  predicate SwitchLives(a: Owed, w: World, events: seq<Event>)
    decreases |events|
  {
    events != [] ==>
      var e := events[0];
      !Switches(w, e) && !Stops(a, w, e) && !(Launches(w, e) && Next(w, e).r.networkGeneration != w.r.networkGeneration) &&
      SwitchLives(Observe(a, w, e), Next(w, e), events[1..])
  }

  lemma {:induction false} ReplacedStays(a: Owed, w: World, events: seq<Event>)
    requires SwitchLives(a, w, events)
    ensures Watch(a, w, events).replaced == a.replaced
    decreases |events|
  {
    if events != [] {
      assert Observe(a, w, events[0]).replaced == a.replaced;
      hide Next, Observe;
      ReplacedStays(Observe(a, w, events[0]), Next(w, events[0]), events[1..]);
    }
  }

  /** The generation a switch answered, the one it replaces, stops whatever the switch has led to since. */
  lemma AnsweredSwitchCanBeStopped(networkRuntime: bool, before: seq<Event>, e: Event, after: seq<Event>)
    requires var w := Run(Init(networkRuntime), before); var a := Watch(Nothing, Init(networkRuntime), before);
      Switches(w, e) && SwitchLives(Observe(a, w, e), Next(w, e), after)
    ensures var w := Run(Init(networkRuntime), before); var u := Run(Next(w, e), after);
      Stopped(u, Next(u, StopCalled(w.r.generation)))
  {
    InitInv(networkRuntime);
    RunRemembers(Nothing, Init(networkRuntime), before);
    var w := Run(Init(networkRuntime), before);
    var a := Watch(Nothing, Init(networkRuntime), before);
    var b, v := Observe(a, w, e), Next(w, e);
    StepInv(w, e);
    StepRemembers(a, w, e);
    SwitchIsCounted(w, e);
    assert b.replaced == w.r.generation;
    hide Observe, Next, Run, Watch, Switches;
    RunRemembers(b, v, after);
    ReplacedStays(b, v, after);
    StopTakes(Run(v, after), w.r.generation);
  }

  lemma SwitchIsCounted(w: World, e: Event)
    requires Inv(w) && Switches(w, e)
    ensures w.r.generation != 0
  {
    StepInv(w, e);
    assert RecordOk(Next(w, e).r) && RecordOk(w.r);
    assert Next(w, e).r.generation == w.r.generation;
  }

  /** The recovery has neither succeeded nor been given up, and nothing has been stopped. */
  predicate RecoveryLives(a: Owed, w: World, events: seq<Event>)
    decreases |events|
  {
    events != [] ==>
      var e := events[0];
      !Stops(a, w, e) && !e.StopAndWaitCalled? && !Loses(w, e) &&
      !Enters(w, e, Connected) && !Enters(w, e, Failed) && !Enters(w, e, Idle) &&
      RecoveryLives(Observe(a, w, e), Next(w, e), events[1..])
  }

  lemma {:induction false} FailedStays(a: Owed, w: World, events: seq<Event>)
    requires RecoveryLives(a, w, events)
    ensures Watch(a, w, events).failed == a.failed
    decreases |events|
  {
    if events != [] {
      assert Observe(a, w, events[0]).failed == a.failed;
      hide Next, Observe;
      FailedStays(Observe(a, w, events[0]), Next(w, events[0]), events[1..]);
    }
  }

  /** The generation whose connection failed stops the recovery that began from it, in whatever attempt that is by now. */
  lemma FailedConnectionCanBeStopped(networkRuntime: bool, before: seq<Event>, e: Event, after: seq<Event>)
    requires var w := Run(Init(networkRuntime), before); var a := Watch(Nothing, Init(networkRuntime), before);
      Loses(w, e) && RecoveryLives(Observe(a, w, e), Next(w, e), after)
    ensures var w := Run(Init(networkRuntime), before); var u := Run(Next(w, e), after);
      Stopped(u, Next(u, StopCalled(w.r.generation)))
  {
    InitInv(networkRuntime);
    RunRemembers(Nothing, Init(networkRuntime), before);
    var w := Run(Init(networkRuntime), before);
    var a := Watch(Nothing, Init(networkRuntime), before);
    var b, v := Observe(a, w, e), Next(w, e);
    assert RecordOk(w.r) && w.r.generation != 0;
    StepInv(w, e);
    StepRemembers(a, w, e);
    assert b.failed == w.r.generation;
    hide Observe, Next, Run, Watch, Loses;
    RunRemembers(b, v, after);
    FailedStays(b, v, after);
    var u := Run(v, after);
    assert u.r.recovering && u.r.recoveryOrigin == w.r.generation;
    StopTakes(u, w.r.generation);
  }
}
