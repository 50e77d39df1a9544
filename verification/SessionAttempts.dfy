/**
 What an attempt does with its candidates: every profile of the selection is
 tried, in order, until one connects, and the attempt gives up only for a reason.
 */
module SessionAttempts {
  import opened Options
  import opened SessionRecord
  import opened SessionWorld
  import opened SessionInvariant
  import T = SessionTheorems

  /**
   What has happened to the running attempt: how many calls of Runtime.Start had
   been made before it, what its own calls answered, whether the network could not
   be acquired, and whether a closer or a call reported a failed cleanup.
   */
  datatype Walk = Walk(first: nat, answers: seq<Answer>, noNetwork: bool, unclean: bool)

  const NoWalk := Walk(0, [], false, false)

  predicate AtNetCheck(w: World) { |w.workers| == 1 && w.workers[0].pc.NetCheck? }

  /** A goroutine for an attempt is launched. */
  predicate Begins(w: World, e: Event) { AtNetCheck(Next(w, e)) && !AtNetCheck(w) }

  predicate Ok(a: Answer) { a.err == NoError && a.lease }

  predicate Empty(a: Answer) { a.err == NoError && !a.lease }

  /** A call that failed and left nothing that must be cleaned up first. */
  predicate Fails(a: Answer) { a.err == Ordinary }

  function Returned(k: Walk, w: World, pc: Pc, a: Answer): Walk {
    match pc
    case NetTunnel(_) => k.(noNetwork := k.noNetwork || !Ok(a))
    case NetRuntime(_) => k.(noNetwork := k.noNetwork || !Ok(a))
    case InStart(_, _) => k.(answers := k.answers + [a], unclean := k.unclean || a.err == CleanupError)
    case Releasing(_, _, _, work) => k.(unclean := k.unclean || (Closers(w.ledgers, work) != [] && a.err != NoError))
    case _ => k
  }

  function Observe(k: Walk, w: World, e: Event): Walk {
    if Begins(w, e) then Walk(|Next(w, e).starts|, [], false, false)
    else if e.Work? && e.i < |w.workers| then Returned(k, w, w.workers[e.i].pc, e.answer)
    else k
  }

  function Watch(k: Walk, w: World, events: seq<Event>): Walk
    decreases |events|
  {
    if events == [] then k else Watch(Observe(k, w, events[0]), Next(w, events[0]), events[1..])
  }

  // ---------------------------------------------------------------- invariant

  /** The profiles the attempt is to try: the whole inventory, or the one that was named. */
  function Selection(r: Record, target: Target): seq<Profile> {
    if target.mode == ProfileIndex && 0 <= target.index < |r.activeProfiles| then [r.activeProfiles[target.index]] else r.activeProfiles
  }

  function PlaceOf(target: Target, j: nat): nat { if target.mode == ProfileIndex && target.index >= 0 then target.index + j else j }

  /** These calls are for the first profiles of the selection, in order. */
  predicate CallsFollow(calls: seq<StartCall>, selection: seq<Profile>, target: Target, digest: string) {
    && |calls| <= |selection|
    && forall j :: 0 <= j < |calls| ==>
         calls[j].profile == selection[j] && calls[j].position == PlaceOf(target, j) && calls[j].digest == digest
  }

  /** The calls of this attempt are for the profiles of its selection, from the first on, each once. */
  predicate InOrder(k: Walk, w: World, target: Target) {
    k.first <= |w.starts| && CallsFollow(w.starts[k.first..], Selection(w.r, target), target, w.r.activeDigest)
  }

  /** The first `n` calls have been answered, all of them with ordinary failures. */
  predicate AllFailed(k: Walk, n: nat) {
    |k.answers| == n && forall j :: 0 <= j < n ==> Fails(k.answers[j])
  }

  /** All but the last have failed, and the last one was answered so. */
  predicate LastIs(k: Walk, n: nat, invalidLease: bool, err: Cause) {
    && |k.answers| == n + 1 && (forall j :: 0 <= j < n ==> Fails(k.answers[j]))
    && var last := k.answers[n];
       invalidLease == Empty(last) && err == (if Empty(last) then Ordinary else last.err)
  }

  /** The calls made so far and what they answered, at each point of the walk. */
  predicate Progress(k: Walk, w: World, me: Worker) {
    var made := |w.starts| - k.first;
    match me.pc
    case Candidate(_, i) => made == i && AllFailed(k, i) && !k.noNetwork && !k.unclean
    case Announce(_, i) => made == i && AllFailed(k, i) && !k.noNetwork && !k.unclean
    case InStart(_, i) => made == i + 1 && AllFailed(k, i) && !k.noNetwork && !k.unclean
    case Started(_, i, invalidLease, err) =>
      made == i + 1 && LastIs(k, i, invalidLease, err) && !k.noNetwork && (k.unclean <==> err == CleanupError)
    case Releasing(_, i, invalidLease, _) =>
      && made == i + 1 && |k.answers| == i + 1 && (forall j :: 0 <= j < i ==> Fails(k.answers[j])) && !k.noNetwork && !k.unclean
      && (invalidLease <==> Empty(k.answers[i])) && (w.r.state == Stopping || Fails(k.answers[i]) || invalidLease)
    case Retired(_, i, invalidLease) =>
      && made == i + 1 && |k.answers| == i + 1 && (forall j :: 0 <= j < i ==> Fails(k.answers[j])) && !k.noNetwork && !k.unclean
      && (invalidLease <==> Empty(k.answers[i])) && (w.r.state == Stopping || Fails(k.answers[i]) || invalidLease)
    case Connecting => made == |k.answers| > 0 && Ok(k.answers[made - 1])
    case Waiting => made == |k.answers| > 0 && Ok(k.answers[made - 1]) && (w.r.state == Connected || w.r.state == Stopping)
    case Reporting => made == |k.answers| > 0 && Ok(k.answers[made - 1]) && (w.r.state == Connected || w.r.state == Stopping)
    case _ => made == 0 && k.answers == [] && !k.noNetwork && !k.unclean
  }

  /** Why an attempt that nobody stopped or superseded has ended without a connection. */
  predicate GaveUp(k: Walk, w: World, target: Target) {
    || k.noNetwork
    || k.unclean
    || (k.answers != [] && Empty(k.answers[|k.answers| - 1]))
    || (|k.answers| == |Selection(w.r, target)| && |w.starts| == k.first + |k.answers| && forall a :: a in k.answers ==> Fails(a))
  }

  predicate Walks(k: Walk, w: World) {
    |w.workers| == 1 ==>
      var me := w.workers[0];
      if StartPhase(me.pc) then InOrder(k, w, me.target) && Progress(k, w, me)
      else w.r.state == Stopping || (InOrder(k, w, me.target) && GaveUp(k, w, me.target))
  }

  // ------------------------------------------------------------------ the steps

  lemma SliceIs(r: Record, target: Target)
    ensures Slice(r.activeProfiles, target) == Selection(r, target)
  {
  }

  /** What a call may do to an attempt is to stop it. */
  lemma CallWalks(k: Walk, w: World, e: Event)
    requires Inv(w) && Walks(k, w) && !e.Work?
    ensures Walks(Observe(k, w, e), Next(w, e))
  {
    var v := Next(w, e);
    assert RecordOk(w.r) && WorkersOk(w);
    var o := T.CallIs(w, e);
    CallHistory(w, e);
    StepInv(w, e);
    assert WorkersOk(v);
    hide Inv, Next, RecordOk, WorkersOk;
    if AttemptActive(w.r.state) {
      assert v.workers == w.workers;
      assert Observe(k, w, e) == k;
      assert v.starts == w.starts && v.r.activeProfiles == w.r.activeProfiles && v.r.activeDigest == w.r.activeDigest;
      hide CallEffect;
      SameWalks(k, w, v);
    } else {
      assert w.workers == [];
      NewWalks(k, w, e, o);
    }
  }

  lemma SameWalks(k: Walk, w: World, v: World)
    requires Walks(k, w) && v.workers == w.workers && v.starts == w.starts
    requires v.r.activeProfiles == w.r.activeProfiles && v.r.activeDigest == w.r.activeDigest
    requires v.r.state == w.r.state || v.r.state == Stopping
    ensures Walks(k, v)
  {
  }

  lemma NewWalks(k: Walk, w: World, e: Event, o: Out)
    requires w.workers == [] && T.CallRuns(w, e, o) && !AttemptActive(w.r.state) && !e.Work?
    ensures Walks(Observe(k, w, e), Next(w, e))
  {
    hide Next;
  }

  lemma NetworkWalks(k: Walk, w: World, a: Answer)
    requires |w.workers| == 1 && Walks(k, w) && WorkerOk(w, w.workers[0])
    requires var pc := w.workers[0].pc;
      pc.NetCheck? || pc.NetTunnel? || pc.NetRuntime? || pc.NetActivate? || pc.NetContext? || pc.Snapshot?
    ensures Walks(Returned(k, w, w.workers[0].pc, a), WorkStep(w, 0, a))
  {
    SliceIs(w.r, w.workers[0].target);
    hide Slice, Closers;
  }

  lemma CandidateWalks(k: Walk, w: World, a: Answer)
    requires |w.workers| == 1 && Walks(k, w) && WorkerOk(w, w.workers[0]) && RecordOk(w.r)
    requires w.workers[0].pc.Candidate?
    ensures Walks(k, WorkStep(w, 0, a))
  {
    SliceIs(w.r, w.workers[0].target);
    hide Slice, Closers, CallsFollow, RecordOk;
  }

  lemma RetiredWalks(k: Walk, w: World, a: Answer)
    requires |w.workers| == 1 && Walks(k, w) && WorkerOk(w, w.workers[0])
    requires w.workers[0].pc.Retired?
    ensures Walks(k, WorkStep(w, 0, a))
  {
    var me := w.workers[0];
    SliceIs(w.r, me.target);
    hide Slice, Closers, CallsFollow;
    if me.target.mode == ProfileIndex {
      assert |Selection(w.r, me.target)| == 1;
    }
  }

  lemma AnnounceWalks(k: Walk, w: World, a: Answer)
    requires |w.workers| == 1 && Walks(k, w) && WorkerOk(w, w.workers[0]) && RecordOk(w.r)
    requires w.workers[0].pc.Announce?
    ensures Walks(k, WorkStep(w, 0, a))
  {
    var me, r := w.workers[0], w.r;
    var state := if me.target.mode == ProfileIndex then Preparing else Probing;
    if Advance(r, me.generation, state, a.now).accepted {
      AnnouncedWalks(k, w, a, state);
    } else {
      RefusedStops(r, me, state, a.now);
      assert WorkStep(w, 0, a) == Goto(w, 0, FinLock(Ordinary)) by {
        hide Advance, Slice, Closers, RecordOk, WorkerOk, Walks;
      }
    }
    hide WorkerOk, RecordOk, Advance, WorkStep;
  }

  lemma AnnouncedWalks(k: Walk, w: World, a: Answer, state: State)
    requires |w.workers| == 1 && Walks(k, w) && WorkerOk(w, w.workers[0]) && RecordOk(w.r)
    requires w.workers[0].pc.Announce? && state == if w.workers[0].target.mode == ProfileIndex then Preparing else Probing
    requires Advance(w.r, w.workers[0].generation, state, a.now).accepted
    ensures Walks(k, WorkStep(w, 0, a))
  {
    hide AllFailed, GaveUp;
    var me, r := w.workers[0], w.r;
    var profiles, i := me.pc.profiles, me.pc.index;
    SliceIs(r, me.target);
    AdvanceKeeps(r, w.cancelled, me, state, a.now);
    var call := CallOf(r, me, profiles, i);
    assert call.profile == profiles[i] && call.position == PlaceOf(me.target, i) && call.digest == r.activeDigest;
    assert i < |profiles| && profiles == Selection(r, me.target) && |w.starts[k.first..]| == i;
    hide Slice, Closers, Advance, RecordOk, RunsAttempt, CallOf, PlaceOf, WorkerOk, CallsFollow, Selection, Walks, Progress, InOrder;
    var v := AnnounceStep(w, 0, a, profiles, i);
    assert v.workers == [me.(pc := InStart(profiles, i))] && v.starts == w.starts + [call];
    assert v.r.activeProfiles == r.activeProfiles && v.r.activeDigest == r.activeDigest;
    assert WorkStep(w, 0, a) == v;
    hide AnnounceStep, SameAttempt, SameRecordBooks, WorkStep;
    CallMade(k, w, v, profiles, i, call);
  }

  lemma CallMade(k: Walk, w: World, v: World, profiles: seq<Profile>, i: nat, call: StartCall)
    requires |w.workers| == 1 && Walks(k, w) && w.workers[0].pc == Announce(profiles, i)
    requires v.workers == [w.workers[0].(pc := InStart(profiles, i))] && v.starts == w.starts + [call]
    requires v.r.activeProfiles == w.r.activeProfiles && v.r.activeDigest == w.r.activeDigest
    requires i < |profiles| && profiles == Selection(w.r, w.workers[0].target)
    requires call.profile == profiles[i] && call.position == PlaceOf(w.workers[0].target, i) && call.digest == w.r.activeDigest
    ensures Walks(k, v)
  {
    var target := w.workers[0].target;
    assert v.starts[k.first..] == w.starts[k.first..] + [call];
    hide CallsFollow, Selection, AllFailed, GaveUp, PlaceOf;
    OneMoreFollows(w.starts[k.first..], call, profiles, target, w.r.activeDigest);
    SameSelected(w.r, v.r, target);
  }

  lemma OneMoreFollows(calls: seq<StartCall>, call: StartCall, selection: seq<Profile>, target: Target, digest: string)
    requires CallsFollow(calls, selection, target, digest) && |calls| < |selection|
    requires call.profile == selection[|calls|] && call.position == PlaceOf(target, |calls|) && call.digest == digest
    ensures CallsFollow(calls + [call], selection, target, digest)
  {
    hide PlaceOf;
  }

  lemma SameSelected(r: Record, s: Record, target: Target)
    requires r.activeProfiles == s.activeProfiles
    ensures Selection(r, target) == Selection(s, target)
  {
  }

  /** Only a stopped attempt is refused an announcement. */
  lemma RefusedStops(r: Record, me: Worker, state: State, now: int)
    requires me.generation == r.generation && !Advance(r, me.generation, state, now).accepted
    ensures r.state == Stopping
  {
  }

  lemma CallReturnWalks(k: Walk, w: World, a: Answer)
    requires |w.workers| == 1 && Walks(k, w) && WorkerOk(w, w.workers[0]) && RecordOk(w.r)
    requires var pc := w.workers[0].pc; pc.InStart? || pc.Started?
    ensures Walks(Returned(k, w, w.workers[0].pc, a), WorkStep(w, 0, a))
  {
    hide Slice, Closers, RecordOk;
  }

  lemma ConnectWalks(k: Walk, w: World, a: Answer)
    requires |w.workers| == 1 && Walks(k, w) && WorkerOk(w, w.workers[0]) && RecordOk(w.r)
    requires var pc := w.workers[0].pc; pc.Connecting? || pc.Waiting? || pc.Reporting?
    ensures Walks(Returned(k, w, w.workers[0].pc, a), WorkStep(w, 0, a))
  {
    hide Slice, Closers;
  }

  lemma ReleaseWalks(k: Walk, w: World, a: Answer)
    requires |w.workers| == 1 && Walks(k, w) && WorkerOk(w, w.workers[0]) && RecordOk(w.r) && HeapOk(w)
    requires w.workers[0].pc.Releasing?
    ensures Walks(Returned(k, w, w.workers[0].pc, a), WorkStep(w, 0, a))
  {
    var pc := w.workers[0].pc;
    assert pc.work.Some? && pc.work.value in w.ledgers && Closers(w.ledgers, pc.work) == w.ledgers[pc.work.value];
    hide CallsFollow, RecordOk, HeapOk, WorkerOk, Closers;
  }

  lemma FinishWalks(k: Walk, w: World, a: Answer)
    requires Inv(w) && |w.workers| == 1 && Walks(k, w) && !StartPhase(w.workers[0].pc) && !w.workers[0].pc.FinEnd?
    ensures Walks(k, WorkStep(w, 0, a))
  {
    var v := WorkStep(w, 0, a);
    assert v.r == w.r && v.starts == w.starts;
    assert |v.workers| == 1 ==> v.workers[0].target == w.workers[0].target && !StartPhase(v.workers[0].pc);
    hide Inv;
  }

  lemma EndWalks(k: Walk, w: World, a: Answer)
    requires Inv(w) && |w.workers| == 1 && w.workers[0].pc.FinEnd?
    ensures Walks(Observe(k, w, Work(0, a)), Next(w, Work(0, a)))
  {
    EndLaunches(w, a);
    hide Inv, Next, WorkStep, CallsFollow, Selection, Fails, Empty;
  }

  /** What the end of cleanup launches starts over, or cleans up what is left. */
  lemma EndLaunches(w: World, a: Answer)
    requires Inv(w) && |w.workers| == 1 && w.workers[0].pc.FinEnd?
    ensures var v := Next(w, Work(0, a));
      |v.workers| == 1 ==> v.workers[0].pc.NetCheck? || (v.r.state == Stopping && !StartPhase(v.workers[0].pc))
  {
    var pc := w.workers[0].pc;
    assert WorkerOk(w, w.workers[0]) && RecordOk(w.r) && AttemptActive(w.r.state);
    var o := FinishEnd(w.r, w.r.generation, pc.cause, pc.releaseNetwork, pc.cleanupErr);
    assert Next(w, Work(0, a)).workers == Launch([], o.go) && Next(w, Work(0, a)).r == o.rec by {
      hide FinishEnd, RecordOk;
    }
    hide Inv, Next, WorkStep, RecordOk, AttemptActive;
    FinishStops(w.r, pc.cause, pc.releaseNetwork, pc.cleanupErr);
    hide FinishEnd;
  }

  lemma FinishStops(r: Record, cause: Cause, releaseNetwork: bool, cleanupErr: bool)
    ensures var o := FinishEnd(r, r.generation, cause, releaseNetwork, cleanupErr); o.go.GoFinish? ==> o.rec.state == Stopping
  {
  }

  lemma WorkWalks(k: Walk, w: World, a: Answer)
    requires Inv(w) && |w.workers| == 1 && Walks(k, w) && !w.workers[0].pc.FinEnd?
    ensures Walks(Returned(k, w, w.workers[0].pc, a), WorkStep(w, 0, a))
  {
    var pc := w.workers[0].pc;
    assert WorkerOk(w, w.workers[0]) && RecordOk(w.r) && HeapOk(w);
    hide Inv, Walks, WorkStep, WorkerOk, RecordOk, HeapOk;
    if pc.Announce? {
      AnnounceWalks(k, w, a);
    } else if pc.Candidate? {
      CandidateWalks(k, w, a);
    } else if pc.Retired? {
      RetiredWalks(k, w, a);
    } else if pc.InStart? || pc.Started? {
      CallReturnWalks(k, w, a);
    } else if pc.Connecting? || pc.Waiting? || pc.Reporting? {
      ConnectWalks(k, w, a);
    } else if pc.Releasing? {
      ReleaseWalks(k, w, a);
    } else if StartPhase(pc) {
      NetworkWalks(k, w, a);
    } else {
      FinishWalks(k, w, a);
    }
  }

  /** Only the end of an attempt launches another; its other steps never return to its beginning. */
  lemma BeginsOnce(w: World, a: Answer)
    requires |w.workers| == 1 && !w.workers[0].pc.FinEnd?
    ensures !Begins(w, Work(0, a))
  {
    hide Slice, CallOf, Advance, PrepareCandidate, PrepareHealthRecovery, Allocate;
  }

  lemma StepWalks(k: Walk, w: World, e: Event)
    requires Inv(w) && Walks(k, w)
    ensures Walks(Observe(k, w, e), Next(w, e))
  {
    if !e.Work? {
      CallWalks(k, w, e);
    } else if e.i < |w.workers| {
      Solo(w, e.i);
      assert e == Work(0, e.answer);
      if w.workers[0].pc.FinEnd? {
        EndWalks(k, w, e.answer);
      } else {
        hide Walks;
        BeginsOnce(w, e.answer);
        WorkWalks(k, w, e.answer);
        assert Next(w, e) == WorkStep(w, 0, e.answer);
        hide Inv, WorkStep, Begins;
      }
    } else {
      assert Next(w, e) == w;
    }
  }

  lemma {:induction false} RunWalks(k: Walk, w: World, events: seq<Event>)
    requires Inv(w) && Walks(k, w)
    ensures Inv(Run(w, events)) && Walks(Watch(k, w, events), Run(w, events))
    decreases |events|
  {
    if events != [] {
      StepInv(w, events[0]);
      StepWalks(k, w, events[0]);
      hide Inv, Next, Walks, Observe;
      RunWalks(Observe(k, w, events[0]), Next(w, events[0]), events[1..]);
    }
  }

  // ----------------------------------------------------------------- theorems

  /** In every reachable state the running attempt has tried the first profiles of its selection, in order, each once. */
  lemma CandidatesInOrder(networkRuntime: bool, events: seq<Event>)
    ensures var w := Run(Init(networkRuntime), events); var k := Watch(NoWalk, Init(networkRuntime), events);
      |w.workers| == 1 && (StartPhase(w.workers[0].pc) || w.r.state != Stopping) ==> InOrder(k, w, w.workers[0].target)
  {
    InitInv(networkRuntime);
    RunWalks(NoWalk, Init(networkRuntime), events);
  }

  /**
   An attempt that reaches its end while nobody has stopped or replaced it could
   not acquire the network, met a failed cleanup or an empty lease, or has tried
   every profile of its selection, each of which answered with a failure.
   */
  lemma GivesUpForAReason(networkRuntime: bool, events: seq<Event>)
    ensures var w := Run(Init(networkRuntime), events); var k := Watch(NoWalk, Init(networkRuntime), events);
      |w.workers| == 1 && !StartPhase(w.workers[0].pc) && w.r.state != Stopping ==> GaveUp(k, w, w.workers[0].target)
  {
    InitInv(networkRuntime);
    RunWalks(NoWalk, Init(networkRuntime), events);
  }

  /** A call that returned a lease is connected in two more steps, unless the attempt is stopped or replaced meanwhile. */
  lemma OkCallConnects(w: World, a: Answer, b: Answer, c: Answer)
    requires Inv(w) && |w.workers| == 1 && w.workers[0].pc.InStart? && w.r.state != Stopping && Ok(a)
    ensures var v := Next(Next(Next(w, Work(0, a)), Work(0, b)), Work(0, c));
      |v.workers| == 1 && v.workers[0].pc.Waiting? && v.r.state == Connected && v.r.generation == w.r.generation
  {
  }

  // ------------------------------------------------------------ an end in sight

  /** How far a worker is from waiting on its connection, or from its end, if candidates keep failing. */
  function Rank(r: Record, pc: Pc): nat {
    var all := 20 + 10 * |r.activeProfiles|;
    match pc
    case NetCheck => all + 14
    case NetTunnel(_) => all + 13
    case NetRuntime(_) => all + 12
    case NetActivate => all + 11
    case NetContext => all + 10
    case Snapshot => all + 9
    case Candidate(profiles, i) => 20 + 10 * Left(profiles, i) + 8
    case Announce(profiles, i) => 20 + 10 * Left(profiles, i) + 7
    case InStart(profiles, i) => 20 + 10 * Left(profiles, i) + 6
    case Started(profiles, i, _, _) => 20 + 10 * Left(profiles, i) + 5
    case Releasing(profiles, i, _, _) => 20 + 10 * Left(profiles, i) + 2
    case Retired(profiles, i, _) => 20 + 10 * Left(profiles, i) + 1
    case Connecting => 11
    case Waiting => 10
    case Reporting => 9
    case FinLock(_) => if ReleasesNetwork(r) then 4 else 8
    case FinAttempt(_, _) => if ReleasesNetwork(r) then 3 else 7
    case FinDecide(_, _) => if ReleasesNetwork(r) then 2 else 6
    case FinNetwork(_, _) => 1
    case FinEnd(_, releaseNetwork, _) => if releaseNetwork then 0 else 5
  }

  function Left(profiles: seq<Profile>, i: nat): nat { if i <= |profiles| then |profiles| - i else 0 }

  function Ahead(w: World): nat { if w.workers == [] then 0 else 2 * Rank(w.r, w.workers[0].pc) + |Stack(w)| + 1 }

  /** The attempt waits on its connection, is over, or has made room for another one. */
  predicate Concluded(w: World) { w.workers == [] || w.workers[0].pc.Waiting? || AtNetCheck(w) }

  /** A step brings the worker closer, or releases a closer. */
  predicate Nearer(w: World, v: World) {
    |w.workers| == 1 && |v.workers| == 1 &&
    (Rank(v.r, v.workers[0].pc) < Rank(w.r, w.workers[0].pc) || (v.workers[0].pc == w.workers[0].pc && v.r == w.r && |Stack(v)| < |Stack(w)|))
  }

  lemma NetworkNears(w: World, a: Answer)
    requires |w.workers| == 1 && !WorkStep(w, 0, a).panicked
    requires var pc := w.workers[0].pc; pc.NetCheck? || pc.NetTunnel? || pc.NetRuntime? || pc.NetActivate? || pc.NetContext?
    ensures Nearer(w, WorkStep(w, 0, a))
  {
    hide Stack, Closers;
  }

  lemma WalkNears(w: World, a: Answer)
    requires |w.workers| == 1 && WorkerOk(w, w.workers[0]) && !WorkStep(w, 0, a).panicked
    requires var pc := w.workers[0].pc; pc.Snapshot? || pc.Candidate? || pc.InStart? || pc.Started? || pc.Retired?
    ensures Nearer(w, WorkStep(w, 0, a))
  {
    hide Stack, RunsAttempt, Closers;
  }

  lemma AnnounceNears(w: World, a: Answer)
    requires |w.workers| == 1 && WorkerOk(w, w.workers[0]) && !WorkStep(w, 0, a).panicked
    requires w.workers[0].pc.Announce?
    ensures Nearer(w, WorkStep(w, 0, a))
  {
    hide Stack, RunsAttempt, Closers, CallOf;
  }

  lemma ConnectNears(w: World, a: Answer)
    requires |w.workers| == 1 && (w.workers[0].pc.Connecting? || w.workers[0].pc.Reporting?)
    ensures Nearer(w, WorkStep(w, 0, a))
  {
    hide Stack, Closers, PrepareHealthRecovery;
  }

  lemma MoveNears(w: World, a: Answer)
    requires |w.workers| == 1 && WorkerOk(w, w.workers[0]) && !WorkStep(w, 0, a).panicked
    requires StartPhase(w.workers[0].pc) && !w.workers[0].pc.Waiting? && !w.workers[0].pc.Releasing?
    ensures Nearer(w, WorkStep(w, 0, a))
  {
    var pc := w.workers[0].pc;
    hide Nearer, WorkStep, WorkerOk;
    if pc.Announce? {
      AnnounceNears(w, a);
    } else if pc.Connecting? || pc.Reporting? {
      ConnectNears(w, a);
    } else if pc.Snapshot? || pc.Candidate? || pc.InStart? || pc.Started? || pc.Retired? {
      WalkNears(w, a);
    } else {
      NetworkNears(w, a);
    }
  }

  lemma ReleaseNears(w: World, a: Answer, id: LedgerId)
    requires Inv(w) && |w.workers| == 1
    requires var pc := w.workers[0].pc;
      ((pc.Releasing? || pc.FinAttempt?) && pc.work == Some(id)) || (pc.FinNetwork? && pc.network == id)
    ensures Nearer(w, WorkStep(w, 0, a))
  {
    assert WorkerOk(w, w.workers[0]) && RecordOk(w.r) && HeapOk(w) && AttemptActive(w.r.state);
    assert id in w.ledgers;
    if w.ledgers[id] != [] {
      PopFromTop(w, id);
      T.StackShrinks(w, Pop(w, id));
    }
    hide Inv, RecordOk, HeapOk, Stack, OneStack, WorkerOk;
    ReleaseStepNears(w, a, id);
  }

  lemma ReleaseStepNears(w: World, a: Answer, id: LedgerId)
    requires |w.workers| == 1 && id in w.ledgers
    requires var pc := w.workers[0].pc;
      ((pc.Releasing? || pc.FinAttempt?) && pc.work == Some(id)) || (pc.FinNetwork? && pc.network == id)
    requires w.ledgers[id] != [] ==> |Stack(Pop(w, id))| < |Stack(w)|
    requires w.workers[0].pc.FinNetwork? ==> ReleasesNetwork(w.r)
    ensures Nearer(w, WorkStep(w, 0, a))
  {
    hide Stack;
  }

  lemma FinishNears(w: World, a: Answer)
    requires Inv(w) && |w.workers| == 1
    requires var pc := w.workers[0].pc; pc.FinLock? || pc.FinDecide? || (pc.FinAttempt? && pc.work == None)
    ensures Nearer(w, WorkStep(w, 0, a))
  {
    assert WorkerOk(w, w.workers[0]) && RecordOk(w.r) && AttemptActive(w.r.state);
    hide Inv, Stack;
  }

  lemma EndNears(w: World, a: Answer)
    requires Inv(w) && |w.workers| == 1 && w.workers[0].pc.FinEnd?
    ensures var v := WorkStep(w, 0, a); Concluded(v) || Nearer(w, v)
  {
    var pc := w.workers[0].pc;
    assert WorkerOk(w, w.workers[0]) && RecordOk(w.r) && AttemptActive(w.r.state);
    FinishEndEffect(w.r, pc.cause, pc.releaseNetwork, pc.cleanupErr);
    T.EndStepIs(w, a);
    ReleaseEnds(w.r, pc.cause, pc.cleanupErr);
    hide Inv, Stack, FinishEnd, WorkStep;
  }

  /** Once the network is released there is nothing more to finish. */
  lemma ReleaseEnds(r: Record, cause: Cause, cleanupErr: bool)
    ensures !FinishEnd(r, r.generation, cause, true, cleanupErr).go.GoFinish?
  {
  }

  /** Every step of a worker that is not waiting on a connection brings it nearer, whatever the step is answered. */
  lemma StepNears(w: World, a: Answer)
    requires Inv(w) && |w.workers| == 1 && !w.workers[0].pc.Waiting?
    ensures var v := WorkStep(w, 0, a); Inv(v) && (Concluded(v) || (OneStack(w, v) && Nearer(w, v)))
  {
    var pc := w.workers[0].pc;
    StepInv(w, Work(0, a));
    assert Next(w, Work(0, a)) == WorkStep(w, 0, a);
    assert WorkerOk(w, w.workers[0]) && AttemptActive(w.r.state) && !w.panicked && !WorkStep(w, 0, a).panicked;
    hide Inv, Next, WorkStep, Nearer, Concluded, OneStack, WorkerOk;
    if pc.Releasing? {
      ReleaseKnown(w);
      ReleaseNears(w, a, pc.work.value);
    } else if pc.FinNetwork? {
      ReleaseNears(w, a, pc.network);
    } else if pc.FinAttempt? && pc.work.Some? {
      ReleaseNears(w, a, pc.work.value);
    } else if pc.FinEnd? {
      EndNears(w, a);
    } else if StartPhase(pc) {
      MoveNears(w, a);
    } else {
      FinishNears(w, a);
    }
  }

  lemma ReleaseKnown(w: World)
    requires Inv(w) && |w.workers| == 1 && w.workers[0].pc.Releasing?
    ensures w.workers[0].pc.work.Some?
  {
    assert WorkerOk(w, w.workers[0]);
    hide RecordOk, HeapOk;
  }

  lemma AheadShrinks(w: World, v: World)
    requires |w.workers| == 1 && OneStack(w, v) && Nearer(w, v)
    ensures Ahead(v) < Ahead(w)
  {
    hide Stack, Rank;
  }

  /**
   No attempt goes on for ever: whatever its steps are answered, within a number of
   them that the inventory and the closers held decide it waits on a connection,
   is over, or has been succeeded by the attempt that was queued.
   */
  lemma {:induction false} AttemptsConclude(w: World, answers: seq<Answer>) returns (n: nat)
    requires Inv(w) && |answers| >= Ahead(w)
    ensures n <= |answers| && var v := Run(w, T.Works(answers[..n])); Inv(v) && (n > 0 || w.workers == [] || w.workers[0].pc.Waiting?) && Concluded(v)
    decreases |answers|
  {
    hide Inv, Next, Stack, OneStack, Nearer, WorkStep;
    if w.workers == [] || w.workers[0].pc.Waiting? {
      n := 0;
      assert T.Works(answers[..0]) == [];
    } else {
      OnlyOne(w);
      var v := Next(w, Work(0, answers[0]));
      assert v == WorkStep(w, 0, answers[0]) by { NextIsStep(w, answers[0]); }
      StepNears(w, answers[0]);
      if Concluded(v) {
        n := 1;
        assert answers[..1] == [answers[0]] && T.Works([answers[0]]) == [Work(0, answers[0])] && [Work(0, answers[0])][1..] == [];
      } else {
        AheadShrinks(w, v);
        var m := AttemptsConclude(v, answers[1..]);
        n := m + 1;
        var works := T.Works(answers[..n]);
        assert works[0] == Work(0, answers[0]) && works[1..] == T.Works(answers[1..][..m]);
      }
    }
  }

  lemma OnlyOne(w: World)
    requires Inv(w)
    ensures |w.workers| <= 1
  {
  }

  lemma NextIsStep(w: World, a: Answer)
    requires |w.workers| == 1
    ensures Next(w, Work(0, a)) == WorkStep(w, 0, a)
  {
  }
}
