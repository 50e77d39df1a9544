/**
 The Outline device: workers accept and dial, every connection they track is
 recorded even while the device closes, and Close drains in two phases. A third
 object that keeps the drained-owner promise, by waiting for workers instead of
 refusing dials.
 */
module OutlineDevice {
  import D = DrainedOwner

  /** A worker runs, or holds a connection it has not tracked yet. */
  datatype Worker = Running | Holding(conn: nat)

  datatype Conn = Conn(live: bool, worker: nat)

  /** Close: the first sweep and the listener, waiting for workers, the second sweep. */
  datatype Cleanup = NoCleanup | First(todo: set<nat>, failed: bool) | Drain | Late(todo: set<nat>, failed: bool)

  /** `connections` are the tracked connections not yet successfully closed. */
  datatype World = World(
    closing: bool,
    listening: bool,
    workers: map<nat, Worker>,
    ended: set<nat>,
    conns: map<nat, Conn>,
    connections: set<nat>,
    cleanup: Cleanup,
    reported: bool)

  function Start(first: nat): World { World(false, true, map[first := Running], {}, map[], {}, NoCleanup, false) }

  datatype Event =
    | Submit(parent: nat, child: nat)
    | Obtain(w: nat, c: nat)
    | Track(w: nat)
    | Closes(c: nat, ok: bool)
    | Exit(w: nat)
    | CloseDevice
    | CloseListener(ok: bool)
    | Sweep(c: nat, ok: bool)
    | Proceed

  /** Only a live worker submits another one. */
  function SubmitStep(w: World, parent: nat, child: nat): World {
    if parent !in w.workers || child in w.workers || child in w.ended then w
    else w.(workers := w.workers[child := Running])
  }

  function ObtainStep(w: World, k: nat, c: nat): World {
    if k !in w.workers || w.workers[k] != Running || c in w.conns then w
    else w.(workers := w.workers[k := Holding(c)], conns := w.conns[c := Conn(true, k)])
  }

  /** track records the connection first; while closing it is recorded but not handed out. */
  function TrackStep(w: World, k: nat): World {
    if k !in w.workers || w.workers[k] == Running then w
    else w.(workers := w.workers[k := Running], connections := w.connections + {w.workers[k].conn})
  }

  /** ownedConn.Close: a connection leaves the record only when its close succeeded. */
  function CloseConn(w: World, c: nat, ok: bool): World
    requires c in w.conns
  {
    if !ok || c !in w.connections then w
    else w.(connections := w.connections - {c}, conns := w.conns[c := w.conns[c].(live := false)])
  }

  function ExitStep(w: World, k: nat): World {
    if k !in w.workers || w.workers[k] != Running then w
    else w.(workers := w.workers - {k}, ended := w.ended + {k})
  }

  function CloseDeviceStep(w: World): World {
    if w.cleanup != NoCleanup then w else w.(closing := true, cleanup := First(w.connections, false))
  }

  function CloseListenerStep(w: World, ok: bool): World {
    if !w.cleanup.First? then w
    else w.(listening := w.listening && !ok, cleanup := First(w.cleanup.todo, w.cleanup.failed || !ok))
  }

  /** One connection of the current sweep; a failure is remembered and the sweep goes on. */
  function SweepStep(w: World, c: nat, ok: bool): World {
    if !(w.cleanup.First? || w.cleanup.Late?) || c !in w.cleanup.todo then w
    else
      var failed := w.cleanup.failed || (c in w.connections && !ok);
      var v := w.(cleanup := w.cleanup.(todo := w.cleanup.todo - {c}, failed := failed));
      if c in w.conns then CloseConn(v, c, ok) else v
  }

  /** Close ends with an error after a failed first sweep, waits for every worker, sweeps what they left, and reports. */
  function ProceedStep(w: World): World {
    match w.cleanup
    case First(todo, failed) =>
      if todo != {} || (!failed && w.listening) then w
      else if failed then w.(cleanup := NoCleanup)
      else w.(cleanup := Drain)
    case Drain => if w.workers != map[] then w else w.(cleanup := Late(w.connections, false))
    case Late(todo, failed) =>
      if todo != {} then w else w.(cleanup := NoCleanup, reported := w.reported || !failed)
    case NoCleanup => w
  }

  function Next(w: World, e: Event): World {
    match e
    case Submit(parent, child) => SubmitStep(w, parent, child)
    case Obtain(k, c) => ObtainStep(w, k, c)
    case Track(k) => TrackStep(w, k)
    case Closes(c, ok) => if c in w.conns then CloseConn(w, c, ok) else w
    case Exit(k) => ExitStep(w, k)
    case CloseDevice => CloseDeviceStep(w)
    case CloseListener(ok) => CloseListenerStep(w, ok)
    case Sweep(c, ok) => SweepStep(w, c, ok)
    case Proceed => ProceedStep(w)
  }

  function Run(w: World, events: seq<Event>): World
    decreases |events|
  {
    if events == [] then w else Run(Next(w, events[0]), events[1..])
  }

  // ---------------------------------------------------------------- invariant

  predicate ConnOk(w: World, c: nat) {
    && (c in w.connections ==> c in w.conns && w.conns[c].live)
    && (c in w.conns && w.conns[c].live ==> c in w.connections || HeldBy(w, w.conns[c].worker, c))
  }

  predicate HeldBy(w: World, k: nat, c: nat) { k in w.workers && w.workers[k] == Holding(c) }

  predicate WorkerOk(w: World, k: nat)
    requires k in w.workers
  {
    w.workers[k].Holding? ==>
      var c := w.workers[k].conn; c in w.conns && w.conns[c] == Conn(true, k) && c !in w.connections
  }

  predicate CleanupOk(w: World) {
    && (w.cleanup.Late? ==> w.workers == map[])
    && (w.cleanup.Late? && !w.cleanup.failed ==> w.connections <= w.cleanup.todo)
    && (w.reported ==> w.workers == map[] && w.connections == {})
  }

  ghost predicate Inv(w: World) {
    && CleanupOk(w)
    && (forall c :: ConnOk(w, c))
    && (forall k :: k in w.workers ==> WorkerOk(w, k))
  }

  lemma ConnStep(w: World, e: Event, c: nat)
    requires Inv(w)
    ensures ConnOk(Next(w, e), c)
  {
    assert ConnOk(w, c);
    if e.Track? && e.w in w.workers {
      assert WorkerOk(w, e.w);
    }
    if c in w.conns && w.conns[c].worker in w.workers {
      assert WorkerOk(w, w.conns[c].worker);
    }
    hide Inv, CleanupOk;
  }

  lemma WorkerStep(w: World, e: Event, k: nat)
    requires Inv(w) && k in Next(w, e).workers
    ensures WorkerOk(Next(w, e), k)
  {
    if k in w.workers {
      assert WorkerOk(w, k);
    }
    if e.Track? && e.w in w.workers {
      assert WorkerOk(w, e.w);
    }
    if e.Obtain? {
      assert ConnOk(w, e.c);
    }
    hide Inv, CleanupOk;
  }

  lemma StepInv(w: World, e: Event)
    requires Inv(w)
    ensures Inv(Next(w, e))
  {
    forall c
      ensures ConnOk(Next(w, e), c)
    {
      ConnStep(w, e, c);
    }
    forall k | k in Next(w, e).workers
      ensures WorkerOk(Next(w, e), k)
    {
      WorkerStep(w, e, k);
    }
    if e.Sweep? {
      assert ConnOk(w, e.c);
    }
    hide ConnOk, WorkerOk;
  }

  lemma {:induction false} RunInv(w: World, events: seq<Event>)
    requires Inv(w)
    ensures Inv(Run(w, events))
    decreases |events|
  {
    if events != [] {
      StepInv(w, events[0]);
      RunInv(Next(w, events[0]), events[1..]);
    }
  }

  // --------------------------------------------------------------- simulation

  function LiveConns(w: World): set<nat> { set c | c in w.conns && w.conns[c].live }

  /** The device seals itself when its last worker ends: only a live worker can start another. */
  function Abs(w: World): D.Owner { D.Owner(w.workers == map[], w.workers.Keys, LiveConns(w), w.reported) }

  function Actions(w: World, e: Event): seq<D.Action> {
    var v := Next(w, e);
    if v == w then []
    else
      match e
      case Submit(_, child) => [D.Admit(child)]
      case Obtain(k, c) => [D.Obtain(k, c)]
      case Exit(k) => if v.workers == map[] then [D.End(k), D.Seal] else [D.End(k)]
      case Closes(c, _) => [D.CloseSocket(c)]
      case Sweep(c, _) => if v.conns == w.conns then [] else [D.CloseSocket(c)]
      case Proceed => if v.reported != w.reported then [D.Report] else []
      case _ => []
  }

  lemma NothingOpen(w: World)
    requires Inv(w) && w.workers == map[] && w.connections == {}
    ensures LiveConns(w) == {}
  {
    forall c | c in w.conns
      ensures !w.conns[c].live
    {
      assert ConnOk(w, c);
    }
  }

  /** Every event is a run of steps the drained-owner specification allows. */
  lemma Simulates(w: World, e: Event)
    requires Inv(w)
    ensures D.Allowed(Abs(w), Actions(w, e)) && D.ApplyAll(Abs(w), Actions(w, e)) == Abs(Next(w, e))
  {
    var v, actions := Next(w, e), Actions(w, e);
    if v != w {
      if e.Submit? || e.Obtain? || e.Exit? {
        WorkerSimulates(w, e);
      } else if e.Closes? || e.Sweep? {
        assert ConnOk(w, e.c);
        if v.conns == w.conns {
          assert LiveConns(v) == LiveConns(w);
        } else {
          assert LiveConns(v) == LiveConns(w) - {e.c};
          OneAction(Abs(w), actions);
        }
      } else if e.Proceed? && v.reported != w.reported {
        NothingOpen(w);
        OneAction(Abs(w), actions);
      } else if e.Track? {
        assert v.workers.Keys == w.workers.Keys;
      }
    }
  }

  lemma OneAction(o: D.Owner, actions: seq<D.Action>)
    requires |actions| == 1
    ensures D.Allowed(o, actions) == D.Enabled(o, actions[0])
    ensures D.ApplyAll(o, actions) == D.Apply(o, actions[0])
  {
    assert actions[1..] == [];
  }

  lemma WorkerSimulates(w: World, e: Event)
    requires Inv(w) && Next(w, e) != w && (e.Submit? || e.Obtain? || e.Exit?)
    ensures D.Allowed(Abs(w), Actions(w, e)) && D.ApplyAll(Abs(w), Actions(w, e)) == Abs(Next(w, e))
  {
    var v, actions := Next(w, e), Actions(w, e);
    if e.Submit? {
      assert w.workers.Keys != {} && v.workers.Keys == w.workers.Keys + {e.child};
      OneAction(Abs(w), actions);
    } else if e.Obtain? {
      assert v.workers.Keys == w.workers.Keys && LiveConns(v) == LiveConns(w) + {e.c};
      OneAction(Abs(w), actions);
    } else {
      assert v.workers.Keys == w.workers.Keys - {e.w} && LiveConns(v) == LiveConns(w);
      var next := D.Apply(Abs(w), D.End(e.w));
      assert actions[1..] == (if v.workers == map[] then [D.Seal] else []);
      if v.workers == map[] {
        OneAction(next, actions[1..]);
      }
    }
  }

  lemma {:induction false} StaysDrained(w: World, events: seq<Event>)
    requires Inv(w) && D.Drained(Abs(w))
    ensures D.Drained(Abs(Run(w, events)))
    decreases |events|
  {
    if events != [] {
      Simulates(w, events[0]);
      StepInv(w, events[0]);
      DrainedSteps(Abs(w), Actions(w, events[0]));
      hide Inv, Next, Abs, Actions;
      StaysDrained(Next(w, events[0]), events[1..]);
    }
  }

  lemma {:induction false} DrainedSteps(o: D.Owner, actions: seq<D.Action>)
    requires D.Drained(o) && D.Allowed(o, actions)
    ensures D.Drained(D.ApplyAll(o, actions))
    decreases |actions|
  {
    if actions != [] {
      D.DrainedStays(o, D.Apply(o, actions[0]), actions[0]);
      DrainedSteps(D.Apply(o, actions[0]), actions[1..]);
    }
  }

  /**
   When Close returns success, every connection a worker ever tracked is closed,
   including those tracked after closing began, no worker is left, and none of
   this changes later.
   */
  lemma SuccessMeansDrained(first: nat, events: seq<Event>, later: seq<Event>)
    requires var w := Run(Start(first), events); w.cleanup == Late({}, false)
    ensures var v := Next(Run(Start(first), events), Proceed);
      D.Drained(Abs(v)) && D.Drained(Abs(Run(v, later)))
  {
    assert Inv(Start(first));
    RunInv(Start(first), events);
    var w := Run(Start(first), events);
    StepInv(w, Proceed);
    NothingOpen(Next(w, Proceed));
    StaysDrained(Next(w, Proceed), later);
  }

  /** A tracked connection that is still open is recorded, so that another Close finds it. */
  lemma OpenIsRecorded(first: nat, events: seq<Event>, c: nat)
    ensures var w := Run(Start(first), events);
      c in w.conns && w.conns[c].live && !HeldBy(w, w.conns[c].worker, c) ==> c in w.connections
  {
    assert Inv(Start(first));
    RunInv(Start(first), events);
    assert ConnOk(Run(Start(first), events), c);
  }

  // ---------------------------------------------------------------- service

  /** What a worker obtains and tracks is open and recorded, and the worker goes on. */
  lemma WorkersTrack(w: World, k: nat, c: nat)
    requires k in w.workers && w.workers[k] == Running && c !in w.conns
    ensures var v := Next(Next(w, Obtain(k, c)), Track(k));
      && v.workers == w.workers && v.connections == w.connections + {c} && c in v.conns && v.conns[c] == Conn(true, k)
  {
    var u := Next(w, Obtain(k, c));
    assert u.workers[k := Running] == w.workers;
  }

  /** A worker that holds nothing can end, and a live one can start another. */
  lemma WorkersComeAndGo(w: World, k: nat, child: nat)
    requires k in w.workers && w.workers[k] == Running && child !in w.workers && child !in w.ended
    ensures Next(w, Exit(k)).workers == w.workers - {k}
    ensures Next(w, Submit(k, child)).workers == w.workers[child := Running]
  {
  }

  /** One successful close for each of these connections. */
  function Sweeps(cs: seq<nat>): seq<Event>
    decreases |cs|
  {
    if cs == [] then [] else [Sweep(cs[0], true)] + Sweeps(cs[1..])
  }

  ghost predicate Lists(cs: seq<nat>, connections: set<nat>) {
    (forall c :: c in cs <==> c in connections) && (forall i, j :: 0 <= i < j < |cs| ==> cs[i] != cs[j])
  }

  function WithTodo(cleanup: Cleanup, todo: set<nat>): Cleanup
    requires cleanup.First? || cleanup.Late?
  {
    if cleanup.First? then First(todo, cleanup.failed) else Late(todo, cleanup.failed)
  }

  lemma SweepForgets(w: World, c: nat)
    requires (w.cleanup.First? || w.cleanup.Late?) && !w.cleanup.failed && w.cleanup.todo == w.connections && c in w.connections && c in w.conns
    ensures var v := Next(w, Sweep(c, true));
      && v.connections == w.connections - {c} && v.cleanup == WithTodo(w.cleanup, v.connections) && v.workers == w.workers && v.listening == w.listening
  {
  }

  lemma ListsRest(cs: seq<nat>, connections: set<nat>)
    requires Lists(cs, connections) && cs != []
    ensures Lists(cs[1..], connections - {cs[0]})
  {
    forall c
      ensures c in cs[1..] <==> c in connections - {cs[0]}
    {
      if c in cs && c != cs[0] {
        var i :| 0 <= i < |cs| && cs[i] == c;
        assert cs[1..][i - 1] == c;
      }
    }
  }

  /** A sweep in which every close succeeds leaves nothing recorded, and no failure. */
  lemma {:induction false} SweepsAll(w: World, cs: seq<nat>)
    requires Inv(w) && (w.cleanup.First? || w.cleanup.Late?) && !w.cleanup.failed && w.cleanup.todo == w.connections && Lists(cs, w.connections)
    ensures var v := Run(w, Sweeps(cs));
      Inv(v) && v.connections == {} && v.cleanup == WithTodo(w.cleanup, {}) && v.workers == w.workers && v.listening == w.listening
    decreases |cs|
  {
    if cs != [] {
      var c := cs[0];
      var v := Next(w, Sweep(c, true));
      assert c in w.connections && ConnOk(w, c);
      StepInv(w, Sweep(c, true));
      SweepForgets(w, c);
      ListsRest(cs, w.connections);
      assert ([Sweep(c, true)] + Sweeps(cs[1..]))[1..] == Sweeps(cs[1..]);
      hide Inv, Next, Lists;
      SweepsAll(v, cs[1..]);
    } else {
      assert w.connections == {};
      hide Inv;
    }
  }

  /** If the listener and every connection close, Close gets past its first sweep and waits for the workers. */
  lemma FirstSweepPasses(w: World, cs: seq<nat>)
    requires Inv(w) && w.cleanup == NoCleanup && Lists(cs, w.connections)
    ensures var v := Next(Run(Next(Next(w, CloseDevice), CloseListener(true)), Sweeps(cs)), Proceed);
      v.cleanup == Drain && v.connections == {} && v.workers == w.workers && !v.listening
  {
    hide Run, Sweeps, Lists;
    var c := Next(w, CloseDevice);
    var l := Next(c, CloseListener(true));
    StepInv(w, CloseDevice);
    StepInv(c, CloseListener(true));
    assert l.cleanup == First(l.connections, false) && l.connections == w.connections && l.workers == w.workers && !l.listening;
    hide Inv;
    SweepsAll(l, cs);
  }

  /** Once the workers have ended, a second sweep whose closes succeed makes Close succeed. */
  lemma CloseSucceeds(w: World, cs: seq<nat>)
    requires Inv(w) && w.cleanup == Drain && w.workers == map[] && Lists(cs, w.connections)
    ensures var v := Next(Run(Next(w, Proceed), Sweeps(cs)), Proceed); v.reported && v.connections == {} && v.cleanup == NoCleanup
  {
    hide Run, Sweeps, Lists;
    var d := Next(w, Proceed);
    StepInv(w, Proceed);
    assert d.cleanup == Late(d.connections, false) && d.connections == w.connections;
    hide Inv;
    SweepsAll(d, cs);
  }

  // -------------------------------------------------------------- the object

  class Device {
    var closing: bool
    var connections: set<nat>

    constructor ()
      ensures !closing && connections == {}
    {
      closing, connections := false, {};
    }

    /** Recorded whatever happens; handed out only while the device is open. */
    method TrackConn(ghost w: World, ghost k: nat, conn: nat) returns (handed: bool)
      requires k in w.workers && w.workers[k] == Holding(conn) && connections == w.connections && closing == w.closing
      modifies this`connections
      ensures connections == TrackStep(w, k).connections && handed == !w.closing
    {
      connections := connections + {conn};
      handed := !closing;
    }

    method ForgetConn(ghost w: World, conn: nat)
      requires conn in w.conns && connections == w.connections
      modifies this`connections
      ensures connections == CloseConn(w, conn, true).connections
    {
      connections := connections - {conn};
    }

    /** The lock of Close: from here on what is tracked is swept only after every worker has ended. */
    method BeginClose(ghost w: World) returns (todo: set<nat>)
      requires w.cleanup == NoCleanup && connections == w.connections
      modifies this`closing
      ensures closing && CloseDeviceStep(w).cleanup == First(todo, false)
    {
      closing, todo := true, connections;
    }
  }
}
