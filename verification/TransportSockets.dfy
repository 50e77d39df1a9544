/**
 transportSockets: every socket the dialer of one transport returns, including
 those obtained by dials that were pending when the transport closed. The same
 drained-owner promise as a flow owner, met by a different object: a socket is
 recorded even after closing began, and a dial may try several addresses.
 */
module TransportSockets {
  import opened FlowOwner
  import D = DrainedOwner

  datatype Pc = Dialing | Holding(socket: nat) | Checking(socket: nat) | Closing(socket: nat) | Returning(socket: nat) | Ending | Ended

  /** An open or closed socket and the dial that obtained it. */
  datatype Socket = Socket(live: bool, dial: nat)

  datatype Cleanup = NoCleanup | Sweeping(todo: set<nat>, pending: int)

  /** `owned` maps a recorded socket to whether its last close failed; `busy` are closes between the raw close and that record. */
  datatype World = World(
    closing: bool,
    pending: int,
    settled: Chan,
    owned: map<nat, bool>,
    dials: map<nat, Pc>,
    sockets: map<nat, Socket>,
    busy: map<nat, bool>,
    cleanup: Cleanup,
    reported: bool,
    panicked: bool)

  const Start := World(false, 0, NoChan, map[], map[], map[], map[], NoCleanup, false, false)

  datatype Event =
    | Begin(d: nat)
    | DialFails(d: nat)
    | Obtains(d: nat, s: nat)
    | Track(d: nat)
    | Check(d: nat, cancelled: bool)
    | CloseRaw(d: nat, ok: bool)
    | CloseReturns(d: nat, another: bool)
    | End(d: nat)
    | HandleCloses(s: nat, ok: bool)
    | Record(s: nat)
    | Close
    | Sweep(s: nat, ok: bool)
    | WaitReturns(timedOut: bool)

  predicate At(w: World, d: nat, pc: Pc) { d in w.dials && w.dials[d] == pc }

  function Goto(w: World, d: nat, pc: Pc): World { w.(dials := w.dials[d := pc]) }

  function BeginStep(w: World, d: nat): World {
    if d in w.dials || w.closing then w
    else w.(pending := w.pending + 1, settled := if w.pending == 0 then OpenChan else w.settled, dials := w.dials[d := Dialing])
  }

  function ObtainsStep(w: World, d: nat, s: nat): World {
    if !At(w, d, Dialing) || s in w.sockets then w
    else w.(dials := w.dials[d := Holding(s)], sockets := w.sockets[s := Socket(true, d)])
  }

  /** The socket is recorded first; a dial that finds closing under way closes it itself. */
  function TrackStep(w: World, d: nat): World {
    if !(d in w.dials && w.dials[d].Holding?) then w
    else
      var s := w.dials[d].socket;
      w.(owned := w.owned[s := false], dials := w.dials[d := if w.closing then Closing(s) else Checking(s)])
  }

  function CheckStep(w: World, d: nat, cancelled: bool): World {
    if !(d in w.dials && w.dials[d].Checking?) then w
    else Goto(w, d, if cancelled then Closing(w.dials[d].socket) else Ending)
  }

  /** The raw close of a recorded socket no other close is working on. */
  function CloseSocket(w: World, s: nat, ok: bool): World
    requires s in w.sockets
  {
    if !w.sockets[s].live then w
    else w.(busy := w.busy[s := ok], sockets := if ok then w.sockets[s := w.sockets[s].(live := false)] else w.sockets)
  }

  predicate CanClose(w: World, s: nat) { s in w.sockets && s in w.owned && s !in w.busy }

  function CloseRawStep(w: World, d: nat, ok: bool): World {
    if !(d in w.dials && w.dials[d].Closing?) then w
    else
      var s := w.dials[d].socket;
      if s in w.owned && !CanClose(w, s) then w
      else if s !in w.owned then Goto(w, d, Returning(s))
      else CloseSocket(Goto(w, d, Returning(s)), s, ok)
  }

  /** A dial whose socket was refused may try another address. */
  function CloseReturnsStep(w: World, d: nat, another: bool): World {
    if !(d in w.dials && w.dials[d].Returning?) || w.dials[d].socket in w.busy then w
    else Goto(w, d, if another then Dialing else Ending)
  }

  function EndStep(w: World, d: nat): World {
    if !At(w, d, Ending) then w
    else
      var left := w.pending - 1;
      w.(pending := left, settled := if left == 0 then ClosedChan else w.settled,
         panicked := w.panicked || (left == 0 && w.settled != OpenChan), dials := w.dials[d := Ended])
  }

  function RecordStep(w: World, s: nat): World {
    if s !in w.busy then w
    else w.(owned := if w.busy[s] then w.owned - {s} else w.owned[s := true], busy := w.busy - {s})
  }

  function CloseStep(w: World): World {
    if w.cleanup != NoCleanup then w
    else w.(closing := true, cleanup := Sweeping(w.owned.Keys, w.pending))
  }

  function SweepStep(w: World, s: nat, ok: bool): World {
    if !w.cleanup.Sweeping? || s !in w.cleanup.todo then w
    else
      var v := w.(cleanup := w.cleanup.(todo := w.cleanup.todo - {s}));
      if s !in w.owned then v else if !CanClose(w, s) then w else CloseSocket(v, s, ok)
  }

  predicate WaitReturnsNow(w: World, timedOut: bool) {
    w.cleanup.Sweeping? && w.cleanup.todo == {} && (w.cleanup.pending == 0 || w.settled == ClosedChan || timedOut)
  }

  /** Success is reported only with nothing pending and nothing recorded. */
  predicate WaitSucceeds(w: World, timedOut: bool) {
    WaitReturnsNow(w, timedOut) && w.pending == 0 && w.owned == map[]
  }

  function WaitStep(w: World, timedOut: bool): World {
    if !WaitReturnsNow(w, timedOut) then w
    else w.(cleanup := NoCleanup, reported := w.reported || WaitSucceeds(w, timedOut))
  }

  function Next(w: World, e: Event): World {
    match e
    case Begin(d) => BeginStep(w, d)
    case DialFails(d) => if At(w, d, Dialing) then Goto(w, d, Ending) else w
    case Obtains(d, s) => ObtainsStep(w, d, s)
    case Track(d) => TrackStep(w, d)
    case Check(d, cancelled) => CheckStep(w, d, cancelled)
    case CloseRaw(d, ok) => CloseRawStep(w, d, ok)
    case CloseReturns(d, another) => CloseReturnsStep(w, d, another)
    case End(d) => EndStep(w, d)
    case HandleCloses(s, ok) => if CanClose(w, s) then CloseSocket(w, s, ok) else w
    case Record(s) => RecordStep(w, s)
    case Close => CloseStep(w)
    case Sweep(s, ok) => SweepStep(w, s, ok)
    case WaitReturns(timedOut) => WaitStep(w, timedOut)
  }

  function Run(w: World, events: seq<Event>): World
    decreases |events|
  {
    if events == [] then w else Run(Next(w, events[0]), events[1..])
  }

  // --------------------------------------------------------------- invariant

  function PendingDials(dials: map<nat, Pc>): set<nat> { set d | d in dials && dials[d] != Ended }

  function LiveSockets(sockets: map<nat, Socket>): set<nat> { set s | s in sockets && sockets[s].live }

  /** An open socket is recorded or still in the hands of the dial that obtained it; a close in progress is recorded. */
  predicate SocketOk(w: World, s: nat) {
    && (s in w.sockets && w.sockets[s].live ==> s in w.owned || At(w, w.sockets[s].dial, Holding(s)))
    && (s in w.busy ==> s in w.owned && s in w.sockets && (w.busy[s] <==> !w.sockets[s].live))
    && (s in w.owned ==> s in w.sockets && (w.sockets[s].live || s in w.busy))
  }

  predicate DialOk(w: World, d: nat)
    requires d in w.dials
  {
    match w.dials[d]
    case Holding(s) => s in w.sockets && w.sockets[s] == Socket(true, d) && s !in w.owned
    case Checking(s) => s in w.sockets && w.sockets[s].dial == d
    case Closing(s) => s in w.sockets && w.sockets[s].dial == d
    case Returning(s) => s in w.sockets
    case _ => true
  }

  predicate CountsOk(w: World) {
    && !w.panicked
    && w.pending == |PendingDials(w.dials)|
    && (if w.pending > 0 then w.settled == OpenChan else w.settled != OpenChan)
    && (w.cleanup.Sweeping? ==> w.closing)
    && (w.reported ==> w.closing && w.pending == 0 && w.owned == map[])
  }

  ghost predicate Inv(w: World) {
    && CountsOk(w)
    && (forall s :: SocketOk(w, s))
    && (forall d :: d in w.dials ==> DialOk(w, d))
  }

  lemma PendingCounts(w: World, d: nat)
    requires CountsOk(w) && d in w.dials && w.dials[d] != Ended
    ensures w.pending > 0 && !w.reported
  {
    assert d in PendingDials(w.dials);
  }

  lemma PendingMoves(dials: map<nat, Pc>, d: nat, pc: Pc)
    ensures var after := dials[d := pc];
      |PendingDials(after)| == |PendingDials(dials)| + (if pc != Ended then 1 else 0)
                               - (if d in dials && dials[d] != Ended then 1 else 0)
  {
    var a, after := PendingDials(dials), dials[d := pc];
    assert PendingDials(after) == if pc != Ended then a + {d} else a - {d};
  }

  lemma CountsStep(w: World, e: Event)
    requires Inv(w)
    ensures CountsOk(Next(w, e))
  {
    if e.Begin? || e.DialFails? || e.Obtains? || e.Track? || e.Check? || e.CloseRaw? || e.CloseReturns? || e.End? {
      if e.d in w.dials && w.dials[e.d] != Ended {
        PendingCounts(w, e.d);
      }
      if e.d in Next(w, e).dials {
        PendingMoves(w.dials, e.d, Next(w, e).dials[e.d]);
      }
    } else if e.Record? && e.s in w.busy {
      assert SocketOk(w, e.s);
    }
  }

  lemma CloseSocketOk(w: World, c: nat, ok: bool, s: nat)
    requires CanClose(w, c) && SocketOk(w, s)
    ensures SocketOk(CloseSocket(w, c, ok), s)
  {
  }

  lemma SocketsStep(w: World, e: Event, s: nat)
    requires Inv(w)
    ensures SocketOk(Next(w, e), s)
  {
    assert SocketOk(w, s);
    if s in w.sockets && w.sockets[s].dial in w.dials {
      assert DialOk(w, w.sockets[s].dial);
    }
    if e.Track? && e.d in w.dials {
      assert DialOk(w, e.d);
    }
    hide Inv, CountsOk;
    if e.CloseRaw? && e.d in w.dials && w.dials[e.d].Closing? && CanClose(w, w.dials[e.d].socket) {
      CloseSocketOk(Goto(w, e.d, Returning(w.dials[e.d].socket)), w.dials[e.d].socket, e.ok, s);
    } else if e.HandleCloses? && CanClose(w, e.s) {
      CloseSocketOk(w, e.s, e.ok, s);
    } else if e.Sweep? && w.cleanup.Sweeping? && CanClose(w, e.s) {
      CloseSocketOk(w.(cleanup := w.cleanup.(todo := w.cleanup.todo - {e.s})), e.s, e.ok, s);
    }
  }

  lemma CloseDialOk(w: World, c: nat, ok: bool, d: nat)
    requires CanClose(w, c) && d in w.dials && DialOk(w, d)
    ensures DialOk(CloseSocket(w, c, ok), d)
  {
  }

  lemma DialsCloseRaw(w: World, e: nat, ok: bool, d: nat)
    requires d in w.dials && DialOk(w, d)
    ensures d in CloseRawStep(w, e, ok).dials && DialOk(CloseRawStep(w, e, ok), d)
  {
    if e in w.dials && w.dials[e].Closing? && CanClose(w, w.dials[e].socket) {
      CloseDialOk(Goto(w, e, Returning(w.dials[e].socket)), w.dials[e].socket, ok, d);
    }
  }

  lemma DialsClose(w: World, e: Event, d: nat)
    requires d in w.dials && DialOk(w, d) && (e.CloseRaw? || e.HandleCloses? || e.Sweep?)
    ensures d in Next(w, e).dials && DialOk(Next(w, e), d)
  {
    if e.CloseRaw? {
      DialsCloseRaw(w, e.d, e.ok, d);
    } else if e.HandleCloses? && CanClose(w, e.s) {
      CloseDialOk(w, e.s, e.ok, d);
    } else if e.Sweep? && w.cleanup.Sweeping? && CanClose(w, e.s) {
      CloseDialOk(w.(cleanup := w.cleanup.(todo := w.cleanup.todo - {e.s})), e.s, e.ok, d);
    }
    hide DialOk, CloseSocket, CloseRawStep;
  }

  lemma DialsStep(w: World, e: Event, d: nat)
    requires Inv(w) && d in Next(w, e).dials
    ensures DialOk(Next(w, e), d)
  {
    if e.Track? && e.d in w.dials {
      assert DialOk(w, e.d);
    }
    if e.Obtains? || e.Record? {
      assert SocketOk(w, e.s);
    }
    if d in w.dials {
      assert DialOk(w, d);
      if w.dials[d].Holding? {
        assert SocketOk(w, w.dials[d].socket);
      }
    }
    hide Inv, CountsOk;
    if e.CloseRaw? || e.HandleCloses? || e.Sweep? {
      hide SocketOk;
      SameDialKeys(w, e);
      DialsClose(w, e, d);
    } else {
      hide SocketOk, DialOk, Next;
      DialsElse(w, e, d);
    }
  }

  lemma DialsElse(w: World, e: Event, d: nat)
    requires !(e.CloseRaw? || e.HandleCloses? || e.Sweep?) && d in Next(w, e).dials
    requires d in w.dials ==> DialOk(w, d) && (w.dials[d].Holding? ==> SocketOk(w, w.dials[d].socket))
    requires e.Track? && e.d in w.dials ==> DialOk(w, e.d)
    requires e.Obtains? || e.Record? ==> SocketOk(w, e.s)
    ensures DialOk(Next(w, e), d)
  {
  }

  lemma SameDialKeys(w: World, e: Event)
    requires e.CloseRaw? || e.HandleCloses? || e.Sweep?
    ensures Next(w, e).dials.Keys == w.dials.Keys
  {
    if e.CloseRaw? {
      assert Next(w, e) == CloseRawStep(w, e.d, e.ok);
      RawKeepsKeys(w, e.d, e.ok);
    } else if e.Sweep? {
      assert Next(w, e) == SweepStep(w, e.s, e.ok);
      SweepKeepsKeys(w, e.s, e.ok);
    }
    hide CloseRawStep, SweepStep;
  }

  lemma RawKeepsKeys(w: World, d: nat, ok: bool)
    ensures CloseRawStep(w, d, ok).dials.Keys == w.dials.Keys
  {
  }

  lemma SweepKeepsKeys(w: World, s: nat, ok: bool)
    ensures SweepStep(w, s, ok).dials.Keys == w.dials.Keys
  {
  }

  lemma StepInv(w: World, e: Event)
    requires Inv(w)
    ensures Inv(Next(w, e))
  {
    CountsStep(w, e);
    forall s
      ensures SocketOk(Next(w, e), s)
    {
      SocketsStep(w, e, s);
    }
    forall d | d in Next(w, e).dials
      ensures DialOk(Next(w, e), d)
    {
      DialsStep(w, e, d);
    }
  }

  lemma {:induction false} RunInv(w: World, events: seq<Event>)
    requires Inv(w)
    ensures Inv(Run(w, events))
    decreases |events|
  {
    if events != [] {
      StepInv(w, events[0]);
      RunInv(Next(w, events[0]), events[1..]);
    }
  }

  // -------------------------------------------------------------- simulation

  function Abs(w: World): D.Owner {
    D.Owner(w.closing, PendingDials(w.dials), LiveSockets(w.sockets), w.reported)
  }

  function ActionOf(w: World, e: Event): D.Action {
    var v := Next(w, e);
    if v == w then D.Skip
    else
      match e
      case Begin(d) => D.Admit(d)
      case Obtains(d, s) => D.Obtain(d, s)
      case End(d) => D.End(d)
      case CloseRaw(d, ok) => if v.sockets == w.sockets then D.Skip else D.CloseSocket(w.dials[d].socket)
      case HandleCloses(s, _) => if v.sockets == w.sockets then D.Skip else D.CloseSocket(s)
      case Sweep(s, _) => if v.sockets == w.sockets then D.Skip else D.CloseSocket(s)
      case Close => D.Seal
      case WaitReturns(_) => if v.reported == w.reported then D.Skip else D.Report
      case _ => D.Skip
  }

  lemma NothingOpen(w: World)
    requires Inv(w) && w.pending == 0 && w.owned == map[]
    ensures PendingDials(w.dials) == {} && LiveSockets(w.sockets) == {}
  {
    forall s | s in w.sockets
      ensures !w.sockets[s].live
    {
      assert SocketOk(w, s);
      assert w.sockets[s].dial !in PendingDials(w.dials);
    }
  }

  lemma MovesAbs(dials: map<nat, Pc>, d: nat, pc: Pc)
    requires d in dials && dials[d] != Ended && pc != Ended
    ensures PendingDials(dials[d := pc]) == PendingDials(dials)
  {
  }

  lemma ClosesAbs(sockets: map<nat, Socket>, s: nat)
    requires s in sockets
    ensures LiveSockets(sockets[s := sockets[s].(live := false)]) == LiveSockets(sockets) - {s}
  {
  }

  lemma CloseSocketAbs(w: World, s: nat, ok: bool)
    requires s in w.sockets
    ensures var v := CloseSocket(w, s, ok);
      && v.dials == w.dials && v.closing == w.closing && v.reported == w.reported
      && (if v.sockets == w.sockets then Abs(v) == Abs(w)
          else D.Does(Abs(w), Abs(v), D.CloseSocket(s)))
  {
    ClosesAbs(w.sockets, s);
  }

  lemma DialSimulates(w: World, e: Event)
    requires e.Begin? || e.DialFails? || e.Obtains? || e.Track? || e.Check? || e.CloseReturns? || e.End?
    ensures D.Does(Abs(w), Abs(Next(w, e)), ActionOf(w, e))
  {
    var v := Next(w, e);
    if v != w {
      if e.d in w.dials && !e.End? {
        MovesAbs(w.dials, e.d, v.dials[e.d]);
      } else {
        assert PendingDials(v.dials) == D.Apply(Abs(w), ActionOf(w, e)).inflight;
      }
      assert LiveSockets(v.sockets) == D.Apply(Abs(w), ActionOf(w, e)).live;
    }
  }

  lemma CloseSimulates(w: World, e: Event)
    requires Inv(w) && (e.CloseRaw? || e.HandleCloses? || e.Sweep?)
    ensures D.Does(Abs(w), Abs(Next(w, e)), ActionOf(w, e))
  {
    var v := Next(w, e);
    if v != w {
      if e.CloseRaw? {
        var s := w.dials[e.d].socket;
        MovesAbs(w.dials, e.d, Returning(s));
        var u := Goto(w, e.d, Returning(s));
        assert Abs(u) == Abs(w);
        if s in w.owned {
          CloseSocketAbs(u, s, e.ok);
        }
      } else if e.HandleCloses? {
        CloseSocketAbs(w, e.s, e.ok);
      } else if e.s in w.owned {
        var u := w.(cleanup := w.cleanup.(todo := w.cleanup.todo - {e.s}));
        assert Abs(u) == Abs(w);
        CloseSocketAbs(u, e.s, e.ok);
      }
    }
  }

  /** Every event is a step the drained-owner specification allows. */
  lemma Simulates(w: World, e: Event)
    requires Inv(w)
    ensures D.Does(Abs(w), Abs(Next(w, e)), ActionOf(w, e))
  {
    if e.CloseRaw? || e.HandleCloses? || e.Sweep? {
      CloseSimulates(w, e);
    } else if e.Record? || e.Close? || e.WaitReturns? {
      if ActionOf(w, e).Report? {
        NothingOpen(w);
      }
    } else {
      DialSimulates(w, e);
    }
  }

  lemma {:induction false} StaysDrained(w: World, events: seq<Event>)
    requires Inv(w) && D.Drained(Abs(w))
    ensures D.Drained(Abs(Run(w, events)))
    decreases |events|
  {
    if events != [] {
      var v, a := Next(w, events[0]), ActionOf(w, events[0]);
      Simulates(w, events[0]);
      StepInv(w, events[0]);
      hide Inv, Next, ActionOf, Abs;
      D.DrainedStays(Abs(w), Abs(v), a);
      StaysDrained(v, events[1..]);
    }
  }

  /**
   close returns success only when every socket any dial ever obtained is closed,
   and no later event of any dial opens one.
   */
  lemma SuccessMeansDrained(events: seq<Event>, timedOut: bool, later: seq<Event>)
    requires WaitSucceeds(Run(Start, events), timedOut)
    ensures var v := Next(Run(Start, events), WaitReturns(timedOut));
      D.Drained(Abs(v)) && D.Drained(Abs(Run(v, later)))
  {
    RunInv(Start, events);
    var w := Run(Start, events);
    StepInv(w, WaitReturns(timedOut));
    NothingOpen(Next(w, WaitReturns(timedOut)));
    StaysDrained(Next(w, WaitReturns(timedOut)), later);
  }

  /** The settled channel is never closed twice or before it exists, and pending counts exactly the dials in progress. */
  lemma PendingIsExact(events: seq<Event>)
    ensures var w := Run(Start, events); !w.panicked && w.pending == |PendingDials(w.dials)|
  {
    RunInv(Start, events);
  }

  /** A socket whose close failed, or that a dial handed out, stays recorded for the next close. */
  lemma OpenIsRecorded(events: seq<Event>, s: nat)
    ensures var w := Run(Start, events);
      s in w.sockets && w.sockets[s].live && !At(w, w.sockets[s].dial, Holding(s)) ==> s in w.owned
  {
    RunInv(Start, events);
    assert SocketOk(Run(Start, events), s);
  }

  // ---------------------------------------------------------------- service

  lemma RunTwo(w: World, e: Event, f: Event, events: seq<Event>)
    ensures Run(w, [e, f] + events) == Run(Next(Next(w, e), f), events)
  {
    assert ([e, f] + events)[1..] == [f] + events && ([f] + events)[1..] == events;
    hide Next;
  }

  /** A dial is admitted exactly if the transport is not closing. */
  lemma AdmittedIffOpen(w: World, d: nat)
    requires d !in w.dials
    ensures var v := Next(w, Begin(d));
      if w.closing then v == w else At(v, d, Dialing) && v.pending == w.pending + 1 && v.owned == w.owned
  {
  }

  lemma ObtainsSocket(w: World, d: nat, s: nat)
    requires !w.closing && d !in w.dials && s !in w.sockets
    ensures var a := Next(Next(w, Begin(d)), Obtains(d, s));
      At(a, d, Holding(s)) && a.sockets == w.sockets[s := Socket(true, d)] && a.owned == w.owned && a.pending == w.pending + 1 && !a.closing
  {
    var u := Next(w, Begin(d));
    assert At(u, d, Dialing) && u.sockets == w.sockets && u.owned == w.owned && u.pending == w.pending + 1 && !u.closing;
    hide BeginStep;
  }

  lemma TracksSocket(a: World, d: nat, s: nat)
    requires At(a, d, Holding(s)) && !a.closing
    ensures var b := Next(Next(a, Track(d)), Check(d, false));
      At(b, d, Ending) && b.sockets == a.sockets && b.owned == a.owned[s := false] && b.pending == a.pending && !b.closing
  {
  }

  /** In an open transport a dial that is not cancelled hands out an open socket, which stays recorded; it is then no longer pending. */
  lemma DialsServe(w: World, d: nat, s: nat)
    requires Inv(w) && !w.closing && d !in w.dials && s !in w.sockets
    ensures var v := Run(w, [Begin(d), Obtains(d, s), Track(d), Check(d, false), End(d)]);
      && At(v, d, Ended) && s in v.sockets && v.sockets[s] == Socket(true, d) && v.owned == w.owned[s := false]
      && v.pending == w.pending && !v.closing
  {
    assert w.cleanup == NoCleanup || !w.cleanup.Sweeping?;
    hide Inv;
    var a := Next(Next(w, Begin(d)), Obtains(d, s));
    ObtainsSocket(w, d, s);
    var b := Next(Next(a, Track(d)), Check(d, false));
    TracksSocket(a, d, s);
    hide BeginStep, ObtainsStep, TrackStep, CheckStep;
    var c := Next(b, End(d));
    var rest := [Track(d), Check(d, false), End(d)];
    assert [Begin(d), Obtains(d, s)] + rest == [Begin(d), Obtains(d, s), Track(d), Check(d, false), End(d)];
    assert [Track(d), Check(d, false)] + [End(d)] == rest && [End(d)][1..] == [];
    assert Run(b, [End(d)]) == c;
    hide Run, Next;
    RunTwo(w, Begin(d), Obtains(d, s), rest);
    RunTwo(a, Track(d), Check(d, false), [End(d)]);
  }

  /** While the transport closes, a socket that a late dial obtains is recorded and goes back to be closed. */
  lemma LateSocketsReturn(w: World, d: nat, s: nat)
    requires w.closing && At(w, d, Holding(s))
    ensures var v := Next(w, Track(d)); At(v, d, Closing(s)) && s in v.owned
  {
  }

  /** A cancelled dial gives its socket back to be closed; closed and recorded so, it is let go. */
  lemma CancelledSocketsClose(w: World, d: nat, s: nat)
    requires Inv(w) && At(w, d, Checking(s)) && s in w.owned && s !in w.busy
    ensures var c := Next(w, Check(d, true)); var v := Next(Next(c, CloseRaw(d, true)), Record(s));
      && At(c, d, Closing(s)) && At(v, d, Returning(s)) && s !in v.owned && s in v.sockets && !v.sockets[s].live
  {
    assert SocketOk(w, s);
    hide Inv;
  }

  /** How far a dial is from its end. */
  function Far(pc: Pc): nat {
    match pc
    case Holding(_) => 5
    case Checking(_) => 4
    case Closing(_) => 3
    case Returning(_) => 2
    case Dialing => 2
    case Ending => 1
    case Ended => 0
  }

  /** The close of its socket that the dial has to wait for. */
  predicate Held(w: World, d: nat)
    requires d in w.dials
  {
    (w.dials[d].Closing? || w.dials[d].Returning?) && w.dials[d].socket in w.busy
  }

  function Left(w: World, d: nat): nat
    requires d in w.dials
  {
    2 * Far(w.dials[d]) + if Held(w, d) then 1 else 0
  }

  /** What the dial can do next if it tries no other address. */
  function Onward(w: World, d: nat): Event
    requires d in w.dials
  {
    if Held(w, d) then Record(w.dials[d].socket)
    else
      match w.dials[d]
      case Dialing => DialFails(d)
      case Holding(_) => Track(d)
      case Checking(_) => Check(d, false)
      case Closing(_) => CloseRaw(d, true)
      case Returning(_) => CloseReturns(d, false)
      case _ => End(d)
  }

  lemma OnwardNears(w: World, d: nat)
    requires Inv(w) && d in w.dials && w.dials[d] != Ended
    ensures var v := Next(w, Onward(w, d)); d in v.dials && Left(v, d) < Left(w, d)
  {
    assert DialOk(w, d);
    hide Inv, DialOk, SocketOk;
  }

  /** No dial is pending for ever: from every reachable state its own next steps end it. */
  lemma {:induction false} DialsCanEnd(w: World, d: nat) returns (events: seq<Event>)
    requires Inv(w) && d in w.dials
    ensures |events| <= Left(w, d) && var v := Run(w, events); Inv(v) && At(v, d, Ended)
    decreases Left(w, d)
  {
    if w.dials[d] != Ended {
      var e := Onward(w, d);
      OnwardNears(w, d);
      StepInv(w, e);
      hide Inv, Next, Left, Onward;
      var rest := DialsCanEnd(Next(w, e), d);
      events := [e] + rest;
      assert events[1..] == rest;
    } else {
      events := [];
      hide Inv;
    }
  }

  /** With nothing pending and everything visited, close is over, and succeeds exactly if no socket is left recorded. */
  lemma CloseConcludes(w: World, timedOut: bool)
    requires w.cleanup.Sweeping? && w.cleanup.todo == {} && w.pending == 0
    requires timedOut || w.cleanup.pending == 0 || w.settled == ClosedChan
    ensures var v := Next(w, WaitReturns(timedOut)); v.cleanup == NoCleanup && (v.reported <==> w.reported || w.owned == map[])
  {
  }

  /** Every recorded socket is closed by one successful close. */
  function Sweeps(ss: seq<nat>): seq<Event>
    decreases |ss|
  {
    if ss == [] then [] else [Sweep(ss[0], true), Record(ss[0])] + Sweeps(ss[1..])
  }

  ghost predicate Lists(ss: seq<nat>, owned: map<nat, bool>) {
    (forall s :: s in ss <==> s in owned) && (forall i, j :: 0 <= i < j < |ss| ==> ss[i] != ss[j])
  }

  ghost predicate Sweepable(w: World, ss: seq<nat>) {
    && Inv(w) && w.pending == 0 && w.busy == map[] && w.cleanup == Sweeping(w.owned.Keys, 0) && Lists(ss, w.owned)
  }

  lemma SweepRecords(w: World, s: nat)
    requires s in w.owned && s in w.sockets && w.sockets[s].live && w.busy == map[] && w.cleanup == Sweeping(w.owned.Keys, 0)
    ensures var v := Next(Next(w, Sweep(s, true)), Record(s));
      && v.owned.Keys == w.owned.Keys - {s} && v.busy == map[] && v.cleanup == Sweeping(v.owned.Keys, 0) && v.pending == w.pending
  {
    var u := Next(w, Sweep(s, true));
    assert u.busy == map[s := true] && u.owned == w.owned && u.cleanup == Sweeping(w.owned.Keys - {s}, 0) && u.pending == w.pending;
    hide SweepStep;
  }

  lemma ListsRest(ss: seq<nat>, owned: map<nat, bool>, rest: map<nat, bool>)
    requires Lists(ss, owned) && ss != [] && rest.Keys == owned.Keys - {ss[0]}
    ensures Lists(ss[1..], rest)
  {
    forall s
      ensures s in ss[1..] <==> s in rest
    {
      if s in ss && s != ss[0] {
        var i :| 0 <= i < |ss| && ss[i] == s;
        assert ss[1..][i - 1] == s;
      }
    }
  }

  lemma {:induction false} SweepsAll(w: World, ss: seq<nat>)
    requires Sweepable(w, ss)
    ensures Sweepable(Run(w, Sweeps(ss)), [])
    decreases |ss|
  {
    if ss != [] {
      var s := ss[0];
      var u := Next(w, Sweep(s, true));
      var v := Next(u, Record(s));
      assert s in w.owned && SocketOk(w, s);
      StepInv(w, Sweep(s, true));
      StepInv(u, Record(s));
      SweepRecords(w, s);
      ListsRest(ss, w.owned, v.owned);
      RunTwo(w, Sweep(s, true), Record(s), Sweeps(ss[1..]));
      hide Inv, Next, Lists;
      SweepsAll(v, ss[1..]);
    }
  }

  /** If no dial is pending and every close succeeds, close visits each socket once and reports success. */
  lemma CloseSucceeds(w: World, ss: seq<nat>)
    requires Inv(w) && w.pending == 0 && w.busy == map[] && w.cleanup == NoCleanup && Lists(ss, w.owned)
    ensures var v := Next(Run(Next(w, Close), Sweeps(ss)), WaitReturns(false)); v.reported && v.owned == map[] && v.cleanup == NoCleanup
  {
    hide Run, Sweeps, Lists;
    var c := Next(w, Close);
    StepInv(w, Close);
    assert c.cleanup == Sweeping(c.owned.Keys, 0) && c.owned == w.owned && c.pending == 0 && c.busy == map[];
    hide Next;
    SweepsAll(c, ss);
    var u := Run(c, Sweeps(ss));
    SweptEmpty(u);
    CloseConcludes(u, false);
    WaitKeeps(u);
  }

  lemma SweptEmpty(w: World)
    requires Sweepable(w, [])
    ensures w.owned == map[] && w.pending == 0 && w.cleanup == Sweeping({}, 0)
  {
    hide Inv;
  }

  lemma WaitKeeps(w: World)
    ensures Next(w, WaitReturns(false)).owned == w.owned
  {
  }

  // -------------------------------------------------------------- the object

  class Sockets {
    var closing: bool
    var pending: int
    var settled: Chan
    var owned: map<nat, bool>

    /** The fields of a world are those of this object. */
    ghost predicate In(w: World)
      reads this
    {
      w.closing == closing && w.pending == pending && w.settled == settled && w.owned == owned
    }

    constructor ()
      ensures In(Start)
    {
      closing, pending, settled, owned := false, 0, NoChan, map[];
    }

    method BeginDial(ghost w: World, ghost d: nat) returns (ok: bool)
      requires In(w) && d !in w.dials
      modifies this`pending, this`settled
      ensures In(BeginStep(w, d)) && (ok <==> d in BeginStep(w, d).dials)
    {
      if closing {
        return false;
      }
      if pending == 0 {
        settled := OpenChan;
      }
      pending, ok := pending + 1, true;
    }

    method EndDial(ghost w: World, ghost d: nat)
      requires In(w) && At(w, d, Ending)
      modifies this`pending, this`settled
      ensures In(EndStep(w, d))
    {
      pending := pending - 1;
      if pending == 0 {
        settled := ClosedChan;
      }
    }

    method TrackSocket(ghost w: World, ghost d: nat, s: nat) returns (refused: bool)
      requires In(w) && At(w, d, Holding(s))
      modifies this`owned
      ensures In(TrackStep(w, d)) && (refused <==> At(TrackStep(w, d), d, Closing(s)))
    {
      owned := owned[s := false];
      refused := closing;
    }

    /** The second half of a socket's Close. */
    method RecordClose(ghost w: World, s: nat, ok: bool)
      requires In(w) && s in w.busy && w.busy[s] == ok
      modifies this`owned
      ensures In(RecordStep(w, s))
    {
      owned := if ok then owned - {s} else owned[s := true];
    }

    method SealAll(ghost w: World) returns (open: set<nat>, waiting: int)
      requires In(w) && w.cleanup == NoCleanup
      modifies this`closing
      ensures In(CloseStep(w)) && CloseStep(w).cleanup == Sweeping(open, waiting)
    {
      closing, open, waiting := true, owned.Keys, pending;
    }
  }
}
