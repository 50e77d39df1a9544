/**
 One attempt generation under every interleaving of dials, cancellations,
 application and idle closes, and cleanup. One event is one critical section or
 the return of one external call.
 */
module FlowWorld {
  import opened FlowOwner

  /** A TCP or UDP dial through the proxy, or a UDP origin handed over by the packet stack. */
  datatype Kind = Tcp | Udp | Origin

  /** Where a dial is. From Begun to Ending it counts as pending. */
  datatype Pc =
    | Begun
    | Dialing
    | Handshaking(cancelled: bool)
    | Obtained
    | Dispatching
    | Rejected
    | ClosingSocket(handshake: bool)
    | Ending
    | Ended

  datatype Socket = NoSocket | Live | Closed

  /**
   `wrapped`: the socket has the handle that releases the active count when it
   closes. `attempted`: an idle timer already closed the handle once.
   `counted`: the dial is in the active-TCP count.
   */
  datatype Dial = Dial(kind: Kind, pc: Pc, socket: Socket, wrapped: bool, attempted: bool, counted: bool)

  /** Cleanup: closing the connections it found, then waiting for pending dials. */
  datatype Cleanup = NoCleanup | Sweeping(todo: set<nat>) | Waiting(pending: int)

  /** `closing` are close calls between the raw close and the owner's release; the value tells whether the raw close succeeded. */
  datatype World = World(
    o: Owner,
    dials: map<nat, Dial>,
    closing: map<nat, bool>,
    activeTCP: int,
    cleanup: Cleanup,
    reported: bool,
    panicked: bool)

  const Start := World(NewOwner, map[], map[], 0, NoCleanup, false, false)

  datatype Event =
    | Begin(t: nat, kind: Kind)
    | Activate(t: nat)
    | DialFails(t: nat)
    | RawConnected(t: nat)
    | Cancelled(t: nat, ok: bool)
    | HandshakeOk(t: nat)
    | HandshakeFails(t: nat, ok: bool)
    | UdpDialed(t: nat)
    | IdleTimeout(t: nat, ok: bool)
    | TrackIt(t: nat)
    | Dispatched(t: nat)
    | RetiredSeen(t: nat)
    | CloseLate(t: nat, ok: bool)
    | CloseReturns(t: nat)
    | End(t: nat)
    | HandleCloses(t: nat, ok: bool)
    | ReleaseIt(t: nat)
    | SealIt
    | Sweep(t: nat, ok: bool)
    | SweepDone
    | WaitReturns(timedOut: bool)

  predicate IsPending(pc: Pc) { !pc.Ended? }

  predicate At(w: World, t: nat, pc: Pc) { t in w.dials && w.dials[t].pc == pc }

  function Goto(w: World, t: nat, pc: Pc): World
    requires t in w.dials
  {
    w.(dials := w.dials[t := w.dials[t].(pc := pc)])
  }

  /** The raw close of a socket no other close call is working on; an already closed one is left alone. */
  function StartClose(w: World, t: nat, ok: bool): World
    requires t in w.dials
  {
    if w.dials[t].socket != Live then w
    else
      w.(closing := w.closing[t := ok],
         dials := if ok then w.dials[t := w.dials[t].(socket := Closed)] else w.dials)
  }

  predicate CanClose(w: World, t: nat) { t in w.dials && t !in w.closing }

  /** beginDial, after which the dial is pending, or a dial refused outright. */
  function BeginStep(w: World, t: nat, kind: Kind): World {
    if t in w.dials then w
    else
      var r := BeginDial(w.o);
      if !r.ok then w
      else w.(o := r.o, dials := w.dials[t := Dial(kind, if kind == Origin then Obtained else Begun,
                                                   if kind == Origin then Live else NoSocket, kind == Origin, false, false)])
  }

  function ActivateStep(w: World, t: nat): World {
    if !At(w, t, Begun) then w
    else
      var tcp := w.dials[t].kind == Tcp;
      w.(dials := w.dials[t := w.dials[t].(pc := Dialing, counted := tcp)],
         activeTCP := if tcp then w.activeTCP + 1 else w.activeTCP)
  }

  /** The dial function returns an error: its count is given back. */
  function FailStep(w: World, t: nat): World
    requires t in w.dials
  {
    w.(dials := w.dials[t := w.dials[t].(pc := Ending, counted := false)],
       activeTCP := if w.dials[t].counted then w.activeTCP - 1 else w.activeTCP)
  }

  function RawConnectedStep(w: World, t: nat): World {
    if !At(w, t, Dialing) || w.dials[t].kind != Tcp then w
    else w.(dials := w.dials[t := w.dials[t].(pc := Handshaking(false), socket := Live)])
  }

  /** The cancellation callback closes the raw socket; the dial joins it before going on. */
  function CancelledStep(w: World, t: nat, ok: bool): World {
    if !At(w, t, Handshaking(false)) || !CanClose(w, t) then w
    else StartClose(Goto(w, t, Handshaking(true)), t, ok)
  }

  function HandshakeOkStep(w: World, t: nat): World {
    if !At(w, t, Handshaking(false)) then w
    else w.(dials := w.dials[t := w.dials[t].(pc := Obtained, wrapped := true)])
  }

  function HandshakeFailsStep(w: World, t: nat, ok: bool): World {
    if !(t in w.dials && w.dials[t].pc.Handshaking?) || !CanClose(w, t) then w
    else StartClose(Goto(w, t, ClosingSocket(true)), t, ok)
  }

  function UdpDialedStep(w: World, t: nat): World {
    if !At(w, t, Dialing) || w.dials[t].kind != Udp then w
    else w.(dials := w.dials[t := w.dials[t].(pc := Obtained, socket := Live, wrapped := true)])
  }

  /** The idle timer may run before the handle is registered. */
  function IdleTimeoutStep(w: World, t: nat, ok: bool): World {
    if !At(w, t, Obtained) || w.dials[t].kind != Udp || w.dials[t].attempted || !CanClose(w, t) then w
    else StartClose(w.(dials := w.dials[t := w.dials[t].(attempted := true)]), t, ok)
  }

  function TrackStep(w: World, t: nat): World {
    if !At(w, t, Obtained) || !CanClose(w, t) then w
    else if w.dials[t].attempted then Goto(w, t, Rejected)
    else
      var r := Track(w.o, t);
      if !r.ok then Goto(w, t, Rejected)
      else Goto(w.(o := r.o), t, if w.dials[t].kind == Origin then Dispatching else Ending)
  }

  function DispatchedStep(w: World, t: nat): World {
    if !At(w, t, Dispatching) then w else Goto(w, t, Ending)
  }

  /** The dispatcher finds the generation retired; asking for the channel may create it. */
  function RetiredStep(w: World, t: nat): World {
    if !At(w, t, Dispatching) then w
    else
      var v := w.(o := Done(w.o).o);
      if v.o.retired == ClosedChan then Goto(v, t, Rejected) else v
  }

  function CloseLateStep(w: World, t: nat, ok: bool): World {
    if !At(w, t, Rejected) || !CanClose(w, t) then w
    else StartClose(Goto(w, t, ClosingSocket(false)), t, ok)
  }

  function CloseReturnsStep(w: World, t: nat): World {
    if !(t in w.dials && w.dials[t].pc.ClosingSocket?) || t in w.closing then w
    else if w.dials[t].pc.handshake then FailStep(w, t)
    else Goto(w, t, Ending)
  }

  function EndStep(w: World, t: nat): World {
    if !At(w, t, Ending) then w
    else
      var r := EndDial(w.o);
      Goto(w.(o := r.o, panicked := w.panicked || r.panics), t, Ended)
  }

  /** The application, a relay or an idle timer closes a registered handle. */
  function HandleClosesStep(w: World, t: nat, ok: bool): World {
    if t !in w.o.connections || !CanClose(w, t) then w else StartClose(w, t, ok)
  }

  /** The second half of a close: the count and the owner learn the outcome. */
  function ReleaseStep(w: World, t: nat): World {
    if t !in w.closing || t !in w.dials then w
    else
      var d, ok := w.dials[t], w.closing[t];
      var settles := ok && d.wrapped && d.counted;
      w.(o := Release(w.o, t, !ok),
         closing := w.closing - {t},
         dials := if settles then w.dials[t := d.(counted := false)] else w.dials,
         activeTCP := if settles then w.activeTCP - 1 else w.activeTCP)
  }

  function SealStep(w: World): World {
    if w.cleanup != NoCleanup then w
    else
      var r := Seal(w.o);
      w.(o := r.o, cleanup := Sweeping(w.o.connections.Keys), panicked := w.panicked || r.panics)
  }

  function SweepStep(w: World, t: nat, ok: bool): World {
    if !w.cleanup.Sweeping? || t !in w.cleanup.todo || !CanClose(w, t) then w
    else StartClose(w.(cleanup := Sweeping(w.cleanup.todo - {t})), t, ok)
  }

  /** wait reads the pending count once the sweep is over. */
  function SweepDoneStep(w: World): World {
    if !w.cleanup.Sweeping? || w.cleanup.todo != {} then w else w.(cleanup := Waiting(w.o.pending))
  }

  /** wait gets past the dials: none was pending, or the channel closed, or they ended by the time its context did. */
  predicate WaitReturnsNow(w: World, timedOut: bool) {
    w.cleanup.Waiting? && (w.cleanup.pending == 0 || w.o.settled == ClosedChan || (timedOut && w.o.pending == 0))
  }

  predicate WaitSucceeds(w: World, timedOut: bool) { WaitReturnsNow(w, timedOut) && w.o.connections == map[] }

  function WaitStep(w: World, timedOut: bool): World {
    if !w.cleanup.Waiting? then w
    else if WaitReturnsNow(w, timedOut) then
      w.(cleanup := NoCleanup, reported := w.reported || WaitSucceeds(w, timedOut))
    else if timedOut then w.(cleanup := NoCleanup)
    else w
  }

  function Next(w: World, e: Event): World {
    match e
    case Begin(t, kind) => BeginStep(w, t, kind)
    case Activate(t) => ActivateStep(w, t)
    case DialFails(t) => if At(w, t, Dialing) then FailStep(w, t) else w
    case RawConnected(t) => RawConnectedStep(w, t)
    case Cancelled(t, ok) => CancelledStep(w, t, ok)
    case HandshakeOk(t) => HandshakeOkStep(w, t)
    case HandshakeFails(t, ok) => HandshakeFailsStep(w, t, ok)
    case UdpDialed(t) => UdpDialedStep(w, t)
    case IdleTimeout(t, ok) => IdleTimeoutStep(w, t, ok)
    case TrackIt(t) => TrackStep(w, t)
    case Dispatched(t) => DispatchedStep(w, t)
    case RetiredSeen(t) => RetiredStep(w, t)
    case CloseLate(t, ok) => CloseLateStep(w, t, ok)
    case CloseReturns(t) => CloseReturnsStep(w, t)
    case End(t) => EndStep(w, t)
    case HandleCloses(t, ok) => HandleClosesStep(w, t, ok)
    case ReleaseIt(t) => ReleaseStep(w, t)
    case SealIt => SealStep(w)
    case Sweep(t, ok) => SweepStep(w, t, ok)
    case SweepDone => SweepDoneStep(w)
    case WaitReturns(timedOut) => WaitStep(w, timedOut)
  }
}
