/**
 What an open flow owner is there for: dials are admitted, their sockets handed
 over and kept, and a cleanup in which every close succeeds comes to its end.
 */
module FlowService {
  import opened Options
  import opened FlowOwner
  import opened FlowWorld
  import opened FlowInvariant
  import opened FlowTheorems

  // ------------------------------------------------------------------- dials

  /** A dial is admitted exactly if the owner has not been sealed; it then counts as pending. */
  lemma AdmittedIffOpen(w: World, t: nat, kind: Kind)
    requires t !in w.dials
    ensures var v := Next(w, Begin(t, kind));
      if w.o.closed then v == w
      else t in v.dials && v.dials[t].kind == kind && IsPending(v.dials[t].pc) && v.o.pending == w.o.pending + 1 &&
           v.o.connections == w.o.connections && (kind == Origin ==> v.dials[t].socket == Live)
  {
  }

  /** A dial that holds its connection hands it to the owner exactly if that has not been sealed and no timer has closed it. */
  lemma TrackedIffOpen(w: World, t: nat)
    requires Inv(w) && At(w, t, Obtained) && t !in w.closing
    ensures var v := Next(w, TrackIt(t));
      && t in v.dials && v.dials[t].socket == w.dials[t].socket
      && (if w.o.closed || w.dials[t].attempted then v.o == w.o && v.dials[t].pc == Rejected
          else v.o.connections.Keys == w.o.connections.Keys + {t} && v.dials[t].socket == Live &&
               v.dials[t].pc == if w.dials[t].kind == Origin then Dispatching else Ending)
  {
    assert DialOk(w.dials[t], t in w.o.connections, Closing(w, t));
    hide ChannelsOk, CleanupOk;
  }

  /** The steps of a dial in which nothing fails. */
  function Path(t: nat, kind: Kind): seq<Event> {
    match kind
    case Tcp => [Begin(t, Tcp), Activate(t), RawConnected(t), HandshakeOk(t), TrackIt(t), End(t)]
    case Udp => [Begin(t, Udp), Activate(t), UdpDialed(t), TrackIt(t), End(t)]
    case Origin => [Begin(t, Origin), TrackIt(t), Dispatched(t), End(t)]
  }

  lemma RunStep(w: World, e: Event, events: seq<Event>)
    ensures Run(w, [e] + events) == Run(Next(w, e), events)
  {
    assert ([e] + events)[1..] == events;
  }

  /**
   Through an owner that is not sealed such a dial ends with an open connection
   that the owner keeps, and is no longer pending; it counts as active if it is TCP.
   */
  lemma DialsServe(w: World, t: nat, kind: Kind)
    requires Inv(w) && !w.o.closed && t !in w.dials
    ensures var v := Run(w, Path(t, kind));
      && t in v.dials && v.dials[t].pc == Ended && v.dials[t].socket == Live && v.o.connections.Keys == w.o.connections.Keys + {t}
      && v.o.pending == w.o.pending && v.activeTCP == w.activeTCP + (if kind == Tcp then 1 else 0) && !v.o.closed
  {
    assert t !in w.closing && t !in w.o.connections;
    hide Inv;
    match kind
    case Tcp => TcpServes(w, t);
    case Udp => UdpServes(w, t);
    case Origin => OriginServes(w, t);
  }

  /** A dial of this kind in this state, and an owner with one more dial pending than `o`. */
  predicate Stands(w: World, o: Owner, t: nat, d: Dial) {
    t in w.dials && w.dials[t] == d && w.o == BeginDial(o).o && t !in w.closing
  }

  lemma BeginsAndActivates(w: World, t: nat, kind: Kind)
    requires !w.o.closed && t !in w.dials && t !in w.closing && kind != Origin
    ensures var v := Next(Next(w, Begin(t, kind)), Activate(t));
      Stands(v, w.o, t, Dial(kind, Dialing, NoSocket, false, false, kind == Tcp)) &&
      v.activeTCP == w.activeTCP + if kind == Tcp then 1 else 0
  {
    var u := Next(w, Begin(t, kind));
    assert Stands(u, w.o, t, Dial(kind, Begun, NoSocket, false, false, false)) && u.activeTCP == w.activeTCP by {
      hide ActivateStep;
    }
    hide BeginStep, BeginDial;
  }

  lemma Connects(w: World, o: Owner, t: nat)
    requires Stands(w, o, t, Dial(Tcp, Dialing, NoSocket, false, false, true))
    ensures var v := Next(Next(w, RawConnected(t)), HandshakeOk(t));
      Stands(v, o, t, Dial(Tcp, Obtained, Live, true, false, true)) && v.activeTCP == w.activeTCP
  {
    hide BeginDial;
  }

  /** The last two steps: the socket is handed over, and the dial ends. */
  lemma TracksAndEnds(w: World, o: Owner, t: nat, d: Dial)
    requires !o.closed && t !in o.connections && Stands(w, o, t, d)
    requires d.pc == Obtained && d.kind != Origin && d.socket == Live && !d.attempted
    ensures var v := Next(Next(w, TrackIt(t)), End(t));
      && t in v.dials && v.dials[t].pc == Ended && v.dials[t].socket == Live && v.o.connections.Keys == o.connections.Keys + {t}
      && v.o.pending == o.pending && v.activeTCP == w.activeTCP && !v.o.closed
  {
    var u := Next(w, TrackIt(t));
    assert t in u.dials && u.dials[t] == d.(pc := Ending) && u.activeTCP == w.activeTCP;
    assert u.o.connections.Keys == o.connections.Keys + {t} && u.o.pending == o.pending + 1 && !u.o.closed;
    hide TrackStep, Track, BeginDial;
  }

  lemma TcpServes(w: World, t: nat)
    requires !w.o.closed && t !in w.dials && t !in w.closing && t !in w.o.connections
    ensures var v := Run(w, Path(t, Tcp));
      && t in v.dials && v.dials[t].pc == Ended && v.dials[t].socket == Live && v.o.connections.Keys == w.o.connections.Keys + {t}
      && v.o.pending == w.o.pending && v.activeTCP == w.activeTCP + 1 && !v.o.closed
  {
    hide Next, Run, BeginDial, Stands;
    var a := Next(Next(w, Begin(t, Tcp)), Activate(t));
    BeginsAndActivates(w, t, Tcp);
    var b := Next(Next(a, RawConnected(t)), HandshakeOk(t));
    Connects(a, w.o, t);
    TracksAndEnds(b, w.o, t, Dial(Tcp, Obtained, Live, true, false, true));
    var rest := [RawConnected(t), HandshakeOk(t), TrackIt(t), End(t)];
    RunTwo(w, Begin(t, Tcp), Activate(t), rest);
    RunTwo(a, RawConnected(t), HandshakeOk(t), [TrackIt(t), End(t)]);
    RunTwo(b, TrackIt(t), End(t), []);
    RunNone(Next(Next(b, TrackIt(t)), End(t)));
    assert [Begin(t, Tcp), Activate(t)] + rest == Path(t, Tcp);
    assert [RawConnected(t), HandshakeOk(t)] + [TrackIt(t), End(t)] == rest;
    assert [TrackIt(t), End(t)] + [] == [TrackIt(t), End(t)];
  }

  lemma RunNone(w: World)
    ensures Run(w, []) == w
  {
  }

  lemma RunTwo(w: World, e: Event, f: Event, events: seq<Event>)
    ensures Run(w, [e, f] + events) == Run(Next(Next(w, e), f), events)
  {
    assert ([e, f] + events)[1..] == [f] + events && ([f] + events)[1..] == events;
    hide Next;
  }

  lemma UdpServes(w: World, t: nat)
    requires !w.o.closed && t !in w.dials && t !in w.closing && t !in w.o.connections
    ensures var v := Run(w, Path(t, Udp));
      && t in v.dials && v.dials[t].pc == Ended && v.dials[t].socket == Live && v.o.connections.Keys == w.o.connections.Keys + {t}
      && v.o.pending == w.o.pending && v.activeTCP == w.activeTCP && !v.o.closed
  {
    hide Next, Run, BeginDial, Stands;
    var a := Next(Next(w, Begin(t, Udp)), Activate(t));
    BeginsAndActivates(w, t, Udp);
    var b := Next(a, UdpDialed(t));
    UdpConnects(a, w.o, t);
    TracksAndEnds(b, w.o, t, Dial(Udp, Obtained, Live, true, false, false));
    var rest := [UdpDialed(t), TrackIt(t), End(t)];
    RunTwo(w, Begin(t, Udp), Activate(t), rest);
    RunStep(a, UdpDialed(t), [TrackIt(t), End(t)]);
    RunTwo(b, TrackIt(t), End(t), []);
    RunNone(Next(Next(b, TrackIt(t)), End(t)));
    assert [Begin(t, Udp), Activate(t)] + rest == Path(t, Udp);
    assert [UdpDialed(t)] + [TrackIt(t), End(t)] == rest;
    assert [TrackIt(t), End(t)] + [] == [TrackIt(t), End(t)];
  }

  lemma UdpConnects(w: World, o: Owner, t: nat)
    requires Stands(w, o, t, Dial(Udp, Dialing, NoSocket, false, false, false))
    ensures var v := Next(w, UdpDialed(t));
      Stands(v, o, t, Dial(Udp, Obtained, Live, true, false, false)) && v.activeTCP == w.activeTCP
  {
    hide BeginDial;
  }

  lemma OriginServes(w: World, t: nat)
    requires !w.o.closed && t !in w.dials && t !in w.closing && t !in w.o.connections
    ensures var v := Run(w, Path(t, Origin));
      && t in v.dials && v.dials[t].pc == Ended && v.dials[t].socket == Live && v.o.connections.Keys == w.o.connections.Keys + {t}
      && v.o.pending == w.o.pending && v.activeTCP == w.activeTCP && !v.o.closed
  {
    hide Run;
    var a := Next(Next(w, Begin(t, Origin)), TrackIt(t));
    OriginTracked(w, t);
    OriginEnds(a, w.o, t);
    hide Next;
    RunTwo(w, Begin(t, Origin), TrackIt(t), [Dispatched(t), End(t)]);
    RunTwo(a, Dispatched(t), End(t), []);
    RunNone(Next(Next(a, Dispatched(t)), End(t)));
    assert [Begin(t, Origin), TrackIt(t)] + [Dispatched(t), End(t)] == Path(t, Origin);
    assert [Dispatched(t), End(t)] + [] == [Dispatched(t), End(t)];
  }

  predicate OriginHeld(w: World, o: Owner, t: nat) {
    && t in w.dials && w.dials[t] == Dial(Origin, Dispatching, Live, true, false, false)
    && w.o.connections.Keys == o.connections.Keys + {t} && w.o.pending == o.pending + 1 && !w.o.closed
  }

  lemma OriginTracked(w: World, t: nat)
    requires !w.o.closed && t !in w.dials && t !in w.closing && t !in w.o.connections
    ensures var v := Next(Next(w, Begin(t, Origin)), TrackIt(t)); OriginHeld(v, w.o, t) && v.activeTCP == w.activeTCP
  {
    var u := Next(w, Begin(t, Origin));
    assert Stands(u, w.o, t, Dial(Origin, Obtained, Live, true, false, false)) && u.activeTCP == w.activeTCP by {
      hide TrackStep;
    }
    hide BeginStep;
  }

  lemma OriginEnds(w: World, o: Owner, t: nat)
    requires OriginHeld(w, o, t)
    ensures var v := Next(Next(w, Dispatched(t)), End(t));
      && t in v.dials && v.dials[t].pc == Ended && v.dials[t].socket == Live && v.o.connections.Keys == o.connections.Keys + {t}
      && v.o.pending == o.pending && v.activeTCP == w.activeTCP && !v.o.closed
  {
  }

  /** A connection the owner keeps is let go by one successful close, and kept by a failed one; the active count follows. */
  lemma CloseReleases(w: World, t: nat, ok: bool)
    requires Inv(w) && t in w.o.connections && t !in w.closing
    ensures var v := Next(Next(w, HandleCloses(t, ok)), ReleaseIt(t));
      && t in v.dials && v.closing == w.closing && v.o.closed == w.o.closed && v.o.pending == w.o.pending
      && (if ok then
            && v.dials[t].socket == Closed && v.o.connections == w.o.connections - {t}
            && v.activeTCP == w.activeTCP - if w.dials[t].counted && w.dials[t].wrapped then 1 else 0
          else v.dials[t] == w.dials[t] && v.o.connections.Keys == w.o.connections.Keys && v.activeTCP == w.activeTCP)
  {
    assert t in w.dials && DialOk(w.dials[t], true, None) && w.dials[t].socket == Live;
    var u := Next(w, HandleCloses(t, ok));
    hide Inv, DialOk;
    assert u.closing == w.closing[t := ok] && u.o == w.o && u.activeTCP == w.activeTCP && t in u.dials by { hide ReleaseStep; }
    assert u.dials[t] == (if ok then w.dials[t].(socket := Closed) else w.dials[t]) by { hide ReleaseStep; }
    assert u.closing - {t} == w.closing;
    hide HandleClosesStep;
    ReleaseSettles(u, t, ok);
  }

  lemma ReleaseSettles(u: World, t: nat, ok: bool)
    requires t in u.dials && t in u.closing && u.closing[t] == ok && t in u.o.connections
    ensures var v := Next(u, ReleaseIt(t));
      && t in v.dials && v.closing == u.closing - {t} && v.o.closed == u.o.closed && v.o.pending == u.o.pending
      && v.dials[t].socket == u.dials[t].socket
      && (if ok then
            v.o.connections == u.o.connections - {t} && v.activeTCP == u.activeTCP - if u.dials[t].counted && u.dials[t].wrapped then 1 else 0
          else v.dials[t] == u.dials[t] && v.o.connections.Keys == u.o.connections.Keys && v.activeTCP == u.activeTCP)
  {
  }

  /** How far a dial is from its end. */
  function Far(pc: Pc): nat {
    match pc
    case Begun => 8
    case Dialing => 7
    case Handshaking(_) => 6
    case Obtained => 6
    case Dispatching => 5
    case Rejected => 4
    case ClosingSocket(_) => 3
    case Ending => 1
    case Ended => 0
  }

  function Left(w: World, t: nat): nat
    requires t in w.dials
  {
    2 * Far(w.dials[t].pc) + if t in w.closing then 1 else 0
  }

  /** What the dial can do next, whatever its network answers. */
  function Onward(w: World, t: nat): Event
    requires t in w.dials
  {
    if t in w.closing then ReleaseIt(t)
    else
      match w.dials[t].pc
      case Begun => Activate(t)
      case Dialing => DialFails(t)
      case Handshaking(_) => HandshakeFails(t, true)
      case Obtained => TrackIt(t)
      case Dispatching => Dispatched(t)
      case Rejected => CloseLate(t, true)
      case ClosingSocket(_) => CloseReturns(t)
      case _ => End(t)
  }

  lemma ReleaseNears(w: World, t: nat)
    requires t in w.dials && t in w.closing
    ensures var v := ReleaseStep(w, t); t in v.dials && Left(v, t) < Left(w, t)
  {
    hide Release;
  }

  lemma CloseNears(w: World, t: nat)
    requires t in w.dials && t !in w.closing
    requires var pc := w.dials[t].pc; pc.Handshaking? || pc.Rejected?
    ensures var v := Next(w, Onward(w, t)); t in v.dials && Left(v, t) < Left(w, t)
  {
    var pc := w.dials[t].pc;
    var u := Goto(w, t, ClosingSocket(pc.Handshaking?));
    assert Next(w, Onward(w, t)) == StartClose(u, t, true) by { hide StartClose; }
    hide Next;
  }

  lemma EndingNears(w: World, t: nat)
    requires t in w.dials && t !in w.closing
    requires var pc := w.dials[t].pc; pc.Dialing? || pc.ClosingSocket? || pc.Ending?
    ensures var v := Next(w, Onward(w, t)); t in v.dials && Left(v, t) < Left(w, t)
  {
    FailMoves(w, t);
    hide FailStep, EndDial;
  }

  lemma MovingNears(w: World, t: nat)
    requires t in w.dials && t !in w.closing
    requires var pc := w.dials[t].pc; pc.Begun? || pc.Obtained? || pc.Dispatching?
    ensures var v := Next(w, Onward(w, t)); t in v.dials && Left(v, t) < Left(w, t)
  {
    hide Track;
  }

  lemma OnwardNears(w: World, t: nat)
    requires t in w.dials && IsPending(w.dials[t].pc)
    ensures var v := Next(w, Onward(w, t)); t in v.dials && Left(v, t) < Left(w, t)
  {
    var pc := w.dials[t].pc;
    hide Left;
    if t in w.closing {
      ReleaseNears(w, t);
      assert Next(w, Onward(w, t)) == ReleaseStep(w, t) by { hide ReleaseStep; }
      hide Next, Onward, ReleaseStep;
    } else {
      hide Next, Onward;
      if pc.Handshaking? || pc.Rejected? {
        CloseNears(w, t);
      } else if pc.Dialing? || pc.ClosingSocket? || pc.Ending? {
        EndingNears(w, t);
      } else {
        MovingNears(w, t);
      }
    }
  }

  lemma FailMoves(w: World, t: nat)
    requires t in w.dials
    ensures var v := FailStep(w, t); t in v.dials && v.dials[t].pc == Ending && v.closing == w.closing
  {
  }

  /** No dial is pending for ever: from every reachable state its own next steps end it. */
  lemma {:induction false} DialsCanEnd(w: World, t: nat) returns (events: seq<Event>)
    requires Inv(w) && t in w.dials
    ensures |events| <= Left(w, t) && var v := Run(w, events); Inv(v) && t in v.dials && v.dials[t].pc == Ended
    decreases Left(w, t)
  {
    if IsPending(w.dials[t].pc) {
      var e := Onward(w, t);
      OnwardNears(w, t);
      StepInv(w, e);
      hide Inv, Next, Left, Onward;
      var rest := DialsCanEnd(Next(w, e), t);
      events := [e] + rest;
      RunStep(w, e, rest);
    } else {
      events := [];
      hide Inv;
    }
  }

  // ----------------------------------------------------------------- cleanup

  /** A wait that found dials pending waits on a channel that exists. */
  predicate Waits(w: World) { w.cleanup.Waiting? && w.cleanup.pending != 0 ==> w.o.settled != NoChan }

  lemma WaitsStep(w: World, e: Event)
    requires Inv(w) && Waits(w)
    ensures Waits(Next(w, e))
  {
    assert ChannelsOk(w.o);
    SettledStays(w, e);
    hide Inv, ChannelsOk, CanClose;
    if !e.SweepDone? && !e.WaitReturns? && !e.SealIt? && !e.Sweep? {
      CleanupStays(w, e);
      hide Next;
    }
  }

  lemma CleanupStays(w: World, e: Event)
    requires !e.SweepDone? && !e.WaitReturns? && !e.SealIt? && !e.Sweep?
    ensures Next(w, e).cleanup == w.cleanup
  {
    hide CanClose;
  }

  lemma SettledStays(w: World, e: Event)
    ensures w.o.settled != NoChan ==> Next(w, e).o.settled != NoChan
    ensures e.SweepDone? ==> Next(w, e).o == w.o
  {
    hide CanClose;
  }

  lemma {:induction false} RunWaits(w: World, events: seq<Event>)
    requires Inv(w) && Waits(w)
    ensures Inv(Run(w, events)) && Waits(Run(w, events))
    decreases |events|
  {
    if events != [] {
      StepInv(w, events[0]);
      WaitsStep(w, events[0]);
      hide Inv, Next, Waits;
      RunWaits(Next(w, events[0]), events[1..]);
    }
  }

  /**
   A cleanup that waits while no dial is pending is over at once, timed out or not,
   and reports success exactly if no connection is left.
   */
  lemma WaitConcludes(events: seq<Event>, timedOut: bool)
    ensures var w := Run(Start, events); var v := Next(w, WaitReturns(timedOut));
      w.cleanup.Waiting? && w.o.pending == 0 ==>
        v.cleanup == NoCleanup && (v.reported <==> w.reported || w.o.connections == map[])
  {
    StartInv();
    RunWaits(Start, events);
    var w := Run(Start, events);
    assert ChannelsOk(w.o);
    hide Run, Inv;
  }

  /** Every connection is closed and released, each by one successful close. */
  function Sweeps(ts: seq<nat>): seq<Event>
    decreases |ts|
  {
    if ts == [] then [] else [Sweep(ts[0], true), ReleaseIt(ts[0])] + Sweeps(ts[1..])
  }

  /** Each connection once. */
  ghost predicate Lists(ts: seq<nat>, connections: map<nat, bool>) {
    (forall t :: t in ts <==> t in connections) && (forall i, j :: 0 <= i < j < |ts| ==> ts[i] != ts[j])
  }

  /** These are the connections the cleanup still has to visit, and nothing else is going on. */
  ghost predicate Sweepable(w: World, ts: seq<nat>) {
    && Inv(w) && w.o.closed && w.o.pending == 0 && w.closing == map[] && w.cleanup == Sweeping(w.o.connections.Keys)
    && Lists(ts, w.o.connections)
  }

  lemma SweepReleases(w: World, t: nat)
    requires t in w.dials && t in w.o.connections && w.dials[t].socket == Live && w.closing == map[]
    requires w.cleanup == Sweeping(w.o.connections.Keys)
    ensures var v := Next(Next(w, Sweep(t, true)), ReleaseIt(t));
      && v.closing == map[] && v.o.connections.Keys == w.o.connections.Keys - {t} && v.cleanup == Sweeping(w.o.connections.Keys - {t})
      && v.o.closed == w.o.closed && v.o.pending == w.o.pending
  {
    var u := Next(w, Sweep(t, true));
    assert u.closing == map[t := true] && u.o == w.o && u.cleanup == Sweeping(w.o.connections.Keys - {t}) && t in u.dials by {
      hide ReleaseStep;
    }
    hide SweepStep;
  }

  lemma SweepOne(w: World, ts: seq<nat>)
    requires Sweepable(w, ts) && ts != []
    ensures Sweepable(Next(Next(w, Sweep(ts[0], true)), ReleaseIt(ts[0])), ts[1..])
  {
    var t := ts[0];
    assert t in w.o.connections && t in w.dials && DialOk(w.dials[t], true, None);
    var u := Next(w, Sweep(t, true));
    var v := Next(u, ReleaseIt(t));
    StepInv(w, Sweep(t, true));
    StepInv(u, ReleaseIt(t));
    SweepReleases(w, t);
    hide Inv, DialOk, Next;
    assert Sweepable(v, ts[1..]) <== Lists(ts[1..], v.o.connections);
    hide Sweepable;
    ListsRest(ts, w.o.connections, v.o.connections);
  }

  lemma ListsRest(ts: seq<nat>, before: map<nat, bool>, after: map<nat, bool>)
    requires Lists(ts, before) && ts != [] && after.Keys == before.Keys - {ts[0]}
    ensures Lists(ts[1..], after)
  {
    assert ts == [ts[0]] + ts[1..];
  }

  lemma {:induction false} SweepsAll(w: World, ts: seq<nat>)
    requires Sweepable(w, ts)
    ensures Sweepable(Run(w, Sweeps(ts)), [])
    decreases |ts|
  {
    if ts != [] {
      SweepOne(w, ts);
      RunTwo(w, Sweep(ts[0], true), ReleaseIt(ts[0]), Sweeps(ts[1..]));
      hide Sweepable, Next;
      SweepsAll(Next(Next(w, Sweep(ts[0], true)), ReleaseIt(ts[0])), ts[1..]);
    }
  }

  /**
   If no dial is pending and every close succeeds, a cleanup visits each connection
   once and reports success; it needs no further attempt.
   */
  lemma CleanupSucceeds(w: World, ts: seq<nat>)
    requires Inv(w) && w.o.pending == 0 && w.closing == map[] && w.cleanup == NoCleanup
    requires Lists(ts, w.o.connections)
    ensures var v := Run(Next(w, SealIt), Sweeps(ts)); var u := Next(Next(v, SweepDone), WaitReturns(false));
      v.cleanup == Sweeping({}) && u.reported && u.o.connections == map[] && u.cleanup == NoCleanup && u.o.closed
  {
    hide Run, Sweeps, Lists, Inv;
    var s := Next(w, SealIt);
    StepInv(w, SealIt);
    SealStarts(w);
    hide Next;
    assert Sweepable(s, ts);
    SweepsAll(s, ts);
    var v := Run(s, Sweeps(ts));
    assert Sweepable(v, []);
    SweptEmpty(v);
    SweptReports(v);
  }

  lemma SweptEmpty(v: World)
    requires Sweepable(v, [])
    ensures v.o.connections == map[] && v.o.closed && v.o.pending == 0 && v.cleanup == Sweeping({})
  {
    hide Inv;
  }

  lemma SweptReports(v: World)
    requires v.o.connections == map[] && v.o.closed && v.o.pending == 0 && v.cleanup == Sweeping({})
    ensures var u := Next(Next(v, SweepDone), WaitReturns(false));
      u.reported && u.o.connections == map[] && u.cleanup == NoCleanup && u.o.closed
  {
    var s := Next(v, SweepDone);
    assert s == v.(cleanup := Waiting(0));
  }

  lemma SealStarts(w: World)
    requires w.cleanup == NoCleanup
    ensures var s := Next(w, SealIt);
      && s.cleanup == Sweeping(s.o.connections.Keys) && s.o.closed && s.o.connections == w.o.connections
      && s.o.pending == w.o.pending && s.closing == w.closing
  {
  }
}
