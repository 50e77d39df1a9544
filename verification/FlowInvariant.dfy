/** The invariant of one attempt generation, its proof, and the drained-owner specification it meets. */
module FlowInvariant {
  import opened Options
  import opened FlowOwner
  import opened FlowWorld
  import D = DrainedOwner

  function PendingDials(dials: map<nat, Dial>): set<nat> { set t | t in dials && IsPending(dials[t].pc) }

  function CountedDials(dials: map<nat, Dial>): set<nat> { set t | t in dials && dials[t].counted }

  function LiveDials(dials: map<nat, Dial>): set<nat> { set t | t in dials && dials[t].socket == Live }

  /** The dial itself still answers for its socket. */
  predicate Holds(pc: Pc) { pc.Handshaking? || pc.Obtained? || pc.Rejected? || pc.ClosingSocket? }

  /** The TCP dial is in flight, or its handle exists and has not reported a successful close. */
  predicate CountsAsActive(d: Dial, closing: Option<bool>) {
    d.kind == Tcp &&
    (d.pc.Dialing? || d.pc.Handshaking? || d.pc == ClosingSocket(true) || (d.wrapped && (d.socket == Live || closing.Some?)))
  }

  /** One dial, whether the owner has its connection, and the close call working on it. */
  predicate DialOk(d: Dial, owned: bool, closing: Option<bool>) {
    && (d.pc.Begun? || d.pc.Dialing? ==> d.socket == NoSocket)
    && (d.socket == NoSocket ==>
          !owned && closing == None && !d.wrapped && (d.pc.Begun? || d.pc.Dialing? || d.pc.Ending? || d.pc.Ended?))
    && (d.pc.Handshaking? || d.pc == ClosingSocket(true) ==> d.kind == Tcp && !d.wrapped)
    && (d.pc.Obtained? || d.pc.Dispatching? || d.pc.Rejected? || d.pc == ClosingSocket(false) ==> d.wrapped)
    && (d.pc == Handshaking(false) ==> d.socket == Live && closing == None && !owned)
    && (d.pc.Dispatching? ==> d.kind == Origin)
    && (d.kind == Origin ==> !d.pc.Begun? && !d.pc.Dialing?)
    && (d.attempted ==> d.kind == Udp)
    && (d.pc.Obtained? && !d.attempted ==> d.socket == Live && closing == None && !owned)
    && (d.socket == Live && closing == None && !(d.pc.Handshaking? || d.pc.Obtained? || d.pc.Rejected?) ==> owned)
    && (d.socket == Live && !Holds(d.pc) ==> owned)
    && (owned && d.socket == Closed ==> closing == Some(true))
    && (closing == Some(true) ==> d.socket == Closed)
    && (closing == Some(false) ==> d.socket == Live)
    && (closing.Some? ==> owned || d.pc.Handshaking? || d.pc.Obtained? || d.pc.ClosingSocket?)
    && (d.counted <==> CountsAsActive(d, closing))
  }

  function Closing(w: World, t: nat): Option<bool> { if t in w.closing then Some(w.closing[t]) else None }

  predicate ChannelsOk(o: Owner) {
    && (if o.pending > 0 then o.settled == OpenChan else o.settled != OpenChan)
    && (if o.closed then o.retired != OpenChan else o.retired != ClosedChan)
  }

  predicate CleanupOk(w: World) {
    && (w.cleanup != NoCleanup ==> w.o.closed)
    && (w.cleanup.Waiting? && w.cleanup.pending == 0 ==> w.o.pending == 0)
    && (w.reported ==> w.o.closed && w.o.pending == 0 && w.o.connections == map[])
  }

  /** A connection cleanup found and has not visited is still owned while it is open. */
  predicate Found(w: World, t: nat) {
    t in w.dials && w.dials[t].socket != NoSocket && (w.dials[t].socket == Live ==> t in w.o.connections)
  }

  function Todo(w: World): set<nat> { if w.cleanup.Sweeping? then w.cleanup.todo else {} }

  predicate Inv(w: World) {
    && !w.panicked
    && w.o.pending == |PendingDials(w.dials)|
    && w.activeTCP == |CountedDials(w.dials)|
    && ChannelsOk(w.o)
    && CleanupOk(w)
    && w.o.connections.Keys <= w.dials.Keys && w.closing.Keys <= w.dials.Keys
    && (forall t :: t in w.dials ==> DialOk(w.dials[t], t in w.o.connections, Closing(w, t)))
    && (forall t :: t in Todo(w) ==> Found(w, t))
  }

  // ---------------------------------------------------------- one dial moves

  function One(b: bool): nat { if b then 1 else 0 }

  /** Nothing but dial `t` changed. */
  ghost predicate OnlyDial(w: World, v: World, t: nat) {
    && t in v.dials && v.dials.Keys == w.dials.Keys + {t}
    && (forall u :: u in w.dials && u != t ==> v.dials[u] == w.dials[u])
    && v.o.connections.Keys - {t} == w.o.connections.Keys - {t}
    && (forall u :: u != t ==> Closing(v, u) == Closing(w, u))
  }

  lemma SetMoves(a: set<nat>, b: set<nat>, t: nat)
    requires a - {t} == b - {t}
    ensures |b| == |a| - One(t in a) + One(t in b)
  {
    assert a == (a - {t}) + (if t in a then {t} else {});
    assert b == (b - {t}) + (if t in b then {t} else {});
  }

  lemma DialMoves(w: World, v: World, t: nat)
    requires Inv(w) && OnlyDial(w, v, t) && !v.panicked
    requires DialOk(v.dials[t], t in v.o.connections, Closing(v, t))
    requires v.o.pending == w.o.pending - One(t in w.dials && IsPending(w.dials[t].pc)) + One(IsPending(v.dials[t].pc))
    requires v.activeTCP == w.activeTCP - One(t in w.dials && w.dials[t].counted) + One(v.dials[t].counted)
    requires ChannelsOk(v.o) && CleanupOk(v) && v.cleanup == w.cleanup && (t in Todo(w) ==> Found(v, t))
    ensures Inv(v)
  {
    hide DialOk, ChannelsOk, CleanupOk, IsPending;
    forall u | u in Todo(v)
      ensures Found(v, u)
    {
      if u != t {
        assert Found(w, u);
        assert u in w.o.connections.Keys - {t} <==> u in v.o.connections.Keys - {t};
      }
    }
    SetMoves(PendingDials(w.dials), PendingDials(v.dials), t);
    SetMoves(CountedDials(w.dials), CountedDials(v.dials), t);
    forall u | u in v.dials
      ensures DialOk(v.dials[u], u in v.o.connections, Closing(v, u))
    {
      if u != t {
        assert u in w.o.connections.Keys - {t} <==> u in v.o.connections.Keys - {t};
        assert Closing(v, u) == Closing(w, u);
      }
    }
    forall u | u in v.o.connections.Keys
      ensures u in v.dials.Keys
    {
      assert u == t || u in w.o.connections.Keys - {t};
    }
    forall u | u in v.closing.Keys
      ensures u in v.dials.Keys
    {
      assert u == t || Closing(v, u) == Closing(w, u);
    }
  }

  /** A dial counts itself, so while one is pending the owner knows. */
  lemma PendingCounts(w: World, t: nat)
    requires Inv(w) && t in w.dials && IsPending(w.dials[t].pc)
    ensures w.o.pending > 0 && !w.reported
  {
    assert t in PendingDials(w.dials);
  }

  /** Only the record of a pending dial, and with it the active count, changes. */
  lemma Relabel(w: World, v: World, t: nat, d: Dial)
    requires Inv(w) && t in w.dials && v == w.(dials := w.dials[t := d], activeTCP := v.activeTCP)
    requires v.activeTCP == w.activeTCP - One(w.dials[t].counted) + One(d.counted)
    requires IsPending(d.pc) == IsPending(w.dials[t].pc)
    requires DialOk(d, t in w.o.connections, Closing(w, t))
    requires d.socket == w.dials[t].socket || w.dials[t].socket == NoSocket
    ensures Inv(v)
  {
    assert t in Todo(w) ==> Found(w, t);
    hide DialOk, ChannelsOk, IsPending;
    DialMoves(w, v, t);
  }

  /** A close call on an open socket finishes the raw close and will report to the owner. */
  lemma Closes(w: World, v: World, t: nat, d: Dial, ok: bool)
    requires Inv(w) && t in w.dials && t !in w.closing && w.dials[t].socket == Live
    requires v == w.(dials := w.dials[t := d], closing := w.closing[t := ok])
    requires IsPending(d.pc) == IsPending(w.dials[t].pc) && d.counted == w.dials[t].counted
    requires DialOk(d, t in w.o.connections, Some(ok)) && d.socket == if ok then Closed else Live
    ensures Inv(v)
  {
    assert t in Todo(w) ==> Found(w, t);
    hide DialOk, ChannelsOk, IsPending;
    DialMoves(w, v, t);
  }

  lemma BeginInv(w: World, t: nat, kind: Kind)
    requires Inv(w)
    ensures Inv(BeginStep(w, t, kind))
  {
    var v := BeginStep(w, t, kind);
    if v != w {
      assert t !in w.o.connections && t !in w.closing;
      assert t in Todo(w) ==> Found(w, t);
      assert DialOk(v.dials[t], false, None);
      hide DialOk;
      DialMoves(w, v, t);
    }
  }

  lemma EndLocal(d: Dial, owned: bool, closing: Option<bool>)
    requires d.pc.Ending? && DialOk(d, owned, closing)
    ensures DialOk(d.(pc := Ended), owned, closing)
  {
  }

  lemma EndInv(w: World, t: nat)
    requires Inv(w)
    ensures Inv(EndStep(w, t))
  {
    if At(w, t, Ending) {
      PendingCounts(w, t);
      assert ChannelsOk(w.o) && CleanupOk(w) && !w.panicked;
      assert DialOk(w.dials[t], t in w.o.connections, Closing(w, t));
      hide Inv, DialOk;
      EndLocal(w.dials[t], t in w.o.connections, Closing(w, t));
      Ends(w, EndStep(w, t), t, w.dials[t].(pc := Ended), EndDial(w.o).o);
    }
  }

  lemma Ends(w: World, v: World, t: nat, d: Dial, o: Owner)
    requires Inv(w) && t in w.dials && IsPending(w.dials[t].pc) && !IsPending(d.pc)
    requires v == w.(o := o, dials := w.dials[t := d]) && o.connections == w.o.connections
    requires o.pending == w.o.pending - 1 && ChannelsOk(o) && CleanupOk(v)
    requires DialOk(d, t in w.o.connections, Closing(w, t)) && d.counted == w.dials[t].counted && d.socket == w.dials[t].socket
    ensures Inv(v)
  {
    assert t in Todo(w) ==> Found(w, t);
    hide DialOk, ChannelsOk, CleanupOk;
    DialMoves(w, v, t);
  }

  lemma ReleaseInv(w: World, t: nat)
    requires Inv(w)
    ensures Inv(ReleaseStep(w, t))
  {
    var v := ReleaseStep(w, t);
    if v != w && t in w.closing {
      assert DialOk(w.dials[t], t in w.o.connections, Closing(w, t));
      assert t in Todo(w) ==> Found(w, t);
      ReleaseChannels(w, t);
      assert DialOk(v.dials[t], t in v.o.connections, None);
      assert t in Todo(v) ==> Found(v, t);
      hide DialOk, ChannelsOk, CleanupOk, Found;
      Released(w, v, t, v.dials[t]);
    }
  }

  lemma Released(w: World, v: World, t: nat, d: Dial)
    requires Inv(w) && t in w.closing && t in w.dials
    requires v == w.(o := Release(w.o, t, !w.closing[t]), closing := w.closing - {t}, dials := w.dials[t := d],
                     activeTCP := w.activeTCP - One(w.dials[t].counted) + One(d.counted))
    requires d.pc == w.dials[t].pc && ChannelsOk(v.o) && CleanupOk(v)
    requires DialOk(d, t in v.o.connections, None) && (t in Todo(v) ==> Found(v, t))
    ensures Inv(v)
  {
    hide DialOk, ChannelsOk, CleanupOk;
    DialMoves(w, v, t);
  }

  lemma ReleaseChannels(w: World, t: nat)
    requires Inv(w) && t in w.closing
    ensures ChannelsOk(ReleaseStep(w, t).o) && CleanupOk(ReleaseStep(w, t))
  {
    assert DialOk(w.dials[t], t in w.o.connections, Closing(w, t));
    if t !in w.o.connections {
      PendingCounts(w, t);
    }
  }

  // ---------------------------------------------- steps of a pending dial

  lemma TrackLocal(d: Dial, owned: bool)
    requires d.pc.Obtained? && DialOk(d, owned, None)
    ensures DialOk(d.(pc := Rejected), owned, None)
    ensures !d.attempted ==> DialOk(d.(pc := if d.kind == Origin then Dispatching else Ending), true, None)
  {
  }

  lemma TrackInv(w: World, t: nat)
    requires Inv(w)
    ensures Inv(TrackStep(w, t))
  {
    var v := TrackStep(w, t);
    if v != w {
      PendingCounts(w, t);
      assert DialOk(w.dials[t], t in w.o.connections, Closing(w, t));
      hide Inv, DialOk;
      TrackLocal(w.dials[t], t in w.o.connections);
      if w.o.closed || w.dials[t].attempted {
        Relabel(w, v, t, v.dials[t]);
      } else {
        Registers(w, v, t, v.dials[t]);
      }
    }
  }

  /** A pending dial hands its open socket to the owner. */
  lemma Registers(w: World, v: World, t: nat, d: Dial)
    requires Inv(w) && t in w.dials && t !in w.closing && !w.o.closed
    requires v == w.(o := w.o.(connections := w.o.connections[t := false]), dials := w.dials[t := d])
    requires IsPending(d.pc) && IsPending(w.dials[t].pc) && d.counted == w.dials[t].counted
    requires DialOk(d, true, None) && d.socket == w.dials[t].socket
    ensures Inv(v)
  {
    hide DialOk;
    PendingCounts(w, t);
    assert t in Todo(w) ==> Found(w, t);
    DialMoves(w, v, t);
  }

  lemma RejectLocal(d: Dial, owned: bool, closing: Option<bool>)
    requires d.pc.Dispatching? && DialOk(d, owned, closing)
    ensures DialOk(d.(pc := Rejected), owned, closing)
  {
  }

  lemma DoneInv(w: World)
    requires Inv(w)
    ensures Inv(w.(o := Done(w.o).o))
  {
    var v := w.(o := Done(w.o).o);
    assert ChannelsOk(v.o) && CleanupOk(v) && Todo(v) <= Todo(w);
    hide ChannelsOk, CleanupOk, DialOk, Done, Found;
    SameDials(w, v);
  }

  lemma RetiredInv(w: World, t: nat)
    requires Inv(w)
    ensures Inv(RetiredStep(w, t))
  {
    if At(w, t, Dispatching) {
      var u := w.(o := Done(w.o).o);
      DoneInv(w);
      assert DialOk(u.dials[t], t in u.o.connections, Closing(u, t));
      hide Inv, DialOk, Done;
      RejectLocal(u.dials[t], t in u.o.connections, Closing(u, t));
      if u.o.retired == ClosedChan {
        Relabel(u, RetiredStep(w, t), t, u.dials[t].(pc := Rejected));
      }
    }
  }

  lemma ActivateInv(w: World, t: nat)
    requires Inv(w)
    ensures Inv(ActivateStep(w, t))
  {
    var v := ActivateStep(w, t);
    if v != w {
      PendingCounts(w, t);
      assert DialOk(w.dials[t], t in w.o.connections, Closing(w, t));
      hide Inv;
      Relabel(w, v, t, v.dials[t]);
    }
  }

  lemma FailInv(w: World, t: nat)
    requires Inv(w)
    ensures Inv(if At(w, t, Dialing) then FailStep(w, t) else w)
  {
    var v := if At(w, t, Dialing) then FailStep(w, t) else w;
    if v != w {
      PendingCounts(w, t);
      assert DialOk(w.dials[t], t in w.o.connections, Closing(w, t));
      hide Inv;
      Relabel(w, v, t, v.dials[t]);
    }
  }

  lemma RawConnectedInv(w: World, t: nat)
    requires Inv(w)
    ensures Inv(RawConnectedStep(w, t))
  {
    var v := RawConnectedStep(w, t);
    if v != w {
      PendingCounts(w, t);
      assert DialOk(w.dials[t], t in w.o.connections, Closing(w, t));
      hide Inv;
      Relabel(w, v, t, v.dials[t]);
    }
  }

  lemma HandshakeOkInv(w: World, t: nat)
    requires Inv(w)
    ensures Inv(HandshakeOkStep(w, t))
  {
    var v := HandshakeOkStep(w, t);
    if v != w {
      PendingCounts(w, t);
      assert DialOk(w.dials[t], t in w.o.connections, Closing(w, t));
      hide Inv;
      Relabel(w, v, t, v.dials[t]);
    }
  }

  lemma UdpDialedInv(w: World, t: nat)
    requires Inv(w)
    ensures Inv(UdpDialedStep(w, t))
  {
    var v := UdpDialedStep(w, t);
    if v != w {
      PendingCounts(w, t);
      assert DialOk(w.dials[t], t in w.o.connections, Closing(w, t));
      hide Inv;
      Relabel(w, v, t, v.dials[t]);
    }
  }

  lemma DispatchedInv(w: World, t: nat)
    requires Inv(w)
    ensures Inv(DispatchedStep(w, t))
  {
    var v := DispatchedStep(w, t);
    if v != w {
      PendingCounts(w, t);
      assert DialOk(w.dials[t], t in w.o.connections, Closing(w, t));
      hide Inv;
      Relabel(w, v, t, v.dials[t]);
    }
  }

  lemma ReturnLocal(d: Dial, owned: bool)
    requires d.pc.ClosingSocket? && DialOk(d, owned, None)
    ensures DialOk(d.(pc := Ending, counted := d.counted && !d.pc.handshake), owned, None)
  {
  }

  lemma CloseReturnsInv(w: World, t: nat)
    requires Inv(w)
    ensures Inv(CloseReturnsStep(w, t))
  {
    var v := CloseReturnsStep(w, t);
    if v != w {
      PendingCounts(w, t);
      assert DialOk(w.dials[t], t in w.o.connections, Closing(w, t));
      hide Inv, DialOk;
      ReturnLocal(w.dials[t], t in w.o.connections);
      Relabel(w, v, t, w.dials[t].(pc := Ending, counted := w.dials[t].counted && !w.dials[t].pc.handshake));
    }
  }

  lemma CancelledInv(w: World, t: nat, ok: bool)
    requires Inv(w)
    ensures Inv(CancelledStep(w, t, ok))
  {
    var v := CancelledStep(w, t, ok);
    if v != w {
      PendingCounts(w, t);
      assert DialOk(w.dials[t], t in w.o.connections, Closing(w, t));
      hide Inv, DialOk;
      HandshakeLocal(w.dials[t], t in w.o.connections, ok);
      Closes(w, v, t, AfterClose(w.dials[t], Handshaking(true), ok), ok);
    }
  }

  lemma HandshakeFailsInv(w: World, t: nat, ok: bool)
    requires Inv(w)
    ensures Inv(HandshakeFailsStep(w, t, ok))
  {
    var v := HandshakeFailsStep(w, t, ok);
    if v != w {
      PendingCounts(w, t);
      assert DialOk(w.dials[t], t in w.o.connections, Closing(w, t));
      hide Inv, DialOk;
      HandshakeLocal(w.dials[t], t in w.o.connections, ok);
      if w.dials[t].socket == Live {
        Closes(w, v, t, AfterClose(w.dials[t], ClosingSocket(true), ok), ok);
      } else {
        Relabel(w, v, t, v.dials[t]);
      }
    }
  }

  lemma IdleTimeoutInv(w: World, t: nat, ok: bool)
    requires Inv(w)
    ensures Inv(IdleTimeoutStep(w, t, ok))
  {
    var v := IdleTimeoutStep(w, t, ok);
    if v != w {
      PendingCounts(w, t);
      assert DialOk(w.dials[t], t in w.o.connections, Closing(w, t));
      hide Inv;
      Closes(w, v, t, v.dials[t], ok);
    }
  }

  /** The raw close of an open socket by its dial, a callback or the owner of its handle. */
  function AfterClose(d: Dial, pc: Pc, ok: bool): Dial { d.(pc := pc, socket := if ok then Closed else Live) }

  lemma LateLocal(d: Dial, owned: bool, ok: bool)
    requires d.pc.Rejected? && DialOk(d, owned, None)
    ensures d.socket == Live ==> DialOk(AfterClose(d, ClosingSocket(false), ok), owned, Some(ok))
    ensures d.socket != Live ==> DialOk(d.(pc := ClosingSocket(false)), owned, None)
  {
  }

  lemma HandshakeLocal(d: Dial, owned: bool, ok: bool)
    requires d.pc.Handshaking? && DialOk(d, owned, None)
    ensures d.pc == Handshaking(false) ==> d.socket == Live && DialOk(AfterClose(d, Handshaking(true), ok), owned, Some(ok))
    ensures d.socket == Live ==> DialOk(AfterClose(d, ClosingSocket(true), ok), owned, Some(ok))
    ensures d.socket != Live ==> DialOk(d.(pc := ClosingSocket(true)), owned, None)
  {
  }

  lemma OwnedLocal(d: Dial, ok: bool)
    requires d.socket == Live && DialOk(d, true, None)
    ensures DialOk(AfterClose(d, d.pc, ok), true, Some(ok))
  {
  }

  lemma CloseLateInv(w: World, t: nat, ok: bool)
    requires Inv(w)
    ensures Inv(CloseLateStep(w, t, ok))
  {
    var v := CloseLateStep(w, t, ok);
    if At(w, t, Rejected) && CanClose(w, t) {
      assert DialOk(w.dials[t], t in w.o.connections, Closing(w, t));
      hide Inv, DialOk, CanClose;
      LateLocal(w.dials[t], t in w.o.connections, ok);
      if w.dials[t].socket == Live {
        Closes(w, v, t, AfterClose(w.dials[t], ClosingSocket(false), ok), ok);
      } else {
        Relabel(w, v, t, v.dials[t]);
      }
    }
  }

  lemma HandleClosesInv(w: World, t: nat, ok: bool)
    requires Inv(w)
    ensures Inv(HandleClosesStep(w, t, ok))
  {
    var v := HandleClosesStep(w, t, ok);
    if v != w {
      assert DialOk(w.dials[t], t in w.o.connections, Closing(w, t));
      hide Inv;
      Closes(w, v, t, v.dials[t], ok);
    }
  }

  lemma SweepInv(w: World, t: nat, ok: bool)
    requires Inv(w)
    ensures Inv(SweepStep(w, t, ok))
  {
    var v := SweepStep(w, t, ok);
    if v != w {
      var u := w.(cleanup := Sweeping(w.cleanup.todo - {t}));
      assert Found(w, t);
      assert Todo(u) <= Todo(w);
      SameDials(w, u);
      assert DialOk(u.dials[t], t in u.o.connections, Closing(u, t));
      hide Inv, DialOk;
      if u.dials[t].socket == Live {
        OwnedLocal(u.dials[t], ok);
        Closes(u, v, t, AfterClose(u.dials[t], u.dials[t].pc, ok), ok);
      }
    }
  }

  /** What the steps of cleanup itself leave alone. */
  lemma SameDials(w: World, v: World)
    requires Inv(w) && v.dials == w.dials && v.closing == w.closing && v.activeTCP == w.activeTCP
    requires v.o.connections == w.o.connections && v.o.pending == w.o.pending
    requires !v.panicked && ChannelsOk(v.o) && CleanupOk(v) && Todo(v) <= Todo(w) + w.o.connections.Keys
    ensures Inv(v)
  {
    forall t | t in Todo(v)
      ensures Found(v, t)
    {
      if t in w.o.connections {
        assert DialOk(w.dials[t], true, Closing(w, t));
      } else {
        assert Found(w, t);
      }
    }
    forall t | t in v.dials
      ensures DialOk(v.dials[t], t in v.o.connections, Closing(v, t))
    {
      assert Closing(v, t) == Closing(w, t);
    }
  }

  lemma SealInv(w: World)
    requires Inv(w)
    ensures Inv(SealStep(w))
  {
    SameDials(w, SealStep(w));
  }

  lemma SweepDoneInv(w: World)
    requires Inv(w)
    ensures Inv(SweepDoneStep(w))
  {
    hide DialOk, Found;
    var v := SweepDoneStep(w);
    assert Todo(v) <= Todo(w);
    SameDials(w, v);
  }

  lemma WaitInv(w: World, timedOut: bool)
    requires Inv(w)
    ensures Inv(WaitStep(w, timedOut))
  {
    SameDials(w, WaitStep(w, timedOut));
  }

  lemma StepInv(w: World, e: Event)
    requires Inv(w)
    ensures Inv(Next(w, e))
  {
    hide Inv, DialOk;
    match e
    case Begin(t, kind) => BeginInv(w, t, kind);
    case End(t) => EndInv(w, t);
    case ReleaseIt(t) => ReleaseInv(w, t);
    case HandleCloses(t, ok) => HandleClosesInv(w, t, ok);
    case SealIt => SealInv(w);
    case Sweep(t, ok) => SweepInv(w, t, ok);
    case SweepDone => SweepDoneInv(w);
    case WaitReturns(timedOut) => WaitInv(w, timedOut);
    case Activate(t) => ActivateInv(w, t);
    case DialFails(t) => FailInv(w, t);
    case RawConnected(t) => RawConnectedInv(w, t);
    case Cancelled(t, ok) => CancelledInv(w, t, ok);
    case HandshakeOk(t) => HandshakeOkInv(w, t);
    case HandshakeFails(t, ok) => HandshakeFailsInv(w, t, ok);
    case UdpDialed(t) => UdpDialedInv(w, t);
    case IdleTimeout(t, ok) => IdleTimeoutInv(w, t, ok);
    case TrackIt(t) => TrackInv(w, t);
    case Dispatched(t) => DispatchedInv(w, t);
    case RetiredSeen(t) => RetiredInv(w, t);
    case CloseLate(t, ok) => CloseLateInv(w, t, ok);
    case CloseReturns(t) => CloseReturnsInv(w, t);
  }

  lemma StartInv()
    ensures Inv(Start)
  {
  }
}
