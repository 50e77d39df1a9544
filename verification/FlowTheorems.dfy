/** What flowOwner guarantees over every run of one attempt generation. */
module FlowTheorems {
  import opened FlowOwner
  import opened FlowWorld
  import opened FlowInvariant
  import D = DrainedOwner

  function Run(w: World, events: seq<Event>): World
    decreases |events|
  {
    if events == [] then w else Run(Next(w, events[0]), events[1..])
  }

  lemma {:induction false} RunInv(w: World, events: seq<Event>)
    requires Inv(w)
    ensures Inv(Run(w, events))
    decreases |events|
  {
    if events != [] {
      StepInv(w, events[0]);
      RunInv(Next(w, events[0]), events[1..]);
    }
  }

  lemma Reachable(events: seq<Event>)
    ensures Inv(Run(Start, events))
  {
    StartInv();
    RunInv(Start, events);
  }

  // -------------------------------------------------------------- simulation

  /** The generation as a drained owner: its pending dials and its open sockets. */
  function Abs(w: World): D.Owner {
    D.Owner(w.o.closed, PendingDials(w.dials), LiveDials(w.dials), w.reported)
  }

  /** Which abstract step an event is. */
  function ActionOf(w: World, e: Event): D.Action {
    var v := Next(w, e);
    if v.reported != w.reported then D.Report
    else if v.o.closed != w.o.closed then D.Seal
    else if !(e.SealIt? || e.SweepDone? || e.WaitReturns?) && e.t in v.dials then
      var t := e.t;
      var was, now := t in w.dials && IsPending(w.dials[t].pc), IsPending(v.dials[t].pc);
      var had, has := t in w.dials && w.dials[t].socket == Live, v.dials[t].socket == Live;
      if !was && now then if has then D.Accept(t, t) else D.Admit(t)
      else if was && !now then D.End(t)
      else if !had && has then D.Obtain(t, t)
      else if had && !has then D.CloseSocket(t)
      else D.Skip
    else D.Skip
  }

  predicate ClosesOne(e: Event) {
    e.Cancelled? || e.HandshakeFails? || e.IdleTimeout? || e.CloseLate? || e.HandleCloses? || e.Sweep?
  }

  lemma ClosingKeepsOthers(w: World, e: Event)
    requires ClosesOne(e)
    ensures var v := Next(w, e);
      && w.dials.Keys <= v.dials.Keys <= w.dials.Keys + {e.t}
      && (forall u :: u in w.dials && u != e.t ==> v.dials[u] == w.dials[u])
  {
    hide Next;
    if e.Cancelled? || e.HandshakeFails? || e.IdleTimeout? {
      FailuresKeepOthers(w, e);
    } else {
      ClosersKeepOthers(w, e);
    }
  }

  lemma FailuresKeepOthers(w: World, e: Event)
    requires e.Cancelled? || e.HandshakeFails? || e.IdleTimeout?
    ensures var v := Next(w, e);
      && w.dials.Keys <= v.dials.Keys <= w.dials.Keys + {e.t}
      && (forall u :: u in w.dials && u != e.t ==> v.dials[u] == w.dials[u])
  {
    hide Closing, CanClose;
  }

  lemma ClosersKeepOthers(w: World, e: Event)
    requires e.CloseLate? || e.HandleCloses? || e.Sweep?
    ensures var v := Next(w, e);
      && w.dials.Keys <= v.dials.Keys <= w.dials.Keys + {e.t}
      && (forall u :: u in w.dials && u != e.t ==> v.dials[u] == w.dials[u])
  {
    hide Closing, CanClose;
  }

  lemma StepKeepsOthers(w: World, e: Event)
    requires !ClosesOne(e) && !(e.SealIt? || e.SweepDone? || e.WaitReturns?)
    ensures var v := Next(w, e);
      && w.dials.Keys <= v.dials.Keys <= w.dials.Keys + {e.t}
      && (forall u :: u in w.dials && u != e.t ==> v.dials[u] == w.dials[u])
  {
    hide Closing, EndDial, Release, Done, Track, CanClose, StartClose;
  }

  /** An event that names a dial changes no other. */
  lemma OthersKept(w: World, e: Event)
    requires !(e.SealIt? || e.SweepDone? || e.WaitReturns?)
    ensures var v := Next(w, e);
      && w.dials.Keys <= v.dials.Keys <= w.dials.Keys + {e.t}
      && (forall u :: u in w.dials && u != e.t ==> v.dials[u] == w.dials[u])
  {
    hide Next;
    if ClosesOne(e) {
      ClosingKeepsOthers(w, e);
    } else {
      StepKeepsOthers(w, e);
    }
  }

  lemma OnlyCleanupSeals(w: World, e: Event)
    requires !(e.SealIt? || e.SweepDone? || e.WaitReturns?)
    ensures Next(w, e).reported == w.reported && Next(w, e).o.closed == w.o.closed
  {
    hide CanClose, IsPending;
  }

  /** What one event may do to the dial it names. */
  predicate Moves(w: World, v: World, t: nat) {
    t in v.dials ==>
      var d := v.dials[t];
      if t !in w.dials then !w.o.closed && IsPending(d.pc)
      else
        var b := w.dials[t];
        && (IsPending(d.pc) ==> IsPending(b.pc))
        && (!IsPending(d.pc) && IsPending(b.pc) ==> d.socket == b.socket)
        && (b.socket != Live && d.socket == Live ==> IsPending(b.pc) && IsPending(d.pc))
  }

  lemma DialEffect(w: World, e: Event)
    requires Inv(w) && !(e.SealIt? || e.SweepDone? || e.WaitReturns?)
    ensures Moves(w, Next(w, e), e.t)
  {
    if e.t in w.dials {
      assert DialOk(w.dials[e.t], e.t in w.o.connections, Closing(w, e.t));
    }
    hide Inv, Moves, Next, DialOk;
    if ClosesOne(e) {
      CloserEffect(w, e);
    } else {
      StepEffect(w, e);
    }
  }

  lemma CloserEffect(w: World, e: Event)
    requires ClosesOne(e) && (e.t in w.dials ==> DialOk(w.dials[e.t], e.t in w.o.connections, Closing(w, e.t)))
    ensures Moves(w, Next(w, e), e.t)
  {
  }

  lemma StepEffect(w: World, e: Event)
    requires !ClosesOne(e) && !(e.SealIt? || e.SweepDone? || e.WaitReturns?)
    requires e.t in w.dials ==> DialOk(w.dials[e.t], e.t in w.o.connections, Closing(w, e.t))
    ensures Moves(w, Next(w, e), e.t)
  {
  }

  lemma CleanupEffect(w: World, e: Event)
    requires e.SealIt? || e.SweepDone? || e.WaitReturns?
    ensures var v := Next(w, e); v.dials == w.dials && (w.reported ==> v.reported) && (w.o.closed ==> v.o.closed)
    ensures var v := Next(w, e); v.reported != w.reported ==> v.o.closed == w.o.closed
  {
  }

  /** Sealed, with nothing pending and nothing owned, the generation has no open socket anywhere. */
  lemma NothingOpen(w: World)
    requires Inv(w) && w.o.pending == 0 && w.o.connections == map[]
    ensures PendingDials(w.dials) == {} && LiveDials(w.dials) == {} && w.closing == map[]
  {
    forall t | t in w.dials
      ensures w.dials[t].socket != Live && t !in w.closing
    {
      assert DialOk(w.dials[t], false, Closing(w, t));
      assert t !in PendingDials(w.dials);
    }
    assert w.closing.Keys == {};
  }

  /** Every event of the concrete owner is a step the specification allows. */
  lemma Simulates(w: World, e: Event)
    requires Inv(w)
    ensures D.Does(Abs(w), Abs(Next(w, e)), ActionOf(w, e))
  {
    if e.SealIt? || e.SweepDone? || e.WaitReturns? {
      CleanupSimulates(w, e);
    } else {
      hide Inv, Next, ActionOf, Moves, Abs;
      OthersKept(w, e);
      OnlyCleanupSeals(w, e);
      DialEffect(w, e);
      Abstracts(w, Next(w, e), e, ActionOf(w, e));
    }
  }

  lemma CleanupSimulates(w: World, e: Event)
    requires Inv(w) && (e.SealIt? || e.SweepDone? || e.WaitReturns?)
    ensures D.Does(Abs(w), Abs(Next(w, e)), ActionOf(w, e))
  {
    var v := Next(w, e);
    CleanupEffect(w, e);
    StepInv(w, e);
    if v.reported {
      assert CleanupOk(v);
      NothingOpen(v);
    }
    hide Inv, Next;
  }

  /** One event changed at most the dial it names, and that lawfully. */
  predicate Fits(w: World, v: World, e: Event, a: D.Action) {
    && !(e.SealIt? || e.SweepDone? || e.WaitReturns?) && v == Next(w, e) && a == ActionOf(w, e)
    && w.dials.Keys <= v.dials.Keys <= w.dials.Keys + {e.t}
    && (forall u :: u in w.dials && u != e.t ==> v.dials[u] == w.dials[u])
    && v.reported == w.reported && v.o.closed == w.o.closed && Moves(w, v, e.t)
  }

  lemma AbstractsEnabled(w: World, v: World, e: Event, a: D.Action)
    requires Fits(w, v, e, a)
    ensures D.Enabled(Abs(w), a)
  {
    hide Next;
  }

  lemma AbstractsApplies(w: World, v: World, e: Event, a: D.Action)
    requires Fits(w, v, e, a)
    ensures Abs(v) == D.Apply(Abs(w), a)
  {
    hide Next;
    var t := e.t;
    var p, q := PendingDials(w.dials), PendingDials(v.dials);
    var l, m := LiveDials(w.dials), LiveDials(v.dials);
    assert q == (p - {t}) + if t in q then {t} else {};
    assert m == (l - {t}) + if t in m then {t} else {};
  }

  lemma Abstracts(w: World, v: World, e: Event, a: D.Action)
    requires Fits(w, v, e, a)
    ensures D.Does(Abs(w), Abs(v), a)
  {
    AbstractsEnabled(w, v, e, a);
    AbstractsApplies(w, v, e, a);
    hide Fits, Abs;
  }

  // ---------------------------------------------------------------- theorems

  lemma {:induction false} StaysDrained(w: World, events: seq<Event>)
    requires Inv(w) && D.Drained(Abs(w))
    ensures D.Drained(Abs(Run(w, events)))
    decreases |events|
  {
    if events != [] {
      Simulates(w, events[0]);
      StepInv(w, events[0]);
      var v := Next(w, events[0]);
      D.DrainedStays(Abs(w), Abs(v), ActionOf(w, events[0]));
      hide Abs, Inv, Next;
      StaysDrained(v, events[1..]);
    }
  }

  /**
   When cleanup returns success, every socket any dial of the generation ever
   obtained is closed, and no run from there opens another one.
   */
  lemma SuccessMeansDrained(events: seq<Event>, timedOut: bool, later: seq<Event>)
    requires WaitSucceeds(Run(Start, events), timedOut)
    ensures var v := Next(Run(Start, events), WaitReturns(timedOut));
      D.Drained(Abs(v)) && D.Drained(Abs(Run(v, later)))
  {
    Reachable(events);
    var w := Run(Start, events);
    var v := WaitStep(w, timedOut);
    StepInv(w, WaitReturns(timedOut));
    NothingOpen(v);
    StaysDrained(v, later);
  }

  /** Neither the settled nor the retired channel is ever closed twice, or before it exists. */
  lemma ChannelsCloseOnce(events: seq<Event>)
    ensures !Run(Start, events).panicked
  {
    Reachable(events);
  }

  /** The pending count is the number of dials between beginDial and endDial. */
  lemma PendingIsExact(events: seq<Event>)
    ensures var w := Run(Start, events); w.o.pending == |PendingDials(w.dials)|
  {
    Reachable(events);
  }

  /** The active count is the TCP dials in flight and the TCP connections whose close has not been reported successful. */
  lemma ActiveIsExact(events: seq<Event>)
    ensures var w := Run(Start, events);
      w.activeTCP == |set t | t in w.dials && CountsAsActive(w.dials[t], Closing(w, t))|
  {
    Reachable(events);
    var w := Run(Start, events);
    assert forall t :: t in w.dials ==> DialOk(w.dials[t], t in w.o.connections, Closing(w, t));
    assert CountedDials(w.dials) == set t | t in w.dials && CountsAsActive(w.dials[t], Closing(w, t));
  }

  /** A socket left open by a dial that ended is still owned, so another cleanup will close it. */
  lemma OpenIsOwned(events: seq<Event>, t: nat)
    ensures var w := Run(Start, events);
      t in w.dials && w.dials[t].pc.Ended? && w.dials[t].socket == Live ==> t in w.o.connections
  {
    Reachable(events);
    var w := Run(Start, events);
    if t in w.dials {
      assert DialOk(w.dials[t], t in w.o.connections, Closing(w, t));
    }
  }
}
