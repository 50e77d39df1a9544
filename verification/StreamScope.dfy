/**
 pendingStreamConnScope: raw connections of a dial in progress, handed over on
 success or closed on cancellation, whichever comes first. One event is one
 critical section, one close, or one step of stopping the cancellation callback.
 */
module StreamScope {
  /** The fields under the mutex. */
  datatype Scope = Scope(pending: set<nat>, aborted: bool, handedOff: bool)

  /** Registration while the scope is open; anything else takes all pending connections to close, and the new one. */
  function Register(s: Scope, conn: nat, cancelled: bool): (Scope, set<nat>) {
    if s.aborted || s.handedOff || cancelled
    then (Scope({}, s.aborted || !s.handedOff, s.handedOff), s.pending + {conn})
    else (s.(pending := s.pending + {conn}), {})
  }

  function Handoff(s: Scope, cancelled: bool): (Scope, set<nat>, bool) {
    if s.aborted || cancelled then (Scope({}, true, s.handedOff), s.pending, false)
    else (Scope({}, s.aborted, true), {}, true)
  }

  function Abort(s: Scope): (Scope, set<nat>) {
    if s.handedOff then (s, {}) else (Scope({}, true, false), s.pending)
  }

  /** The cancellation callback: not started, stopped before it could start, started, finished. */
  datatype Callback = Armed | Stopped | Due | Running | Finished

  /** What a call still has to do once it has closed its connections. */
  datatype Then = Leave | StopCallback | MarkDone | AwaitDone

  datatype Call = Call(todo: set<nat>, then_: Then)

  /**
   `registered` are the connections register accepted, `seen` all it was given,
   `closed` those closed by the scope. `ended`: handoff or discard was called.
   */
  datatype World = World(
    s: Scope,
    cancelled: bool,
    callback: Callback,
    done: bool,
    calls: map<nat, Call>,
    registered: set<nat>,
    seen: set<nat>,
    closed: set<nat>,
    ended: bool,
    closedTwice: bool)

  const Start := World(Scope({}, false, false), false, Armed, false, map[], {}, {}, {}, false, false)

  datatype Event =
    | Cancel
    | RunCallback(c: nat)
    | DoRegister(c: nat, conn: nat)
    | DoHandoff(c: nat)
    | DoDiscard(c: nat)
    | CloseOne(c: nat, conn: nat)
    | Continue(c: nat)

  /** Cancelling the context starts the callback unless it was stopped. */
  function CancelStep(w: World): World {
    w.(cancelled := true, callback := if w.callback == Armed then Due else w.callback)
  }

  function RunCallbackStep(w: World, c: nat): World {
    if w.callback != Due || c in w.calls then w
    else
      var (s, todo) := Abort(w.s);
      w.(s := s, callback := Running, calls := w.calls[c := Call(todo, MarkDone)])
  }

  function RegisterStep(w: World, c: nat, conn: nat): World {
    if c in w.calls || conn in w.seen then w
    else
      var (s, todo) := Register(w.s, conn, w.cancelled);
      w.(s := s, calls := w.calls[c := Call(todo, Leave)], seen := w.seen + {conn},
         registered := if conn in s.pending then w.registered + {conn} else w.registered)
  }

  function HandoffStep(w: World, c: nat): World {
    if c in w.calls then w
    else
      var (s, todo, ok) := Handoff(w.s, w.cancelled);
      w.(s := s, ended := true, calls := w.calls[c := Call(todo, if ok then StopCallback else Leave)])
  }

  function DiscardStep(w: World, c: nat): World {
    if c in w.calls then w
    else
      var (s, todo) := Abort(w.s);
      w.(s := s, ended := true, calls := w.calls[c := Call(todo, StopCallback)])
  }

  function CloseOneStep(w: World, c: nat, conn: nat): World {
    if c !in w.calls || conn !in w.calls[c].todo then w
    else
      w.(calls := w.calls[c := w.calls[c].(todo := w.calls[c].todo - {conn})],
         closed := w.closed + {conn}, closedTwice := w.closedTwice || conn in w.closed)
  }

  /** stopAndWait: stop the callback before it starts, or wait for it; the last thing a stopper or the callback does is mark done. */
  function ContinueStep(w: World, c: nat): World {
    if c !in w.calls || w.calls[c].todo != {} then w
    else
      match w.calls[c].then_
      case Leave => w.(calls := w.calls - {c})
      case StopCallback =>
        if w.callback == Armed then w.(callback := Stopped, calls := w.calls[c := w.calls[c].(then_ := MarkDone)])
        else w.(calls := w.calls[c := w.calls[c].(then_ := AwaitDone)])
      case MarkDone =>
        w.(done := true, calls := w.calls - {c}, callback := if w.callback == Running then Finished else w.callback)
      case AwaitDone => if w.done then w.(calls := w.calls - {c}) else w
  }

  function Next(w: World, e: Event): World {
    match e
    case Cancel => CancelStep(w)
    case RunCallback(c) => RunCallbackStep(w, c)
    case DoRegister(c, conn) => RegisterStep(w, c, conn)
    case DoHandoff(c) => HandoffStep(w, c)
    case DoDiscard(c) => DiscardStep(w, c)
    case CloseOne(c, conn) => CloseOneStep(w, c, conn)
    case Continue(c) => ContinueStep(w, c)
  }

  function Run(w: World, events: seq<Event>): World
    decreases |events|
  {
    if events == [] then w else Run(Next(w, events[0]), events[1..])
  }

  // ---------------------------------------------------------------- invariant

  predicate Closing(w: World, conn: nat) { exists c :: c in w.calls && conn in w.calls[c].todo }

  /** Each connection the scope was given is in one place, and a handed-off scope touches none it accepted. */
  predicate ConnOk(w: World, conn: nat) {
    && (conn in w.seen <==> conn in w.s.pending || Closing(w, conn) || conn in w.closed || (conn in w.registered && w.s.handedOff))
    && (conn in w.s.pending ==> conn in w.registered && !Closing(w, conn) && conn !in w.closed)
    && !(Closing(w, conn) && conn in w.closed)
    && (conn in w.registered && !w.s.aborted && !w.s.handedOff ==> conn in w.s.pending)
    && (w.s.handedOff && conn in w.registered ==> !Closing(w, conn) && conn !in w.closed)
  }

  /** Only one call closes a given connection. */
  predicate OneCloser(w: World) {
    forall c, d :: c in w.calls && d in w.calls && c != d ==> w.calls[c].todo !! w.calls[d].todo
  }

  predicate ScopeOk(w: World) {
    && (w.s.aborted || w.s.handedOff ==> w.s.pending == {})
    && (w.ended ==> w.s.aborted || w.s.handedOff)
    && w.registered <= w.seen
  }

  /** Someone will still mark done. */
  ghost predicate DoneComing(w: World) {
    w.done || w.callback == Armed || w.callback == Due || exists c :: Marks(w, c)
  }

  ghost predicate WaitersOk(w: World) {
    (exists c :: Waits(w, c)) ==> w.callback != Armed
  }

  ghost predicate Inv(w: World) {
    && !w.closedTwice && ScopeOk(w) && OneCloser(w) && DoneComing(w) && WaitersOk(w)
    && (forall conn :: ConnOk(w, conn))
  }

  lemma ScopeStep(w: World, e: Event)
    requires Inv(w)
    ensures ScopeOk(Next(w, e)) && !Next(w, e).closedTwice
  {
    if e.CloseOne? && e.c in w.calls && e.conn in w.calls[e.c].todo {
      assert Closing(w, e.conn) && ConnOk(w, e.conn);
    }
  }

  /** A new call takes connections that were pending, or the new one. */
  lemma NewCallApart(w: World, c: nat, todo: set<nat>)
    requires Inv(w) && c !in w.calls
    requires forall conn :: conn in todo ==> conn in w.s.pending || conn !in w.seen
    ensures forall d :: d in w.calls ==> w.calls[d].todo !! todo
  {
    forall d, conn | d in w.calls && conn in w.calls[d].todo
      ensures conn !in todo
    {
      assert Closing(w, conn) && ConnOk(w, conn);
    }
  }

  lemma CloserStep(w: World, e: Event)
    requires Inv(w)
    ensures OneCloser(Next(w, e))
  {
    var v := Next(w, e);
    if e.RunCallback? || e.DoRegister? || e.DoHandoff? || e.DoDiscard? {
      if e.c !in w.calls && e.c in v.calls {
        NewCallApart(w, e.c, v.calls[e.c].todo);
      }
      hide Inv, ConnOk;
    } else if e.Continue? {
      ContinueKeeps(w, e.c);
    }
  }

  predicate Marks(w: World, c: nat) { c in w.calls && w.calls[c].then_ == MarkDone }

  predicate Waits(w: World, c: nat) { c in w.calls && w.calls[c].then_ == AwaitDone }

  lemma NewCallDone(w: World, e: Event)
    requires DoneComing(w) && WaitersOk(w)
    requires e.Cancel? || e.RunCallback? || e.DoRegister? || e.DoHandoff? || e.DoDiscard?
    ensures DoneComing(Next(w, e)) && WaitersOk(Next(w, e))
  {
    var v := Next(w, e);
    hide Abort, Register, Handoff;
    if c :| Marks(w, c) {
      assert Marks(v, c);
    }
    if c :| Waits(v, c) {
      assert Waits(w, c);
    }
    if e.RunCallback? && v != w {
      assert Marks(v, e.c);
    }
  }

  lemma ContinueDone(w: World, c: nat)
    requires DoneComing(w) && WaitersOk(w)
    ensures DoneComing(ContinueStep(w, c)) && WaitersOk(ContinueStep(w, c))
  {
    var v := ContinueStep(w, c);
    if d :| Marks(w, d) {
      assert v.done || Marks(v, d);
      assert v.callback == Armed ==> w.callback == Armed;
    }
    if d :| Waits(v, d) {
      assert v.callback != Armed || Waits(w, d);
    }
    if v.callback == Stopped && w.callback == Armed {
      assert Marks(v, c);
    }
    hide Marks, Waits;
  }

  lemma CloseOneDone(w: World, c: nat, conn: nat)
    requires DoneComing(w) && WaitersOk(w)
    ensures DoneComing(CloseOneStep(w, c, conn)) && WaitersOk(CloseOneStep(w, c, conn))
  {
    var v := CloseOneStep(w, c, conn);
    if d :| Marks(w, d) {
      assert Marks(v, d);
    }
    if d :| Waits(v, d) {
      assert Waits(w, d);
    }
  }

  lemma DoneStep(w: World, e: Event)
    requires Inv(w)
    ensures DoneComing(Next(w, e)) && WaitersOk(Next(w, e))
  {
    hide DoneComing, WaitersOk, ConnOk, OneCloser, ScopeOk;
    match e
    case Continue(c) => ContinueDone(w, c);
    case CloseOne(c, conn) => CloseOneDone(w, c, conn);
    case _ => NewCallDone(w, e);
  }

  lemma ClosingSame(w: World, v: World, conn: nat)
    requires forall c :: c in w.calls && conn in w.calls[c].todo ==> c in v.calls && conn in v.calls[c].todo
    requires forall c :: c in v.calls && conn in v.calls[c].todo ==> c in w.calls && conn in w.calls[c].todo
    ensures Closing(v, conn) == Closing(w, conn)
  {
  }

  lemma RunCallbackConn(w: World, c: nat, x: nat)
    requires ScopeOk(w) && ConnOk(w, x)
    ensures ConnOk(RunCallbackStep(w, c), x)
  {
    var v := RunCallbackStep(w, c);
    if v != w {
      NewCallCloses(w, v, c, x);
      hide Closing;
    }
  }

  lemma RegisterConn(w: World, c: nat, conn: nat, x: nat)
    requires ScopeOk(w) && ConnOk(w, x)
    ensures ConnOk(RegisterStep(w, c, conn), x)
  {
    var v := RegisterStep(w, c, conn);
    if v != w {
      NewCallCloses(w, v, c, x);
      hide Closing;
    }
  }

  lemma HandoffConn(w: World, c: nat, x: nat)
    requires ScopeOk(w) && ConnOk(w, x)
    ensures ConnOk(HandoffStep(w, c), x)
  {
    var v := HandoffStep(w, c);
    if v != w {
      NewCallCloses(w, v, c, x);
      hide Closing;
    }
  }

  lemma DiscardConn(w: World, c: nat, x: nat)
    requires ScopeOk(w) && ConnOk(w, x)
    ensures ConnOk(DiscardStep(w, c), x)
  {
    var v := DiscardStep(w, c);
    if v != w {
      NewCallCloses(w, v, c, x);
      hide Closing;
    }
  }

  lemma CloseOneConn(w: World, c: nat, conn: nat, x: nat)
    requires OneCloser(w) && ConnOk(w, x)
    ensures ConnOk(CloseOneStep(w, c, conn), x)
  {
    var v := CloseOneStep(w, c, conn);
    if v != w {
      if x == conn {
        assert Closing(w, x) && !Closing(v, x);
      } else {
        ClosingSame(w, v, x);
      }
      hide Closing, OneCloser;
    }
  }

  lemma ContinueKeeps(w: World, c: nat)
    ensures var v := ContinueStep(w, c);
      && v.s == w.s && v.registered == w.registered && v.seen == w.seen && v.closed == w.closed
      && (forall d :: d in v.calls ==> d in w.calls && v.calls[d].todo == w.calls[d].todo)
      && (forall d :: d in w.calls && w.calls[d].todo != {} ==> d in v.calls)
  {
    var v := ContinueStep(w, c);
    assert v.calls == w.calls || v.calls == w.calls - {c} || (c in w.calls && v.calls == w.calls[c := Call({}, v.calls[c].then_)]);
  }

  lemma ContinueConn(w: World, c: nat, x: nat)
    requires ConnOk(w, x)
    ensures ConnOk(ContinueStep(w, c), x)
  {
    ContinueKeeps(w, c);
    hide ContinueStep;
    ClosingSame(w, ContinueStep(w, c), x);
    hide Closing;
  }

  lemma ConnStep(w: World, e: Event, conn: nat)
    requires Inv(w)
    ensures ConnOk(Next(w, e), conn)
  {
    assert ConnOk(w, conn);
    match e
    case Cancel => ClosingSame(w, CancelStep(w), conn);
    case RunCallback(c) => RunCallbackConn(w, c, conn);
    case DoRegister(c, x) => RegisterConn(w, c, x, conn);
    case DoHandoff(c) => HandoffConn(w, c, conn);
    case DoDiscard(c) => DiscardConn(w, c, conn);
    case CloseOne(c, x) => CloseOneConn(w, c, x, conn);
    case Continue(c) => ContinueConn(w, c, conn);
  }

  lemma NewCallCloses(w: World, v: World, c: nat, conn: nat)
    requires c !in w.calls && c in v.calls && v.calls == w.calls[c := v.calls[c]]
    ensures Closing(v, conn) <==> Closing(w, conn) || conn in v.calls[c].todo
  {
    if Closing(w, conn) {
      var d :| d in w.calls && conn in w.calls[d].todo;
      assert d in v.calls && conn in v.calls[d].todo;
    }
  }

  lemma StepInv(w: World, e: Event)
    requires Inv(w)
    ensures Inv(Next(w, e))
  {
    ScopeStep(w, e);
    CloserStep(w, e);
    DoneStep(w, e);
    forall conn
      ensures ConnOk(Next(w, e), conn)
    {
      ConnStep(w, e, conn);
    }
  }

  lemma {:induction false} RunInv(w: World, events: seq<Event>)
    requires Inv(w)
    ensures Inv(Run(w, events))
    decreases |events|
  {
    if events != [] {
      StepInv(w, events[0]);
      RunInv(Next(w, events[0]), events[1..]);
    }
  }

  // ----------------------------------------------------------------- theorems

  /** Handoff is called on a scope that is handed off already and whose context has been cancelled since. */
  predicate LateHandoff(w: World, e: Event) { e.DoHandoff? && e.c !in w.calls && w.s.handedOff && w.cancelled }

  predicate HandsOffLate(w: World, events: seq<Event>)
    decreases |events|
  {
    events != [] && (LateHandoff(w, events[0]) || HandsOffLate(Next(w, events[0]), events[1..]))
  }

  lemma BothMarkedStep(w: World, e: Event)
    ensures var v := Next(w, e);
      v.s.handedOff && v.s.aborted <==> (w.s.handedOff && w.s.aborted) || LateHandoff(w, e)
  {
  }

  lemma {:induction false} BothMarked(w: World, events: seq<Event>)
    ensures var v := Run(w, events);
      v.s.handedOff && v.s.aborted <==> (w.s.handedOff && w.s.aborted) || HandsOffLate(w, events)
    decreases |events|
  {
    if events != [] {
      var v := Next(w, events[0]);
      BothMarkedStep(w, events[0]);
      hide Next, LateHandoff;
      BothMarked(v, events[1..]);
    }
  }

  /**
   A scope on which handoff or discard was called is handed off or aborted. It is
   both exactly when handoff was called once more, after it had succeeded and the
   context had been cancelled.
   */
  lemma OneOutcome(events: seq<Event>)
    ensures var w := Run(Start, events);
      && (w.ended ==> w.s.handedOff || w.s.aborted)
      && (w.s.handedOff && w.s.aborted <==> HandsOffLate(Start, events))
  {
    RunInv(Start, events);
    BothMarked(Start, events);
  }

  /** That can happen: the second handoff marks the scope aborted as well. */
  lemma RepeatedHandoffMarksBoth()
    ensures HandsOffLate(Start, [DoHandoff(0), Cancel, DoHandoff(1)])
    ensures var w := Run(Start, [DoHandoff(0), Cancel, DoHandoff(1)]); w.s.handedOff && w.s.aborted
  {
    var events := [DoHandoff(0), Cancel, DoHandoff(1)];
    assert events[1..] == [Cancel, DoHandoff(1)] && events[1..][1..] == [DoHandoff(1)] && events[1..][1..][1..] == [];
  }

  lemma OutcomeStep(w: World, e: Event)
    ensures var v := Next(w, e); (w.s.handedOff ==> v.s.handedOff) && (w.s.aborted ==> v.s.aborted)
  {
  }

  lemma {:induction false} OutcomeIsFinal(w: World, events: seq<Event>)
    requires Inv(w)
    ensures var v := Run(w, events); (w.s.handedOff ==> v.s.handedOff) && (w.s.aborted ==> v.s.aborted)
    decreases |events|
  {
    if events != [] {
      StepInv(w, events[0]);
      OutcomeStep(w, events[0]);
      hide Inv, Next;
      OutcomeIsFinal(Next(w, events[0]), events[1..]);
    }
  }

  /** A handed-off scope never closes a connection it accepted, whatever is cancelled or discarded afterwards. */
  lemma HandedOffClosesNothing(events: seq<Event>, conn: nat)
    ensures var w := Run(Start, events);
      w.s.handedOff && conn in w.registered ==> conn !in w.closed && !Closing(w, conn)
  {
    RunInv(Start, events);
    assert ConnOk(Run(Start, events), conn);
  }

  /** An aborted scope has closed every connection it accepted, exactly once, by the time all calls have returned. */
  lemma AbortedClosesAll(events: seq<Event>)
    ensures var w := Run(Start, events);
      !w.closedTwice && (w.s.aborted && !w.s.handedOff && w.calls == map[] ==> w.registered <= w.closed && w.seen <= w.closed)
  {
    RunInv(Start, events);
    var w := Run(Start, events);
    forall conn | conn in w.seen && w.s.aborted && !w.s.handedOff && w.calls == map[]
      ensures conn in w.closed
    {
      assert ConnOk(w, conn) && !Closing(w, conn);
    }
  }

  /** A connection refused by register is closed by it: none that the scope was given stays open and unowned. */
  lemma NothingForgotten(events: seq<Event>, conn: nat)
    ensures var w := Run(Start, events);
      conn in w.seen && w.calls == map[] ==> conn in w.s.pending || conn in w.closed || (w.s.handedOff && conn in w.registered)
  {
    RunInv(Start, events);
    var w := Run(Start, events);
    assert ConnOk(w, conn) && (w.calls == map[] ==> !Closing(w, conn));
  }

  /** A call waiting for the callback never waits in vain. */
  lemma WaitersAreServed(events: seq<Event>)
    ensures var w := Run(Start, events);
      (exists c :: Waits(w, c)) ==> w.done || w.callback == Due || exists c :: Marks(w, c)
  {
    RunInv(Start, events);
  }

  // ---------------------------------------------------------------- service

  /** Nobody cancels or discards. */
  predicate Calm(events: seq<Event>) { forall k :: 0 <= k < |events| ==> !events[k].Cancel? && !events[k].DoDiscard? }

  /** An undisturbed scope keeps what it was given until it is handed over. */
  predicate Serving(w: World) {
    && !w.cancelled && !w.s.aborted && w.callback != Due && w.callback != Running
    && (!w.s.handedOff ==> w.s.pending == w.registered == w.seen && w.closed == {} && forall c :: c in w.calls ==> w.calls[c].todo == {})
  }

  lemma ServingStep(w: World, e: Event)
    requires Serving(w) && !e.Cancel? && !e.DoDiscard?
    ensures Serving(Next(w, e))
  {
  }

  lemma {:induction false} ServingRun(w: World, events: seq<Event>)
    requires Serving(w) && Calm(events)
    ensures Serving(Run(w, events))
    decreases |events|
  {
    if events != [] {
      assert !events[0].Cancel? && !events[0].DoDiscard?;
      ServingStep(w, events[0]);
      hide Serving, Next;
      ServingRun(Next(w, events[0]), events[1..]);
    }
  }

  /**
   As long as nobody cancels or discards, every registration before the handoff is
   accepted, nothing is closed, and the handoff succeeds with all of them left open.
   */
  lemma UndisturbedScopeServes(events: seq<Event>, c: nat, conn: nat)
    requires Calm(events)
    ensures var w := Run(Start, events);
      c !in w.calls && !w.s.handedOff ==>
        && w.closed == {} && w.registered == w.seen
        && (conn !in w.seen ==> conn in Next(w, DoRegister(c, conn)).s.pending)
        && var v := Next(w, DoHandoff(c)); v.s.handedOff && !v.s.aborted && v.closed == {} && v.registered == w.registered
  {
    ServingRun(Start, events);
    hide Run;
  }

  /** Cancelling the context of a scope that is not handed over makes the callback abort it and close all that is pending. */
  lemma CancellationAborts(w: World, c: nat)
    requires !w.s.handedOff && w.callback == Armed && c !in w.calls
    ensures var v := Next(Next(w, Cancel), RunCallback(c));
      v.s.aborted && v.s.pending == {} && c in v.calls && v.calls[c] == Call(w.s.pending, MarkDone)
  {
  }

  /** So does discarding it; a scope that was handed over keeps its outcome. */
  lemma DiscardAborts(w: World, c: nat)
    requires c !in w.calls
    ensures var v := Next(w, DoDiscard(c));
      && c in v.calls && v.ended
      && (if w.s.handedOff then v.s == w.s && v.calls[c].todo == {}
          else v.s.aborted && v.s.pending == {} && v.calls[c].todo == w.s.pending)
  {
  }

  /** A call closes what it has taken, one connection at a time, and then returns or waits for the callback. */
  lemma CallsProceed(w: World, c: nat)
    requires c in w.calls
    ensures forall conn :: conn in w.calls[c].todo ==>
              var v := Next(w, CloseOne(c, conn));
              c in v.calls && v.calls[c].todo == w.calls[c].todo - {conn} && conn in v.closed
    ensures w.calls[c].todo == {} && (w.calls[c].then_ != AwaitDone || w.done) ==>
              var v := Next(w, Continue(c)); c !in v.calls || v.calls[c].then_ != w.calls[c].then_
  {
  }

  /** A registration after the cancellation is refused, and its connection closed with all that were pending. */
  lemma CancelledScopeRefuses(w: World, c: nat, conn: nat)
    requires c !in w.calls && conn !in w.seen && w.cancelled && !w.s.handedOff
    ensures var v := Next(w, DoRegister(c, conn));
      v.s.aborted && v.s.pending == {} && c in v.calls && v.calls[c].todo == w.s.pending + {conn}
  {
  }

  // -------------------------------------------------------------- the object

  class PendingScope {
    var pending: set<nat>
    var aborted: bool
    var handedOff: bool

    function View(): Scope
      reads this
    {
      Scope(pending, aborted, handedOff)
    }

    constructor ()
      ensures View() == Start.s
    {
      pending, aborted, handedOff := {}, false, false;
    }

    method TakePending() returns (taken: set<nat>)
      modifies this`pending
      ensures taken == old(pending) && pending == {}
    {
      taken, pending := pending, {};
    }

    /** What register leaves to close outside the lock: nothing if the connection was accepted. */
    method RegisterConn(conn: nat, cancelled: bool) returns (todo: set<nat>)
      modifies this
      ensures (View(), todo) == Register(old(View()), conn, cancelled)
    {
      todo := {};
      if aborted || handedOff || cancelled {
        if !handedOff {
          aborted := true;
        }
        todo := TakePending();
        todo := todo + {conn};
        return;
      }
      pending := pending + {conn};
    }

    method HandOver(cancelled: bool) returns (ok: bool, todo: set<nat>)
      modifies this
      ensures (View(), todo, ok) == Handoff(old(View()), cancelled)
    {
      todo := {};
      if aborted || cancelled {
        aborted := true;
        todo := TakePending();
        return false, todo;
      }
      handedOff, pending, ok := true, {}, true;
    }

    method AbortScope() returns (todo: set<nat>)
      modifies this
      ensures (View(), todo) == Abort(old(View()))
    {
      todo := {};
      if !handedOff {
        aborted := true;
        todo := TakePending();
      }
    }
  }
}
