/**
 One SOCKS UDP association: upstream connections per client and destination,
 dialed on first use, dropped when they fail, and closed with the control
 connection, as sections 6 and 7 of RFC 1928 require. One event is one critical
 section or the return of one external call.
 */
module UdpAssociation {
  /** Where a datagram or a reply relay is. */
  datatype Pc =
    | Dialing(key: nat)
    | Dialed(key: nat, conn: nat)
    | Rejected(key: nat, conn: nat, existing: nat)
    | Writing(key: nat, conn: nat)
    | Relaying(key: nat, conn: nat)
    | Dropping(key: nat, conn: nat)
    | Closing(conn: nat, cause: Cause)

  /** Who closes an upstream: rejection as late or duplicate, dropUpstream, or closeUpstreams. */
  datatype Cause = Unwanted | Dropped | Swept

  /** The control connection's handler: open, closing what it found, waiting for the workers, gone. */
  datatype Handler = Open | Sweeping(todo: set<nat>) | Waiting | Gone

  datatype World = World(
    upstream: map<nat, nat>,
    closed: bool,
    reading: bool,
    threads: map<nat, Pc>,
    handler: Handler,
    dialed: set<nat>,
    closedBy: map<nat, Cause>,
    closedTwice: bool)

  const Start := World(map[], false, true, map[], Open, {}, map[], false)

  datatype Event =
    | Datagram(t: nat, key: nat)
    | DialOk(t: nat, conn: nat)
    | DialFails(t: nat)
    | Insert(t: nat, relay: nat, submitted: bool)
    | Written(t: nat, ok: bool)
    | RelayEnds(t: nat)
    | Drop(t: nat)
    | CloseOne(t: nat)
    | ReaderEnds
    | ControlEnds
    | Sweep(conn: nat)
    | WorkersDone

  function Exit(w: World, t: nat): World { w.(threads := w.threads - {t}) }

  function Goto(w: World, t: nat, pc: Pc): World { w.(threads := w.threads[t := pc]) }

  function Close(w: World, conn: nat, cause: Cause): World {
    w.(closedBy := w.closedBy[conn := cause], closedTwice := w.closedTwice || conn in w.closedBy)
  }

  /** The first half of upstreamFor: an existing upstream is used, otherwise one is dialed. */
  function DatagramStep(w: World, t: nat, key: nat): World {
    if !w.reading || t in w.threads then w
    else Goto(w, t, if key in w.upstream then Writing(key, w.upstream[key]) else Dialing(key))
  }

  function DialOkStep(w: World, t: nat, conn: nat): World {
    if !(t in w.threads && w.threads[t].Dialing?) || conn in w.dialed then w
    else Goto(w, t, Dialed(w.threads[t].key, conn)).(dialed := w.dialed + {conn})
  }

  /** The second half: a late or duplicate upstream is turned away, any other gets a reply relay. */
  function InsertStep(w: World, t: nat, relay: nat, submitted: bool): World {
    if !(t in w.threads && w.threads[t].Dialed?) then w
    else
      var key, conn := w.threads[t].key, w.threads[t].conn;
      if w.closed then Goto(w, t, Closing(conn, Unwanted))
      else if key in w.upstream then Goto(w, t, Rejected(key, conn, w.upstream[key]))
      else
        var v := w.(upstream := w.upstream[key := conn]);
        if !submitted then Goto(v, t, Dropping(key, conn))
        else if relay in w.threads then w
        else v.(threads := w.threads[t := Writing(key, conn)][relay := Relaying(key, conn)])
  }

  /** dropUpstream: only the entry that still is this very upstream is removed and closed. */
  function DropStep(w: World, t: nat): World {
    if !(t in w.threads && w.threads[t].Dropping?) then w
    else
      var key, conn := w.threads[t].key, w.threads[t].conn;
      if key in w.upstream && w.upstream[key] == conn
      then Goto(w, t, Closing(conn, Dropped)).(upstream := w.upstream - {key})
      else Exit(w, t)
  }

  /** The close itself, outside the mutex; a duplicate's datagram then goes to the existing upstream. */
  function CloseOneStep(w: World, t: nat): World {
    if t !in w.threads then w
    else
      match w.threads[t]
      case Closing(conn, cause) => Exit(Close(w, conn, cause), t)
      case Rejected(key, conn, existing) => Goto(Close(w, conn, Unwanted), t, Writing(key, existing))
      case _ => w
  }

  /** The control connection ended: everything in the map is taken at once. */
  function ControlEndsStep(w: World): World {
    if w.handler != Open then w
    else w.(closed := true, handler := Sweeping(w.upstream.Values), upstream := map[])
  }

  function SweepStep(w: World, conn: nat): World {
    if !w.handler.Sweeping? || conn !in w.handler.todo then w
    else
      var todo := w.handler.todo - {conn};
      Close(w, conn, Swept).(handler := if todo == {} then Waiting else Sweeping(todo))
  }

  /** workers.Wait: the reader and every relay have returned. */
  function WorkersDoneStep(w: World): World {
    if w.reading || w.threads != map[] then w
    else if w.handler == Waiting || w.handler == Sweeping({}) then w.(handler := Gone)
    else w
  }

  function Next(w: World, e: Event): World {
    match e
    case Datagram(t, key) => DatagramStep(w, t, key)
    case DialOk(t, conn) => DialOkStep(w, t, conn)
    case DialFails(t) => if t in w.threads && w.threads[t].Dialing? then Exit(w, t) else w
    case Insert(t, relay, submitted) => InsertStep(w, t, relay, submitted)
    case Written(t, ok) =>
      if !(t in w.threads && w.threads[t].Writing?) then w
      else if ok then Exit(w, t) else Goto(w, t, Dropping(w.threads[t].key, w.threads[t].conn))
    case RelayEnds(t) =>
      if !(t in w.threads && w.threads[t].Relaying?) then w else Goto(w, t, Dropping(w.threads[t].key, w.threads[t].conn))
    case Drop(t) => DropStep(w, t)
    case CloseOne(t) => CloseOneStep(w, t)
    case ReaderEnds => w.(reading := false)
    case ControlEnds => ControlEndsStep(w)
    case Sweep(conn) => SweepStep(w, conn)
    case WorkersDone => WorkersDoneStep(w)
  }

  function Run(w: World, events: seq<Event>): World
    decreases |events|
  {
    if events == [] then w else Run(Next(w, events[0]), events[1..])
  }

  // ---------------------------------------------------------------- invariant

  /** This thread must close the connection. */
  predicate Owes(pc: Pc, conn: nat) {
    (pc.Dialed? || pc.Rejected? || pc.Closing?) && pc.conn == conn
  }

  predicate Mapped(w: World, key: nat, conn: nat) { key in w.upstream && w.upstream[key] == conn }

  predicate OwedBy(w: World, t: nat, conn: nat) { t in w.threads && Owes(w.threads[t], conn) }

  function Todo(w: World): set<nat> { if w.handler.Sweeping? then w.handler.todo else {} }

  /** A dialed upstream has one place: the map, one thread's hands, the handler's list, or it is closed. */
  datatype Place = Nowhere | InMap(key: nat) | InThread(t: nat) | InTodo | IsClosed

  /** The upstream is at this place and at no other. */
  ghost predicate Only(w: World, conn: nat, place: Place) {
    && (forall key :: Mapped(w, key, conn) <==> place == InMap(key))
    && (forall t :: OwedBy(w, t, conn) <==> place == InThread(t))
    && (conn in Todo(w) <==> place == InTodo)
    && (conn in w.closedBy <==> place == IsClosed)
    && (conn in w.dialed <==> place != Nowhere)
  }

  ghost predicate Placed(w: World, conn: nat) { exists place :: Only(w, conn, place) }

  ghost predicate Inv(w: World) {
    && !w.closedTwice
    && (w.closed ==> w.upstream == map[]) && (w.handler == Open <==> !w.closed)
    && (w.handler == Gone ==> !w.reading && w.threads == map[])
    && (forall conn :: Placed(w, conn))
  }

  /** Where an event moves an upstream. */
  function Moved(w: World, e: Event, conn: nat, place: Place): Place {
    match e
    case DialOk(t, c) => if c == conn && DialOkStep(w, t, c) != w then InThread(t) else place
    case Insert(t, _, _) =>
      if place == InThread(t) && t in w.threads && w.threads[t].Dialed? && InsertStep(w, t, e.relay, e.submitted).upstream != w.upstream then InMap(w.threads[t].key) else place
    case Drop(t) => if place.InMap? && t in w.threads && w.threads[t].Dropping? && Mapped(w, w.threads[t].key, conn) && w.threads[t].conn == conn then InThread(t) else place
    case CloseOne(t) => if place == InThread(t) && t in w.threads && (w.threads[t].Closing? || w.threads[t].Rejected?) then IsClosed else place
    case ControlEnds => if w.handler == Open && place.InMap? then InTodo else place
    case Sweep(c) => if c == conn && place == InTodo then IsClosed else place
    case _ => place
  }

  lemma ThreadPlace(w: World, e: Event, conn: nat, place: Place)
    requires Only(w, conn, place) && (w.closed ==> w.upstream == map[])
    requires e.Datagram? || e.DialOk? || e.DialFails? || e.Written? || e.RelayEnds? || e.ReaderEnds? || e.WorkersDone?
    ensures Only(Next(w, e), conn, Moved(w, e, conn, place))
  {
  }

  /** A thread that keeps what it owes moves nothing. */
  lemma ThreadKeeps(w: World, v: World, t: nat, pc: Pc, conn: nat, place: Place)
    requires Only(w, conn, place) && t in w.threads && v == Goto(w, t, pc)
    requires Owes(pc, conn) == Owes(w.threads[t], conn)
    ensures Only(v, conn, place)
  {
    assert OwedBy(v, t, conn) == OwedBy(w, t, conn);
    hide Owes;
  }

  lemma InsertPlace(w: World, t: nat, relay: nat, submitted: bool, conn: nat, place: Place)
    requires Only(w, conn, place)
    ensures Only(InsertStep(w, t, relay, submitted), conn, Moved(w, Insert(t, relay, submitted), conn, place))
  {
    var v := InsertStep(w, t, relay, submitted);
    if t in w.threads && w.threads[t].Dialed? {
      assert OwedBy(w, t, w.threads[t].conn);
      if v.upstream == w.upstream {
        if v != w {
          ThreadKeeps(w, v, t, v.threads[t], conn, place);
        }
      } else {
        assert v.upstream[w.threads[t].key] == w.threads[t].conn;
        Inserted(w, t, relay, submitted, conn, place);
      }
    }
  }

  lemma Inserted(w: World, t: nat, relay: nat, submitted: bool, conn: nat, place: Place)
    requires Only(w, conn, place) && t in w.threads && w.threads[t].Dialed?
    requires w.threads[t].key !in w.upstream && !w.closed && (submitted ==> relay !in w.threads)
    ensures Only(InsertStep(w, t, relay, submitted), conn, if place == InThread(t) then InMap(w.threads[t].key) else place)
  {
  }

  lemma DropPlace(w: World, t: nat, conn: nat, place: Place)
    requires Only(w, conn, place)
    ensures Only(DropStep(w, t), conn, Moved(w, Drop(t), conn, place))
  {
    if t in w.threads && w.threads[t].Dropping? {
      assert Mapped(w, w.threads[t].key, conn) ==> place == InMap(w.threads[t].key);
    }
  }

  lemma ClosePlace(w: World, t: nat, conn: nat, place: Place)
    requires Only(w, conn, place)
    ensures Only(CloseOneStep(w, t), conn, Moved(w, CloseOne(t), conn, place))
  {
    if t in w.threads {
      assert OwedBy(w, t, conn) <==> place == InThread(t);
    }
  }

  lemma SweepPlace(w: World, c: nat, conn: nat, place: Place)
    requires Only(w, conn, place)
    ensures Only(SweepStep(w, c), conn, Moved(w, Sweep(c), conn, place))
  {
    hide Owes;
  }

  lemma ControlPlace(w: World, conn: nat, place: Place)
    requires Only(w, conn, place)
    ensures Only(ControlEndsStep(w), conn, Moved(w, ControlEnds, conn, place))
  {
    if w.handler == Open {
      assert conn in w.upstream.Values <==> exists key :: Mapped(w, key, conn) by {
        if conn in w.upstream.Values {
          var key :| key in w.upstream && w.upstream[key] == conn;
          assert Mapped(w, key, conn);
        }
      }
    }
  }

  lemma PlaceStep(w: World, e: Event, conn: nat)
    requires Placed(w, conn) && (w.closed ==> w.upstream == map[])
    ensures Placed(Next(w, e), conn)
  {
    var place :| Only(w, conn, place);
    hide Only, Next, Moved;
    match e
    case Insert(t, relay, submitted) => InsertPlace(w, t, relay, submitted, conn, place); InsertIs(w, t, relay, submitted);
    case Drop(t) => DropPlace(w, t, conn, place); DropIs(w, t);
    case CloseOne(t) => ClosePlace(w, t, conn, place); CloseIs(w, t);
    case Sweep(c) => SweepPlace(w, c, conn, place); SweepIs(w, c);
    case ControlEnds => ControlPlace(w, conn, place); ControlIs(w);
    case _ => ThreadPlace(w, e, conn, place);
  }

  lemma InsertIs(w: World, t: nat, relay: nat, submitted: bool)
    ensures Next(w, Insert(t, relay, submitted)) == InsertStep(w, t, relay, submitted)
  {
  }

  lemma DropIs(w: World, t: nat)
    ensures Next(w, Drop(t)) == DropStep(w, t)
  {
  }

  lemma CloseIs(w: World, t: nat)
    ensures Next(w, CloseOne(t)) == CloseOneStep(w, t)
  {
  }

  lemma SweepIs(w: World, c: nat)
    ensures Next(w, Sweep(c)) == SweepStep(w, c)
  {
  }

  lemma ControlIs(w: World)
    ensures Next(w, ControlEnds) == ControlEndsStep(w)
  {
  }

  lemma StepInv(w: World, e: Event)
    requires Inv(w)
    ensures Inv(Next(w, e))
  {
    forall conn
      ensures Placed(Next(w, e), conn)
    {
      PlaceStep(w, e, conn);
    }
    if e.CloseOne? && e.t in w.threads && (w.threads[e.t].Closing? || w.threads[e.t].Rejected?) {
      NotClosedYet(w, w.threads[e.t].conn, e.t);
    } else if e.Sweep? && e.conn in Todo(w) {
      assert Placed(w, e.conn);
    }
    hide Placed;
  }

  lemma NotClosedYet(w: World, conn: nat, t: nat)
    requires Placed(w, conn) && OwedBy(w, t, conn)
    ensures conn !in w.closedBy
  {
  }

  lemma StartInv()
    ensures Inv(Start)
  {
    forall conn
      ensures Placed(Start, conn)
    {
      assert Only(Start, conn, Nowhere);
    }
  }

  lemma {:induction false} RunInv(w: World, events: seq<Event>)
    requires Inv(w)
    ensures Inv(Run(w, events))
    decreases |events|
  {
    if events != [] {
      StepInv(w, events[0]);
      RunInv(Next(w, events[0]), events[1..]);
    }
  }

  // ----------------------------------------------------------------- theorems

  /** No upstream is closed twice, and each is closed by one of the three only: the record of who closed it never changes. */
  lemma ClosedOnce(events: seq<Event>, e: Event, conn: nat)
    ensures var w := Run(Start, events); var v := Next(w, e);
      !w.closedTwice && (conn in w.closedBy ==> conn in v.closedBy && v.closedBy[conn] == w.closedBy[conn])
  {
    StartInv();
    RunInv(Start, events);
    var w := Run(Start, events);
    StepInv(w, e);
    hide Inv, Placed;
    if conn in w.closedBy {
      Unchanged(w, e, conn);
    }
  }

  lemma Unchanged(w: World, e: Event, conn: nat)
    requires !Next(w, e).closedTwice && conn in w.closedBy
    ensures conn in Next(w, e).closedBy && Next(w, e).closedBy[conn] == w.closedBy[conn]
  {
  }

  /** When the handler returns, every upstream ever dialed has been closed; none survives the control connection. */
  lemma NoneSurvives(events: seq<Event>)
    ensures var w := Run(Start, events); w.handler == Gone ==> w.closedBy.Keys == w.dialed
  {
    StartInv();
    RunInv(Start, events);
    var w := Run(Start, events);
    if w.handler == Gone {
      forall conn
        ensures conn in w.closedBy <==> conn in w.dialed
      {
        assert Placed(w, conn);
        var place :| Only(w, conn, place);
        assert !place.InMap? || Mapped(w, place.key, conn);
        assert !place.InThread? || OwedBy(w, place.t, conn);
      }
    }
  }

  // ---------------------------------------------------------------- service

  lemma RunFour(w: World, a: Event, b: Event, c: Event, d: Event)
    ensures Run(w, [a, b, c, d]) == Next(Next(Next(Next(w, a), b), c), d)
  {
    hide Next, Run;
    RunOne(w, a, [b, c, d]);
    RunOne(Next(w, a), b, [c, d]);
    RunOne(Next(Next(w, a), b), c, [d]);
    RunOne(Next(Next(Next(w, a), b), c), d, []);
    RunNone(Next(Next(Next(Next(w, a), b), c), d));
    assert [a] + [b, c, d] == [a, b, c, d] && [b] + [c, d] == [b, c, d] && [c] + [d] == [c, d] && [d] + [] == [d];
  }

  lemma RunOne(w: World, e: Event, events: seq<Event>)
    ensures Run(w, [e] + events) == Run(Next(w, e), events)
  {
    hide Next;
    assert ([e] + events)[1..] == events;
  }

  lemma RunNone(w: World)
    ensures Run(w, []) == w
  {
  }

  /**
   The first datagram for a client and destination dials an upstream, enters it
   under that key, starts a relay for the replies, and is written to it.
   */
  lemma FirstDatagramOpens(w: World, t: nat, relay: nat, key: nat, conn: nat)
    requires w.reading && !w.closed && key !in w.upstream && conn !in w.dialed
    requires t !in w.threads && relay !in w.threads && t != relay
    ensures var v := Run(w, [Datagram(t, key), DialOk(t, conn), Insert(t, relay, true), Written(t, true)]);
      && v.upstream == w.upstream[key := conn] && v.threads == w.threads[relay := Relaying(key, conn)]
      && v.dialed == w.dialed + {conn} && v.closedBy == w.closedBy
  {
    RunFour(w, Datagram(t, key), DialOk(t, conn), Insert(t, relay, true), Written(t, true));
    var a := Next(w, Datagram(t, key));
    assert a == w.(threads := w.threads[t := Dialing(key)]);
    var b := Next(a, DialOk(t, conn));
    assert b == w.(threads := w.threads[t := Dialed(key, conn)], dialed := w.dialed + {conn});
    var c := Next(b, Insert(t, relay, true));
    assert c.upstream == w.upstream[key := conn] && c.threads == w.threads[t := Writing(key, conn)][relay := Relaying(key, conn)];
    assert c.threads - {t} == w.threads[relay := Relaying(key, conn)];
  }

  /** A later datagram for that key goes to the same upstream, and nothing is dialed. */
  lemma LaterDatagramsReuse(w: World, t: nat, key: nat)
    requires w.reading && key in w.upstream && t !in w.threads
    ensures var v := Next(w, Datagram(t, key));
      v == w.(threads := w.threads[t := Writing(key, w.upstream[key])]) && Next(v, Written(t, true)) == w
  {
    var v := Next(w, Datagram(t, key));
    assert v.threads - {t} == w.threads;
  }

  /** An upstream stays under its key until the control connection ends or one of its own users drops it. */
  lemma UpstreamStays(w: World, e: Event, key: nat, conn: nat)
    requires Mapped(w, key, conn) && e != ControlEnds
    requires e.Drop? && e.t in w.threads && w.threads[e.t].Dropping? ==> w.threads[e.t].key != key || w.threads[e.t].conn != conn
    ensures Mapped(Next(w, e), key, conn)
  {
  }

  /** An upstream that cannot be written to, or whose relay ends, is taken from the map and closed, so that its key can be used again. */
  lemma FailedUpstreamDropped(w: World, t: nat, key: nat, conn: nat)
    requires t in w.threads && (w.threads[t] == Writing(key, conn) || w.threads[t] == Relaying(key, conn)) && Mapped(w, key, conn)
    ensures var fails := if w.threads[t].Writing? then Written(t, false) else RelayEnds(t);
      var v := Next(Next(Next(w, fails), Drop(t)), CloseOne(t));
      v.upstream == w.upstream - {key} && t !in v.threads && conn in v.closedBy && v.closedBy[conn] == Dropped
  {
    var fails := if w.threads[t].Writing? then Written(t, false) else RelayEnds(t);
    var u := Next(w, fails);
    assert u == Goto(w, t, Dropping(key, conn));
    var x := Next(u, Drop(t));
    assert x.upstream == w.upstream - {key} && x.threads == w.threads[t := Closing(conn, Dropped)] && x.closedBy == w.closedBy;
  }

  /** The end of the control connection takes every upstream at once and closes each. */
  lemma ControlEndsTakesAll(w: World, conn: nat)
    requires w.handler == Open
    ensures var v := Next(w, ControlEnds);
      && v.closed && v.upstream == map[] && v.handler == Sweeping(w.upstream.Values)
      && (conn in w.upstream.Values ==>
            var u := Next(v, Sweep(conn)); conn in u.closedBy && u.closedBy[conn] == Swept)
  {
  }

  /** The handler returns as soon as everything it found is closed and every worker has ended. */
  lemma HandlerReturns(w: World)
    requires w.handler == Waiting || w.handler == Sweeping({})
    ensures Next(w, WorkersDone).handler == (if !w.reading && w.threads == map[] then Gone else w.handler)
  {
  }

  // -------------------------------------------------------------- the object

  datatype Verdict = Inserted | Late | Duplicate(existing: nat)

  /** The fields of the association and the four critical sections on them. */
  class Association {
    var upstream: map<nat, nat>
    var closed: bool

    constructor ()
      ensures upstream == Start.upstream && closed == Start.closed
    {
      upstream, closed := map[], false;
    }

    method Insert(key: nat, conn: nat) returns (verdict: Verdict)
      modifies this`upstream
      ensures verdict == Late <==> closed
      ensures verdict.Duplicate? ==> key in old(upstream) && verdict.existing == old(upstream)[key]
      ensures verdict == Inserted <==> !closed && key !in old(upstream)
      ensures upstream == if verdict == Inserted then old(upstream)[key := conn] else old(upstream)
    {
      if closed {
        return Late;
      }
      if key in upstream {
        return Duplicate(upstream[key]);
      }
      upstream := upstream[key := conn];
      verdict := Inserted;
    }

    /** True when the caller must close the upstream: it was still the one under its key. */
    method Drop(key: nat, conn: nat) returns (mine: bool)
      modifies this`upstream
      ensures mine <==> key in old(upstream) && old(upstream)[key] == conn
      ensures upstream == if mine then old(upstream) - {key} else old(upstream)
    {
      mine := key in upstream && upstream[key] == conn;
      if mine {
        upstream := upstream - {key};
      }
    }

    method TakeAll() returns (todo: set<nat>)
      modifies this
      ensures closed && upstream == map[] && todo == old(upstream).Values
    {
      closed, todo, upstream := true, upstream.Values, map[];
    }
  }
}
