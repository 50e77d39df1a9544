/**
 Retryable teardown at every level: a lease undoes its steps last first, a
 ledger stops its leases last first, and whatever fails stays owned together
 with everything below it.
 */
module Teardown {
  import opened Options

  // ------------------------------------------------------------ specification

  /** What one Stop leaves of a stack when the steps in `failing` fail: the longest prefix that ends in a failing step. */
  function Remaining<T(==)>(stack: seq<T>, failing: set<T>): (rest: seq<T>)
    ensures rest <= stack
    ensures rest != [] ==> rest[|rest| - 1] in failing
  {
    if stack == [] || stack[|stack| - 1] in failing then stack else Remaining(stack[..|stack| - 1], failing)
  }

  function Flatten<T>(owners: seq<seq<T>>): seq<T> {
    if owners == [] then [] else Flatten(owners[..|owners| - 1]) + owners[|owners| - 1]
  }

  /** A ledger of leases: each is stopped in turn, and the first one that cannot finish stops the ledger. */
  function StopLedger<T(==)>(owners: seq<seq<T>>, failing: set<T>): seq<seq<T>> {
    if owners == [] then []
    else
      var rest := Remaining(owners[|owners| - 1], failing);
      if rest != [] then owners[..|owners| - 1] + [rest] else StopLedger(owners[..|owners| - 1], failing)
  }

  lemma {:induction false} RemainingSplit<T>(a: seq<T>, b: seq<T>, failing: set<T>)
    ensures Remaining(a + b, failing) ==
            if Remaining(b, failing) != [] then a + Remaining(b, failing) else Remaining(a, failing)
    decreases |b|
  {
    if b == [] {
      assert a + b == a;
    } else {
      var s := a + b;
      assert s[|s| - 1] == b[|b| - 1] && s[..|s| - 1] == a + b[..|b| - 1];
      RemainingSplit(a, b[..|b| - 1], failing);
    }
  }

  /** Leases within ledgers behave as one flat stack: the order across owners is the order of acquisition, reversed. */
  lemma {:induction false} NestedIsFlat<T>(owners: seq<seq<T>>, failing: set<T>)
    ensures Flatten(StopLedger(owners, failing)) == Remaining(Flatten(owners), failing)
    decreases |owners|
  {
    if owners != [] {
      var n := |owners| - 1;
      var rest := Remaining(owners[n], failing);
      RemainingSplit(Flatten(owners[..n]), owners[n], failing);
      if rest != [] {
        var left := owners[..n] + [rest];
        assert left[..n] == owners[..n] && left[n] == rest;
      } else {
        NestedIsFlat(owners[..n], failing);
      }
    }
  }

  function Reversed<T>(s: seq<T>): (r: seq<T>)
    ensures |r| == |s|
  {
    if s == [] then [] else [s[|s| - 1]] + Reversed(s[..|s| - 1])
  }

  /** What is left after any number of Stops, each with its own failures, and what they released in order. */
  function AfterStops<T(==)>(stack: seq<T>, failures: seq<set<T>>): seq<T>
    decreases |failures|
  {
    if failures == [] then stack else AfterStops(Remaining(stack, failures[0]), failures[1..])
  }

  function Released<T(==)>(stack: seq<T>, failures: seq<set<T>>): seq<T>
    decreases |failures|
  {
    if failures == [] then []
    else
      var rest := Remaining(stack, failures[0]);
      Reversed(stack[|rest|..]) + Released(rest, failures[1..])
  }

  lemma {:induction false} ReversedSplit<T>(a: seq<T>, b: seq<T>)
    ensures Reversed(a + b) == Reversed(b) + Reversed(a)
    decreases |b|
  {
    if b == [] {
      assert a + b == a;
    } else {
      var s := a + b;
      var init := b[..|b| - 1];
      assert s[|s| - 1] == b[|b| - 1] && s[..|s| - 1] == a + init;
      ReversedSplit(a, init);
      assert Reversed(s) == [b[|b| - 1]] + Reversed(a + init);
      assert [b[|b| - 1]] + (Reversed(init) + Reversed(a)) == [b[|b| - 1]] + Reversed(init) + Reversed(a);
    }
  }

  /**
   However often teardown fails and is retried, the steps that ran are exactly
   those no longer owned, each once, in reverse order of acquisition.
   */
  lemma {:induction false} EachOnceInReverse<T>(stack: seq<T>, failures: seq<set<T>>)
    ensures AfterStops(stack, failures) <= stack
    ensures Released(stack, failures) == Reversed(stack[|AfterStops(stack, failures)|..])
    decreases |failures|
  {
    if failures == [] {
      assert stack[|stack|..] == [];
    } else {
      var rest := Remaining(stack, failures[0]);
      EachOnceInReverse(rest, failures[1..]);
      var left := AfterStops(rest, failures[1..]);
      assert stack[|left|..] == rest[|left|..] + stack[|rest|..];
      ReversedSplit(rest[|left|..], stack[|rest|..]);
    }
  }

  // ------------------------------------------------------------- the program

  datatype Step =
    | ReleasePlatform
    | ReleaseTunnel
    | DisconnectCore
    | RetireScope(generation: nat)
    | CloseDevice(generation: nat)
    | DetachFlows(generation: nat)

  lemma OneMoreReleased<T>(all: seq<T>, i: nat)
    requires i < |all|
    ensures Reversed(all[i..]) == Reversed(all[i + 1..]) + [all[i]]
  {
    ReversedSplit([all[i]], all[i + 1..]);
    assert all[i..] == [all[i]] + all[i + 1..];
    assert Reversed([all[i]]) == [all[i]];
  }

  datatype Cause = NoError | Ordinary | CleanupFailure

  /** Where a protocol attempt fails; a device may be returned along with its error. */
  datatype Point = Nowhere | AtBypass | AtDevice(returned: bool) | AtUpstreams | AtEndpoint | AtOpen | AtContext | AtReadiness | AtAttach

  /** Where acquiring the network fails; the tunnel lease and its resolver exist on mobile platforms only. */
  datatype NetworkPoint = Ready | AtInputs | AtTunnel(acquired: bool) | AtResolver | AtCore | AtConnect

  /**
   The platform and the protocol libraries. They fail where they are told to, and
   `held` is what they have handed out and not got back, in the order of handing out.
   */
  class Outside {
    var held: seq<Step>
    const network: NetworkPoint
    const attempt: Point

    constructor (network: NetworkPoint, attempt: Point)
      ensures held == [] && this.network == network && this.attempt == attempt
    {
      held, this.network, this.attempt := [], network, attempt;
    }

    method AcquireTunnel() returns (acquired: bool, ok: bool)
      modifies this
      ensures acquired == (!network.AtTunnel? || network.acquired) && ok == !network.AtTunnel?
      ensures held == old(held) + if acquired then [ReleaseTunnel] else []
    {
      acquired, ok := !network.AtTunnel? || network.acquired, !network.AtTunnel?;
      held := held + if acquired then [ReleaseTunnel] else [];
    }

    /** Whatever a connection attempt leaves behind is undone by disconnecting. */
    method Connect() returns (ok: bool)
      modifies this
      ensures ok == !network.AtConnect? && held == old(held) + [DisconnectCore]
    {
      ok, held := !network.AtConnect?, held + [DisconnectCore];
    }

    method OpenScope(generation: nat)
      modifies this
      ensures held == old(held) + [RetireScope(generation)]
    {
      held := held + [RetireScope(generation)];
    }

    method NewDevice(generation: nat) returns (returned: bool, ok: bool)
      modifies this
      ensures returned == (!attempt.AtDevice? || attempt.returned) && ok == !attempt.AtDevice?
      ensures held == old(held) + if returned then [CloseDevice(generation)] else []
    {
      returned, ok := !attempt.AtDevice? || attempt.returned, !attempt.AtDevice?;
      held := held + if returned then [CloseDevice(generation)] else [];
    }

    method AttachFlows(generation: nat) returns (ok: bool)
      modifies this
      ensures ok == !attempt.AtAttach? && held == old(held) + if ok then [DetachFlows(generation)] else []
    {
      ok := !attempt.AtAttach?;
      held := held + if ok then [DetachFlows(generation)] else [];
    }

    /** Only what was handed out last can be given back. */
    method Undo(step: Step, failing: set<Step>) returns (ok: bool)
      requires held != [] && held[|held| - 1] == step
      modifies this
      ensures ok == (step !in failing) && held == if ok then old(held)[..|old(held)| - 1] else old(held)
    {
      ok := step !in failing;
      if ok {
        held := held[..|held| - 1];
      }
    }
  }

  /** The lease of a network or of one attempt. */
  class Lease {
    var undo: seq<Step>
    var stopped: bool
    /** The health monitor of a connected attempt; it must end before anything is released. */
    var monitored: bool

    constructor ()
      ensures undo == [] && !stopped && !monitored
    {
      undo, stopped, monitored := [], false, false;
    }

    method Push(step: Step)
      modifies this`undo
      ensures undo == old(undo) + [step]
    {
      undo := undo + [step];
    }

    /**
     Steps run last first until one fails; the failed one and all below it stay for
     the next Stop. What the lease holds is what is still handed out beyond `base`.
     */
    method Stop(env: Outside, failing: set<Step>, monitorEnds: bool, ghost base: seq<Step>) returns (ok: bool, released: seq<Step>)
      requires env.held == base + undo
      modifies this`undo, this`stopped, env
      ensures env.held == base + undo
      ensures old(stopped) ==> ok && released == [] && undo == old(undo) && stopped
      ensures !old(stopped) && monitored && !monitorEnds ==> !ok && released == [] && undo == old(undo) && !stopped
      ensures !old(stopped) && (!monitored || monitorEnds) ==>
                && undo == Remaining(old(undo), failing) && released == Reversed(old(undo)[|undo|..])
                && ok == stopped == (undo == [])
    {
      released := [];
      if stopped {
        return true, [];
      }
      if monitored && !monitorEnds {
        return false, [];
      }
      assert undo[|undo|..] == [] && Reversed<Step>([]) == [];
      hide Reversed;
      while |undo| > 0
        invariant env.held == base + undo
        invariant !stopped && undo <= old(undo) && Remaining(undo, failing) == Remaining(old(undo), failing)
        invariant released == Reversed(old(undo)[|undo|..])
      {
        var i := |undo| - 1;
        ghost var held := env.held;
        ok := env.Undo(undo[i], failing);
        if !ok {
          return;
        }
        OneMoreReleased(old(undo), i);
        assert held[..|held| - 1] == base + undo[..i];
        released := released + [undo[i]];
        undo := undo[..i];
      }
      stopped, ok := true, true;
    }
  }

  /** What a connected attempt holds, in order of acquisition. */
  function AttemptSteps(generation: nat): seq<Step> {
    [RetireScope(generation), CloseDevice(generation), DetachFlows(generation)]
  }

  /** How many of those are held when the attempt fails there. */
  function Held(p: Point): nat {
    match p
    case AtBypass => 0
    case AtDevice(returned) => if returned then 2 else 1
    case Nowhere => 3
    case _ => 2
  }

  /** The attempt fails while startLocked still runs. */
  predicate InStartup(p: Point) { !p.Nowhere? && !p.AtReadiness? && !p.AtAttach? }

  /** What an acquired network holds, in order of acquisition. */
  function NetworkSteps(mobile: bool): seq<Step> {
    if mobile then [ReleaseTunnel, DisconnectCore] else [DisconnectCore]
  }

  /** What a lease holds, if there is one. */
  function Undo(lease: Option<Lease>): seq<Step>
    reads if lease.Some? then {lease.value} else {}
  {
    if lease.Some? then lease.value.undo else []
  }

  class Runtime {
    var active: bool
    var network: Option<nat>

    constructor ()
      ensures !active && network == None
    {
      active, network := false, None;
    }

    /**
     PrepareNetwork: a network that is owned or in use refuses another. Otherwise
     the lease is handed out on failure too, and holds all that was handed out to it.
     */
    method PrepareNetwork(env: Outside, session: nat, mobile: bool) returns (lease: Option<Lease>, err: Cause)
      modifies this`network, env
      ensures old(network) != None || active ==> lease == None && err == Ordinary && network == old(network)
      ensures env.held == old(env.held) + Undo(lease)
      ensures old(network) == None && !active ==>
                var p := env.network;
                && network == Some(session) && lease.Some? && fresh(lease.value)
                && !lease.value.stopped && !lease.value.monitored && lease.value.undo <= NetworkSteps(mobile)
                && (err == NoError <==> p.Ready? || (!mobile && (p.AtTunnel? || p.AtResolver?)))
                && (err == NoError ==> lease.value.undo == NetworkSteps(mobile))
    {
      if network != None || active {
        return None, Ordinary;
      }
      network := Some(session);
      var owned := new Lease();
      lease := Some(owned);
      if env.network.AtInputs? {
        return lease, Ordinary;
      }
      if mobile {
        var acquired, ok := env.AcquireTunnel();
        if acquired {
          owned.Push(ReleaseTunnel);
        }
        if !ok || env.network.AtResolver? {
          return lease, Ordinary;
        }
      }
      if env.network.AtCore? {
        return lease, Ordinary;
      }
      owned.Push(DisconnectCore);
      var connected := env.Connect();
      err := if connected then NoError else Ordinary;
    }

    /** The Stop that empties the network's lease lets another network be acquired, and leaves nothing handed out. */
    method StopNetwork(env: Outside, lease: Lease, failing: set<Step>, ghost base: seq<Step>) returns (ok: bool, released: seq<Step>)
      requires !lease.monitored && env.held == base + lease.undo && (lease.stopped ==> lease.undo == [])
      modifies this`network, lease`undo, lease`stopped, env
      ensures ok == lease.stopped && env.held == base + lease.undo && (ok ==> env.held == base)
      ensures network == if ok && !old(lease.stopped) then None else old(network)
      ensures lease.undo == if old(lease.stopped) then old(lease.undo) else Remaining(old(lease.undo), failing)
      ensures released == Reversed(old(lease.undo)[|lease.undo|..])
    {
      var done := lease.stopped;
      ok, released := lease.Stop(env, failing, true, base);
      if ok && !done {
        network := None;
      }
      assert old(lease.undo)[|old(lease.undo)|..] == [];
    }

    /** startLocked: permission scope first, then the device; a failure undoes what was acquired. */
    method StartLocked(env: Outside, generation: nat, cause: Cause, failing: set<Step>)
      returns (lease: Option<Lease>, err: Cause, acquired: seq<Step>, released: seq<Step>)
      requires cause != NoError
      modifies env
      ensures lease.Some? ==> fresh(lease.value) && !lease.value.stopped && !lease.value.monitored
      ensures env.held == old(env.held) + Undo(lease)
      ensures acquired == AttemptSteps(generation)[..if Held(env.attempt) < 2 then Held(env.attempt) else 2]
      ensures !InStartup(env.attempt) ==>
                lease.Some? && lease.value.undo == acquired && released == [] && err == NoError
      ensures InStartup(env.attempt) ==>
                var left := Remaining(acquired, failing);
                && (lease.Some? <==> left != []) && Undo(lease) == left
                && released == Reversed(acquired[|left|..])
                && err == if left != [] then CleanupFailure else cause
    {
      hide Remaining, Reversed;
      ghost var base := env.held;
      acquired, released, err := [], [], NoError;
      var owned := new Lease();
      lease := Some(owned);
      var fails := env.attempt.AtBypass?;
      if !fails {
        env.OpenScope(generation);
        owned.Push(RetireScope(generation));
        var returned, ok := env.NewDevice(generation);
        if returned {
          owned.Push(CloseDevice(generation));
        }
        fails := !ok || InStartup(env.attempt);
      }
      acquired := owned.undo;
      if fails {
        var ok;
        ok, released := owned.Stop(env, failing, true, base);
        if ok {
          lease, err := None, cause;
        } else {
          err := CleanupFailure;
        }
      }
    }

    /**
     Either a connected attempt that holds all three steps; or a failure that
     released them in reverse; or a failure whose lease holds what could not be
     released. While a lease is out no other attempt starts; nor after a failure in
     startup whose own error was an unfinished cleanup, although then nobody holds
     a lease that could end it.
     */
    method Start(env: Outside, session: nat, generation: nat, cause: Cause, failing: set<Step>, cancelled: bool)
      returns (lease: Option<Lease>, err: Cause, ghost acquired: seq<Step>, ghost released: seq<Step>)
      requires cause != NoError
      modifies this`active, env
      ensures lease.Some? ==> fresh(lease.value) && !lease.value.stopped
      ensures env.held == old(env.held) + Undo(lease)
      ensures old(active) || cancelled || network != Some(session) ==> lease == None && err == Ordinary && active == old(active)
      ensures !(old(active) || cancelled || network != Some(session)) ==>
                var p := env.attempt;
                && acquired <= AttemptSteps(generation)
                && (p.Nowhere? ==> err == NoError && lease.Some? && lease.value.undo == AttemptSteps(generation) && lease.value.monitored)
                && (!p.Nowhere? ==>
                      var left := Remaining(acquired, failing);
                      && |acquired| == Held(p) && released == Reversed(acquired[|left|..])
                      && (lease.Some? <==> left != []) && Undo(lease) == left
                      && err == if left != [] then CleanupFailure else cause)
                && (active <==> lease.Some? || (InStartup(p) && cause == CleanupFailure))
    {
      hide Remaining, Reversed;
      acquired, released := [], [];
      if cancelled || active || network != Some(session) {
        return None, Ordinary, [], [];
      }
      ghost var base := env.held;
      active := true;
      var got, undone;
      lease, err, got, undone := StartLocked(env, generation, cause, failing);
      acquired, released := got, undone;
      if err != NoError {
        if lease == None && err != CleanupFailure {
          active := false;
        }
        return;
      }
      var attached := false;
      if !env.attempt.AtReadiness? {
        attached := env.AttachFlows(generation);
      }
      if !attached {
        var ok;
        ok, undone := lease.value.Stop(env, failing, true, base);
        released := undone;
        if ok {
          active, lease, err := false, None, cause;
        } else {
          err := CleanupFailure;
        }
        return;
      }
      lease.value.Push(DetachFlows(generation));
      lease.value.monitored := true;
      acquired := lease.value.undo;
    }

    /** The Stop that empties the lease lets the next attempt start, with nothing of this one handed out; a lease that was empty before changes nothing. */
    method StopAttempt(env: Outside, lease: Lease, failing: set<Step>, monitorEnds: bool, ghost base: seq<Step>)
      returns (ok: bool, released: seq<Step>)
      requires env.held == base + lease.undo && (lease.stopped ==> lease.undo == [])
      modifies this`active, lease`undo, lease`stopped, env
      ensures ok == lease.stopped && env.held == base + lease.undo && (ok ==> env.held == base)
      ensures active == if ok && !old(lease.stopped) then false else old(active)
      ensures lease.undo == if old(lease.stopped) || (lease.monitored && !monitorEnds) then old(lease.undo)
                            else Remaining(old(lease.undo), failing)
      ensures released == Reversed(old(lease.undo)[|lease.undo|..])
    {
      var done := lease.stopped;
      ok, released := lease.Stop(env, failing, monitorEnds, base);
      if ok && !done {
        active := false;
      }
      assert old(lease.undo)[|old(lease.undo)|..] == [];
    }
  }

  /** Opening the device reports an unfinished cleanup, everything is released, and the runtime stays reserved all the same. */
  method ReservedWithoutLease(session: nat, generation: nat) returns (r: Runtime, lease: Option<Lease>, err: Cause)
    ensures r.active && lease == None && err == CleanupFailure
  {
    r := new Runtime();
    var env := new Outside(Ready, AtOpen);
    var network, prepared := r.PrepareNetwork(env, session, false);
    ghost var acquired, released;
    lease, err, acquired, released := r.Start(env, session, generation, CleanupFailure, {}, false);
    assert lease == None && err == CleanupFailure && released == Reversed(acquired) by {
      assert Remaining(acquired, {}) == [];
      assert acquired[0..] == acquired;
    }
    var again, refused;
    again, refused, acquired, released := r.Start(env, session, generation + 1, Ordinary, {}, false);
    assert again == None && refused == Ordinary;
  }

  /**
   A session from acquisition to release: with closers that succeed, nothing that
   was handed out to it is left, wherever the network or the attempt failed.
   */
  method NothingStaysHandedOut(env: Outside, session: nat, generation: nat, mobile: bool, cause: Cause)
    requires env.held == [] && cause != NoError
    modifies env
    ensures env.held == []
  {
    var r := new Runtime();
    var network, prepared := r.PrepareNetwork(env, session, mobile);
    ghost var base := network.value.undo;
    var attempt, err, acquired, released := r.Start(env, session, generation, cause, {}, false);
    if attempt.Some? {
      EmptiesAll(attempt.value.undo);
      var stopped, steps := r.StopAttempt(env, attempt.value, {}, true, base);
    }
    EmptiesAll(network.value.undo);
    var done, last := r.StopNetwork(env, network.value, {}, []);
  }

  lemma {:induction false} EmptiesAll(stack: seq<Step>)
    ensures Remaining(stack, {}) == []
    decreases |stack|
  {
    if stack != [] {
      EmptiesAll(stack[..|stack| - 1]);
    }
  }

  // ---------------------------------------------------------------- theorems

  /** Every step of the first owner runs after every step of the owners above it. */
  predicate Before<T(==)>(released: seq<T>, a: T, b: T) {
    forall j :: 0 <= j < |released| && released[j] == b ==> exists i :: 0 <= i < j && released[i] == a
  }

  lemma {:induction false} ReversedIndex<T>(s: seq<T>, k: nat)
    requires k < |s|
    ensures Reversed(s)[k] == s[|s| - 1 - k]
    decreases |s|
  {
    if k > 0 {
      ReversedIndex(s[..|s| - 1], k - 1);
    }
  }

  /** In any teardown of a stack, a step above another is released before it. */
  lemma AboveFirst<T>(stack: seq<T>, failures: seq<set<T>>, lower: nat, upper: nat)
    requires lower < upper < |stack| && forall i :: 0 <= i < |stack| && stack[i] == stack[lower] ==> i == lower
    ensures Before(Released(stack, failures), stack[upper], stack[lower])
  {
    EachOnceInReverse(stack, failures);
    var released, left := Released(stack, failures), AfterStops(stack, failures);
    var gone := stack[|left|..];
    forall j | 0 <= j < |released| && released[j] == stack[lower]
      ensures exists i :: 0 <= i < j && released[i] == stack[upper]
    {
      ReversedIndex(gone, j);
      var at := |stack| - 1 - j;
      assert gone[|gone| - 1 - j] == stack[at];
      var i := |stack| - 1 - upper;
      ReversedIndex(gone, i);
      assert gone[|gone| - 1 - i] == stack[upper];
      assert released[i] == stack[upper];
    }
  }

  /** The owners of a session, first acquired first: the platform's lease, the network's, the attempt's. */
  function SessionOwners(network: seq<Step>, attempt: seq<Step>): seq<seq<Step>> {
    [[ReleasePlatform], network, attempt]
  }

  /**
   The composed order, through any number of failing and retried Stops, for
   whatever PrepareNetwork and Start left in their leases: flows detach before the
   device closes, the device closes before its permissions retire, all of that
   before the core disconnects, and that before the tunnel and the platform are
   released.
   */
  lemma ComposedOrder(mobile: bool, generation: nat, network: seq<Step>, attempt: seq<Step>, failures: seq<set<Step>>)
    requires network <= NetworkSteps(mobile) && attempt <= AttemptSteps(generation)
    ensures var stack := Flatten(SessionOwners(network, attempt)); var released := Released(stack, failures);
      && stack == [ReleasePlatform] + network + attempt
      && (forall i, j :: 0 <= i < j < |stack| ==> Before(released, stack[j], stack[i]))
  {
    var owners := SessionOwners(network, attempt);
    var stack := [ReleasePlatform] + network + attempt;
    assert owners[..2] == [[ReleasePlatform], network] && owners[..2][..1] == [[ReleasePlatform]] && owners[..2][..1][..0] == [];
    assert Flatten(owners[..2][..1]) == [ReleasePlatform];
    assert Flatten(owners[..2]) == [ReleasePlatform] + network;
    assert Flatten(owners) == stack;
    forall i, j | 0 <= i < j < |stack|
      ensures Before(Released(stack, failures), stack[j], stack[i])
    {
      assert forall k :: 0 <= k < |stack| && stack[k] == stack[i] ==> k == i;
      AboveFirst(stack, failures, i, j);
    }
  }
}
