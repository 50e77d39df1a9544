/**
 The Windows network guard: one filter engine, permissions per attempt
 generation, and the fence that keeps a retired generation out. Filters are an
 abstract set of identifiers; an engine transaction that does not commit is
 rolled back.
 */
module NetworkGuard {
  import opened Options

  /** The filter engine. Operations fail once the budget is spent. */
  class FilterEngine {
    var filters: set<nat>
    var nextId: nat
    var saved: Option<set<nat>>
    var budget: nat

    ghost predicate Valid()
      reads this
    {
      (forall id :: id in filters ==> id < nextId) && (saved.Some? ==> forall id :: id in saved.value ==> id < nextId)
    }

    constructor (budget: nat)
      ensures Valid() && filters == {} && saved == None && nextId == 0
    {
      filters, nextId, saved, this.budget := {}, 0, None, budget;
    }

    method Spend() returns (ok: bool)
      modifies this`budget
      ensures ok <==> old(budget) > 0
      ensures !ok ==> budget == 0
    {
      ok := budget > 0;
      if ok {
        budget := budget - 1;
      }
    }

    method Begin() returns (ok: bool)
      requires Valid() && saved == None
      modifies this`saved, this`budget
      ensures Valid() && saved == if ok then Some(filters) else None
      ensures !ok ==> budget == 0
    {
      ok := Spend();
      if ok {
        saved := Some(filters);
      }
    }

    method Abort()
      requires Valid() && saved.Some?
      modifies this`filters, this`saved
      ensures Valid() && filters == old(saved).value && saved == None
    {
      filters, saved := saved.value, None;
    }

    method Commit() returns (ok: bool)
      requires Valid() && saved.Some?
      modifies this`saved, this`budget
      ensures Valid() && saved == if ok then None else old(saved)
      ensures !ok ==> budget == 0
    {
      ok := Spend();
      if ok {
        saved := None;
      }
    }

    method Add() returns (id: Option<nat>)
      requires Valid()
      modifies this
      ensures Valid() && saved == old(saved) && old(nextId) <= nextId
      ensures id.None? ==> filters == old(filters) && budget == 0
      ensures id.Some? ==> id.value !in old(filters) && filters == old(filters) + {id.value} && old(nextId) <= id.value < nextId
    {
      id := None;
      var ok := Spend();
      if ok {
        id := Some(nextId);
        filters, nextId := filters + {nextId}, nextId + 1;
      }
    }

    method Delete(id: nat) returns (ok: bool)
      requires Valid()
      modifies this`filters, this`budget
      ensures Valid() && filters == if ok then old(filters) - {id} else old(filters)
      ensures !ok ==> budget == 0
    {
      ok := Spend();
      if ok {
        filters := filters - {id};
      }
    }
  }

  /** What the guard records; `filters` is what the engine holds. */
  datatype Guard = Guard(
    open: bool,
    filters: set<nat>,
    base: set<nat>,
    attempts: map<nat, map<string, nat>>,
    retiredThrough: nat,
    identity: string,
    bootstrap: set<nat>)

  function IdsOf(entries: map<string, nat>): set<nat> { entries.Values }

  function Permissions(attempts: map<nat, map<string, nat>>, generation: nat): map<string, nat> {
    if generation in attempts then attempts[generation] else map[]
  }

  /** Every filter in the engine is recorded by exactly one owner, and every recorded filter is in the engine. */
  ghost predicate Recorded(g: Guard) {
    && (g.open ==> forall id :: id in g.filters <==> id in g.base || id in g.bootstrap || Permitted(g, id))
    && (g.open ==> g.base !! g.bootstrap)
    && (forall n :: n in g.attempts ==> g.open ==> IdsOf(g.attempts[n]) !! g.base && IdsOf(g.attempts[n]) !! g.bootstrap)
    && (forall n, m :: n in g.attempts && m in g.attempts && n != m ==> IdsOf(g.attempts[n]) !! IdsOf(g.attempts[m]))
  }

  /** Some attempt holds this permission. */
  predicate Permitted(g: Guard, id: nat) {
    exists n :: n in g.attempts && id in IdsOf(g.attempts[n])
  }

  /** No filter in the engine permits anything for this generation, and none can be added. */
  predicate Fenced(g: Guard, generation: nat) {
    generation <= g.retiredThrough && (generation in g.attempts ==> g.attempts[generation] == map[])
  }

  // ------------------------------------------------- what each call may do

  /** Authorize adds at most one permission, for its own generation, and only above the fence. */
  ghost predicate AuthorizeStep(g: Guard, v: Guard, generation: nat, key: string, ok: bool) {
    if !g.open || generation == 0 || generation <= g.retiredThrough then v == g && !ok
    else if key in Permissions(g.attempts, generation) then v == g
    else if v == g then !ok
    else
      exists id :: AddsPermission(g, v, generation, key, id)
  }

  predicate AddsPermission(g: Guard, v: Guard, generation: nat, key: string, id: nat) {
    && id !in g.filters
    && v == g.(filters := g.filters + {id}, attempts := g.attempts[generation := Permissions(g.attempts, generation)[key := id]])
  }

  /** Retire raises the fence whatever happens; success removes every permission of the generation and no other filter. */
  predicate RetireStep(g: Guard, v: Guard, generation: nat, ok: bool) {
    var fence := if generation > g.retiredThrough then generation else g.retiredThrough;
    if !ok then v == g.(retiredThrough := fence)
    else if Permissions(g.attempts, generation) == map[] then v == g.(retiredThrough := fence)
    else
      v == g.(retiredThrough := fence, filters := g.filters - IdsOf(g.attempts[generation]), attempts := g.attempts - {generation})
  }

  /** The resolver's filters are replaced as a whole or not at all. */
  predicate BootstrapStep(g: Guard, v: Guard, identity: string, ok: bool) {
    if !ok || identity == g.identity then v == g
    else
      && v == g.(filters := v.filters, identity := identity, bootstrap := v.bootstrap)
      && v.filters == g.filters - g.bootstrap + v.bootstrap && v.bootstrap !! g.filters
  }

  class WindowsNetworkGuard {
    const engine: FilterEngine
    var open: bool
    var base: set<nat>
    var attempts: map<nat, map<string, nat>>
    var retiredThrough: nat
    var identity: string
    var bootstrap: set<nat>

    function View(): Guard
      reads this, engine
    {
      Guard(open, engine.filters, base, attempts, retiredThrough, identity, bootstrap)
    }

    ghost predicate Valid()
      reads this, engine
    {
      engine.Valid() && engine.saved == None && Recorded(View())
    }

    /** The base policy of `base` filters, installed in one transaction; failure leaves no filter. */
    constructor (engine: FilterEngine, count: nat)
      requires engine.Valid() && engine.saved == None && engine.filters == {}
      modifies engine
      ensures Valid() && this.engine == engine && attempts == map[] && retiredThrough == 0 && bootstrap == {}
      ensures if open then |base| == count && engine.filters == base else engine.filters == {} && engine.budget == 0
    {
      this.engine := engine;
      open, base, attempts, retiredThrough, identity, bootstrap := false, {}, map[], 0, "", {};
      new;
      var ok := engine.Begin();
      if !ok {
        return;
      }
      var ids := {};
      ok, ids := AddFilters(count);
      if ok {
        ok := engine.Commit();
      }
      if ok {
        open, base := true, ids;
      } else {
        engine.Abort();
      }
    }

    method AddFilters(count: nat) returns (ok: bool, ids: set<nat>)
      requires engine.Valid()
      modifies engine
      ensures engine.Valid() && engine.saved == old(engine.saved)
      ensures engine.filters == old(engine.filters) + ids && ids !! old(engine.filters)
      ensures forall id :: id in ids ==> old(engine.nextId) <= id
      ensures if ok then |ids| == count else engine.budget == 0
    {
      ids, ok := {}, true;
      var i := 0;
      while ok && i < count
        invariant 0 <= i <= count
        invariant engine.Valid() && engine.saved == old(engine.saved) && old(engine.nextId) <= engine.nextId
        invariant engine.filters == old(engine.filters) + ids && ids !! old(engine.filters)
        invariant forall id :: id in ids ==> old(engine.nextId) <= id < engine.nextId
        invariant |ids| == i && (!ok ==> engine.budget == 0)
        decreases count - i, ok
      {
        var id := engine.Add();
        if id.Some? {
          ids, i := ids + {id.value}, i + 1;
        } else {
          ok := false;
        }
      }
    }

    method DeleteFilters(ids: set<nat>) returns (ok: bool)
      requires engine.Valid()
      modifies engine
      ensures engine.Valid() && engine.saved == old(engine.saved) && engine.nextId == old(engine.nextId)
      ensures if ok then engine.filters == old(engine.filters) - ids else engine.budget == 0
    {
      var todo := ids;
      ok := true;
      while ok && todo != {}
        invariant todo <= ids
        invariant engine.Valid() && engine.saved == old(engine.saved) && engine.nextId == old(engine.nextId)
        invariant if ok then engine.filters == old(engine.filters) - (ids - todo) else engine.budget == 0
        decreases |todo|, ok
      {
        var id :| id in todo;
        ok := engine.Delete(id);
        todo := todo - {id};
      }
    }

    /** Only a missing destination, an ended context, the fence or a failing engine can refuse a permission. */
    method Authorize(generation: nat, destination: Option<string>, cancelled: bool, late: bool) returns (ok: bool)
      requires Valid()
      modifies this`attempts, engine
      ensures Valid()
      ensures destination.None? || cancelled ==> !ok && View() == old(View())
      ensures destination.Some? && !cancelled ==> AuthorizeStep(old(View()), View(), generation, destination.value, ok)
      ensures ok ==> destination.Some? && destination.value in Permissions(attempts, generation) && generation > retiredThrough
      ensures !ok ==> destination.None? || cancelled || late || !open || generation == 0 || generation <= retiredThrough || engine.budget == 0
    {
      if destination.None? || cancelled {
        return false;
      }
      if !open || generation == 0 || generation <= retiredThrough {
        return false;
      }
      var key, entries := destination.value, Permissions(attempts, generation);
      if key in entries {
        return true;
      }
      ghost var before := View();
      var id := engine.Add();
      if id.None? {
        return false;
      }
      attempts := attempts[generation := entries[key := id.value]];
      assert AddsPermission(before, View(), generation, key, id.value);
      RecordedAdd(before, View(), generation, key, id.value);
      // A context that ended meanwhile is reported, but the permission is recorded.
      ok := !late;
    }

    /** Permissions that exist are given up unless the guard is closed, the context ended or the engine fails. */
    method Retire(generation: nat, cancelled: bool) returns (ok: bool)
      requires Valid()
      modifies this`attempts, this`retiredThrough, engine
      ensures Valid()
      ensures RetireStep(old(View()), View(), generation, ok)
      ensures !ok ==> Permissions(attempts, generation) != map[] && (!open || cancelled || engine.budget == 0)
    {
      if generation > retiredThrough {
        retiredThrough := generation;
      }
      var entries := Permissions(attempts, generation);
      if entries == map[] {
        return true;
      }
      if !open || cancelled {
        return false;
      }
      ghost var before := View();
      ok := engine.Begin();
      if !ok {
        return;
      }
      ok := DeleteFilters(IdsOf(entries));
      if ok {
        ok := engine.Commit();
      }
      if !ok {
        engine.Abort();
        return;
      }
      attempts := attempts - {generation};
      RecordedRetire(before, View(), generation);
    }

    method UpdateBootstrap(newIdentity: string, servers: seq<bool>, cancelled: bool) returns (ok: bool)
      requires Valid()
      modifies this`identity, this`bootstrap, engine
      ensures Valid()
      ensures BootstrapStep(old(View()), View(), newIdentity, ok)
      ensures ok && newIdentity != old(identity) ==> |bootstrap| == 2 * |servers| && false !in servers && identity == newIdentity
      ensures !ok ==> cancelled || !open || false in servers || engine.budget == 0
    {
      if cancelled || !open {
        return false;
      }
      if newIdentity == identity {
        return true;
      }
      ghost var before := View();
      ok := engine.Begin();
      if !ok {
        return;
      }
      var replacement: set<nat> := {};
      ok := DeleteFilters(bootstrap);
      // Two filters per server, TCP and UDP; an address that cannot be a resolver fails the whole change.
      if ok {
        ok, replacement := AddFilters(2 * |servers|);
        ok := ok && false !in servers;
      }
      if ok {
        ok := engine.Commit();
      }
      if !ok {
        engine.Abort();
        return;
      }
      identity, bootstrap := newIdentity, replacement;
      RecordedBootstrap(before, View(), newIdentity);
    }

    /** The session is dynamic: closing it removes every filter at once. */
    method Close() returns (ok: bool)
      requires Valid()
      modifies this`open, engine
      ensures Valid() && attempts == old(attempts) && retiredThrough == old(retiredThrough)
      ensures ok ==> !open && engine.filters == if old(open) then {} else old(engine.filters)
      ensures !ok ==> View() == old(View()) && engine.budget == 0
    {
      if !open {
        return true;
      }
      ok := engine.Spend();
      if ok {
        engine.filters := {};
        open := false;
      }
    }
  }

  // ----------------------------------------------------------- bookkeeping

  lemma RecordedAdd(g: Guard, v: Guard, generation: nat, key: string, id: nat)
    requires Recorded(g) && g.open && key !in Permissions(g.attempts, generation) && AddsPermission(g, v, generation, key, id)
    ensures Recorded(v)
  {
    var entries := Permissions(g.attempts, generation);
    InsertedIds(entries, key, id);
    forall i
      ensures Permitted(v, i) <==> Permitted(g, i) || i == id
    {
      if Permitted(g, i) {
        var n :| n in g.attempts && i in IdsOf(g.attempts[n]);
        assert n in v.attempts && i in IdsOf(v.attempts[n]);
      }
      assert generation in v.attempts && id in IdsOf(v.attempts[generation]);
    }
    forall n | n in g.attempts
      ensures id !in IdsOf(g.attempts[n])
    {
      assert !Permitted(g, id);
    }
    assert forall n :: n in v.attempts && n != generation ==> v.attempts[n] == g.attempts[n];
    assert IdsOf(v.attempts[generation]) <= IdsOf(entries) + {id};
  }

  lemma InsertedIds(entries: map<string, nat>, key: string, id: nat)
    requires key !in entries
    ensures IdsOf(entries[key := id]) == IdsOf(entries) + {id}
  {
    var after := entries[key := id];
    assert after[key] == id;
    forall v | v in entries.Values
      ensures v in after.Values
    {
      var k :| k in entries && entries[k] == v;
      assert after[k] == v;
    }
  }

  lemma RecordedRetire(g: Guard, v: Guard, generation: nat)
    requires Recorded(g) && g.open && generation in g.attempts
    requires v == g.(filters := g.filters - IdsOf(g.attempts[generation]), attempts := g.attempts - {generation})
    ensures Recorded(v)
  {
    forall id
      ensures Permitted(v, id) <==> Permitted(g, id) && id !in IdsOf(g.attempts[generation])
    {
      if Permitted(g, id) && id !in IdsOf(g.attempts[generation]) {
        var n :| n in g.attempts && id in IdsOf(g.attempts[n]);
        assert n in v.attempts;
      }
    }
    var ids := IdsOf(g.attempts[generation]);
    assert ids !! g.base && ids !! g.bootstrap;
    forall id
      ensures id in v.filters <==> id in v.base || id in v.bootstrap || Permitted(v, id)
    {
      assert id in g.filters <==> id in g.base || id in g.bootstrap || Permitted(g, id);
    }
    assert forall n :: n in v.attempts ==> n in g.attempts && v.attempts[n] == g.attempts[n];
    assert v.base !! v.bootstrap;
    assert forall n :: n in v.attempts ==> IdsOf(v.attempts[n]) !! v.base && IdsOf(v.attempts[n]) !! v.bootstrap;
    assert forall n, m :: n in v.attempts && m in v.attempts && n != m ==> IdsOf(v.attempts[n]) !! IdsOf(v.attempts[m]);
  }

  predicate Permits(g: Guard, n: nat) { n in g.attempts && forall id :: id in IdsOf(g.attempts[n]) ==> Permitted(g, id) }

  lemma RecordedBootstrap(g: Guard, v: Guard, identity: string)
    requires Recorded(g) && g.open && g.identity != identity && BootstrapStep(g, v, identity, true)
    ensures Recorded(v)
  {
    assert forall id :: Permitted(v, id) <==> Permitted(g, id);
    forall n | n in g.attempts
      ensures IdsOf(g.attempts[n]) <= g.filters
    {
      assert Permits(g, n);
    }
  }

  // --------------------------------------------------------------- the fence

  datatype Call =
    | DoAuthorize(generation: nat, key: string, ok: bool)
    | DoRetire(generation: nat, ok: bool)
    | DoBootstrap(identity: string, ok: bool)
    | DoClose

  /** Any call of the guard, with whatever outcome the methods allow. */
  ghost predicate GuardStep(g: Guard, v: Guard, c: Call) {
    match c
    case DoAuthorize(n, key, ok) => AuthorizeStep(g, v, n, key, ok)
    case DoRetire(n, ok) => RetireStep(g, v, n, ok)
    case DoBootstrap(identity, ok) => BootstrapStep(g, v, identity, ok)
    case DoClose => v == g || v == g.(open := false, filters := {})
  }

  ghost predicate GuardRun(states: seq<Guard>, calls: seq<Call>) {
    |states| == |calls| + 1 && forall k :: 0 <= k < |calls| ==> GuardStep(states[k], states[k + 1], calls[k])
  }

  /** The engine permits something for this generation. */
  predicate Admits(g: Guard, generation: nat) {
    g.open && generation in g.attempts && g.attempts[generation] != map[]
  }

  lemma FenceHolds(g: Guard, v: Guard, c: Call, generation: nat)
    requires GuardStep(g, v, c) && Fenced(g, generation)
    ensures Fenced(v, generation)
    ensures c.DoAuthorize? && c.generation == generation ==> !c.ok
  {
  }

  lemma {:induction false} FencedFrom(states: seq<Guard>, calls: seq<Call>, i: nat, j: nat, generation: nat)
    requires GuardRun(states, calls) && i <= j <= |calls| && Fenced(states[i], generation)
    ensures Fenced(states[j], generation)
    decreases j - i
  {
    if i < j {
      assert GuardStep(states[i], states[i + 1], calls[i]);
      FenceHolds(states[i], states[i + 1], calls[i], generation);
      FencedFrom(states, calls, i + 1, j, generation);
    }
  }

  /**
   Once Retire(g) has succeeded, no later call ever authorizes g, and at no later
   point does the engine permit anything for g, whatever else is called in between.
   */
  lemma RetiredStaysOut(states: seq<Guard>, calls: seq<Call>, i: nat, j: nat, generation: nat)
    requires GuardRun(states, calls) && i < j < |calls| && calls[i] == DoRetire(generation, true)
    ensures !Admits(states[j], generation)
    ensures calls[j].DoAuthorize? && calls[j].generation == generation ==> !calls[j].ok && states[j + 1] == states[j]
  {
    assert GuardStep(states[i], states[i + 1], calls[i]);
    assert Fenced(states[i + 1], generation);
    FencedFrom(states, calls, i + 1, j, generation);
    assert GuardStep(states[j], states[j + 1], calls[j]);
    FenceHolds(states[j], states[j + 1], calls[j], generation);
  }

  // --------------------------------------------------- one attempt's permission

  /** SocketScope: the only way to the guard for the sockets of one attempt. */
  class SocketScope {
    const generation: nat
    const guarded: bool
    var cancelled: bool
    var closed: bool

    constructor (generation: nat, guarded: bool)
      ensures this.generation == generation && this.guarded == guarded && !cancelled && !closed
    {
      this.generation, this.guarded, cancelled, closed := generation, guarded, false, false;
    }

    /** A loopback peer needs no permission; every other one is authorized before the descriptor is protected. */
    method ProtectFD(guard: WindowsNetworkGuard, destination: Option<string>, loopback: bool, contextEnded: bool, late: bool, protects: bool)
      returns (ok: bool)
      requires guard.Valid()
      modifies guard`attempts, guard.engine
      ensures guard.Valid()
      ensures closed || cancelled || contextEnded ==> !ok && guard.View() == old(guard.View())
      ensures loopback || !guarded ==> guard.View() == old(guard.View())
      ensures ok && !loopback && guarded ==>
                destination.Some? && destination.value in Permissions(guard.attempts, generation) && generation > guard.retiredThrough
      ensures guard.View() == old(guard.View()) ||
              (destination.Some? && exists authorized ::
                 AuthorizeStep(old(guard.View()), guard.View(), generation, destination.value, authorized))
      ensures !ok && !closed && !cancelled && !contextEnded ==>
                && !loopback
                && (!protects || (guarded && (destination.None? || late || !guard.open || generation == 0 ||
                                              generation <= guard.retiredThrough || guard.engine.budget == 0)))
    {
      if closed || contextEnded || cancelled {
        return false;
      }
      if loopback {
        return true;
      }
      if guarded {
        ok := guard.Authorize(generation, destination, contextEnded, late);
        if !ok {
          return;
        }
      }
      ok := protects;
    }

    /** Cancelled at once; closed only when the guard gave the permissions back, so a failed Close can be repeated. */
    method Close(guard: WindowsNetworkGuard, contextEnded: bool) returns (ok: bool)
      requires guard.Valid()
      modifies this`cancelled, this`closed, guard`attempts, guard`retiredThrough, guard.engine
      ensures guard.Valid() && cancelled
      ensures ok == closed && (old(closed) ==> ok && guard.View() == old(guard.View()))
      ensures !old(closed) && guarded ==> RetireStep(old(guard.View()), guard.View(), generation, ok)
      ensures ok && !old(closed) && guarded ==> Fenced(guard.View(), generation)
      ensures !ok ==> guarded && Permissions(guard.attempts, generation) != map[] && (!guard.open || contextEnded || guard.engine.budget == 0)
    {
      cancelled := true;
      if closed {
        return true;
      }
      if guarded {
        ok := guard.Retire(generation, contextEnded);
        if !ok {
          return;
        }
      }
      closed, ok := true, true;
    }
  }
}
