/**
 What every owner of sockets promises, whatever it is made of: once sealed it
 admits no dial, a dial admitted before may still obtain a socket, and success
 is reported only when no admitted dial and no open socket is left.
 */
module DrainedOwner {
  /** `inflight` are the dials admitted and not ended, `live` the sockets obtained and not closed. */
  datatype Owner = Owner(sealed: bool, inflight: set<nat>, live: set<nat>, reported: bool)

  const Fresh := Owner(false, {}, {}, false)

  /** `Accept` admits a dial that brings its socket along. */
  datatype Action =
    | Admit(dial: nat)
    | Accept(dial: nat, socket: nat)
    | Obtain(dial: nat, socket: nat)
    | CloseSocket(socket: nat)
    | End(dial: nat)
    | Seal
    | Report
    | Skip

  predicate Enabled(o: Owner, a: Action) {
    match a
    case Admit(d) => !o.sealed && d !in o.inflight
    case Accept(d, s) => !o.sealed && d !in o.inflight && s !in o.live
    case Obtain(d, s) => d in o.inflight && s !in o.live
    case CloseSocket(s) => s in o.live
    case End(d) => d in o.inflight
    case Seal => true
    case Report => o.sealed && o.inflight == {} && o.live == {}
    case Skip => true
  }

  function Apply(o: Owner, a: Action): Owner {
    match a
    case Admit(d) => o.(inflight := o.inflight + {d})
    case Accept(d, s) => o.(inflight := o.inflight + {d}, live := o.live + {s})
    case Obtain(d, s) => o.(live := o.live + {s})
    case CloseSocket(s) => o.(live := o.live - {s})
    case End(d) => o.(inflight := o.inflight - {d})
    case Seal => o.(sealed := true)
    case Report => o.(reported := true)
    case Skip => o
  }

  predicate Does(o: Owner, v: Owner, a: Action) { Enabled(o, a) && v == Apply(o, a) }

  predicate Drained(o: Owner) { o.sealed && o.inflight == {} && o.live == {} }

  /** Drained is final, sealing is final, and after sealing no new dial is in flight. */
  lemma DrainedStays(o: Owner, v: Owner, a: Action)
    requires Does(o, v, a)
    ensures Drained(o) ==> Drained(v)
    ensures o.sealed ==> v.sealed && v.inflight <= o.inflight
  {
  }

  predicate Allowed(o: Owner, actions: seq<Action>)
    decreases |actions|
  {
    actions == [] || (Enabled(o, actions[0]) && Allowed(Apply(o, actions[0]), actions[1..]))
  }

  function ApplyAll(o: Owner, actions: seq<Action>): Owner
    decreases |actions|
  {
    if actions == [] then o else ApplyAll(Apply(o, actions[0]), actions[1..])
  }

  /** Success, once reported, is true ever after. */
  lemma {:induction false} ReportsStayTrue(o: Owner, actions: seq<Action>)
    requires Allowed(o, actions) && (o.reported ==> Drained(o))
    ensures ApplyAll(o, actions).reported ==> Drained(ApplyAll(o, actions))
    decreases |actions|
  {
    if actions != [] {
      ReportsStayTrue(Apply(o, actions[0]), actions[1..]);
    }
  }
}
