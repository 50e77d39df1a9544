/**
 The router in front of the attempts: a dial captures the target, or sleeps on
 the channel it saw together with the absence of one.
 */
module SwitchingProxy {
  import opened Options

  /** A dial that has not decided yet, sleeps on the channel with this number, or has gone on. */
  datatype Dial = Looking | Sleeping(channel: nat) | Dialed(target: nat) | Refused

  /** Channels are numbered as they are made; `done` are those that have been closed, and closing one of them again panics. */
  datatype Router = Router(target: Option<nat>, changed: nat, done: set<nat>, closed: bool, dials: map<nat, Dial>, panicked: bool)

  const NewRouter := Router(None, 0, {}, false, map[], false)

  datatype Event = Set(target: Option<nat>) | Close | Arrive(d: nat) | Look(d: nat, cancelled: bool) | Wake(d: nat) | Cancel(d: nat)

  function CloseChannel(r: Router): Router { r.(done := r.done + {r.changed}, panicked := r.panicked || r.changed in r.done) }

  /** set: the old channel is closed and a new one replaces it. */
  function SetStep(r: Router, target: Option<nat>): Router {
    if r.closed then r else CloseChannel(r).(target := target, changed := r.changed + 1)
  }

  function CloseStep(r: Router): Router {
    if r.closed then r else CloseChannel(r).(closed := true, target := None)
  }

  /** One turn of the loop: target, channel and closed flag are read together. */
  function LookStep(r: Router, d: nat, cancelled: bool): Router {
    if d !in r.dials || r.dials[d] != Looking then r
    else
      var next := if r.closed || cancelled then Refused
                  else if r.target.Some? then Dialed(r.target.value) else Sleeping(r.changed);
      r.(dials := r.dials[d := next])
  }

  function Next(r: Router, e: Event): Router {
    match e
    case Set(target) => SetStep(r, target)
    case Close => CloseStep(r)
    case Arrive(d) => if d in r.dials then r else r.(dials := r.dials[d := Looking])
    case Look(d, cancelled) => LookStep(r, d, cancelled)
    case Wake(d) =>
      if d in r.dials && r.dials[d].Sleeping? && r.dials[d].channel in r.done then r.(dials := r.dials[d := Looking]) else r
    case Cancel(d) => if d in r.dials && r.dials[d].Sleeping? then r.(dials := r.dials[d := Refused]) else r
  }

  function Run(r: Router, events: seq<Event>): Router
    decreases |events|
  {
    if events == [] then r else Run(Next(r, events[0]), events[1..])
  }

  ghost predicate Inv(r: Router) {
    && !r.panicked
    && (r.closed ==> r.target == None)
    && (forall channel :: channel in r.done <==> 0 <= channel < r.changed || (r.closed && channel == r.changed))
    && (forall d :: d in r.dials && r.dials[d].Sleeping? ==>
          r.dials[d].channel <= r.changed && (r.dials[d].channel == r.changed && !r.closed ==> r.target == None))
  }

  lemma {:induction false} RunInv(r: Router, events: seq<Event>)
    requires Inv(r)
    ensures Inv(Run(r, events))
    decreases |events|
  {
    if events != [] {
      assert Inv(Next(r, events[0]));
      RunInv(Next(r, events[0]), events[1..]);
    }
  }

  /**
   No wake-up is lost: whenever there is a target to dial, or the router is
   closed, every sleeping dial can wake; and no channel is closed twice.
   */
  lemma NoLostWakeUp(events: seq<Event>, d: nat)
    ensures var r := Run(NewRouter, events);
      && !r.panicked
      && (d in r.dials && r.dials[d].Sleeping? && (r.target.Some? || r.closed) ==> Next(r, Wake(d)).dials[d] == Looking)
  {
    RunInv(NewRouter, events);
  }

  /**
   A dial that waits at the router when a target is installed goes to that target,
   whether it sleeps or is about to look, unless it is cancelled or the router closed.
   */
  lemma WaitingDialsGo(events: seq<Event>, d: nat, target: nat)
    ensures var r := Run(NewRouter, events);
      !r.closed && d in r.dials && (r.dials[d].Looking? || r.dials[d].Sleeping?) ==>
        var v := Next(Next(Next(r, Set(Some(target))), Wake(d)), Look(d, false));
        d in v.dials && v.dials[d] == Dialed(target) && v.target == Some(target)
  {
    RunInv(NewRouter, events);
    var r := Run(NewRouter, events);
    hide Run;
    if !r.closed && d in r.dials && (r.dials[d].Looking? || r.dials[d].Sleeping?) {
      var s := Next(r, Set(Some(target)));
      assert s.dials == r.dials && s.target == Some(target) && !s.closed;
      assert s.dials[d].Sleeping? ==> s.dials[d].channel in s.done;
    }
  }

  /** Without a target a dial waits; closing the router refuses it. */
  lemma DialsWithoutTarget(r: Router, d: nat)
    requires d in r.dials && r.dials[d].Looking? && r.target == None
    ensures Next(r, Look(d, false)).dials[d] == if r.closed then Refused else Sleeping(r.changed)
  {
  }

  class Switch {
    var target: Option<nat>
    var changed: nat
    var done: set<nat>
    var closed: bool

    /** No later channel has been closed, and the current one only with the router. */
    predicate Valid()
      reads this
    {
      (forall channel :: channel in done ==> channel <= changed) && (changed in done <==> closed)
    }

    /** The router without its dials. */
    function View(): Router
      reads this
    {
      Router(target, changed, done, closed, map[], false)
    }

    constructor ()
      ensures Valid() && View() == NewRouter
    {
      target, changed, done, closed := None, 0, {}, false;
    }

    method SetTarget(next: Option<nat>)
      requires Valid()
      modifies this
      ensures Valid() && View() == SetStep(old(View()), next)
    {
      if closed {
        return;
      }
      done := done + {changed};
      target, changed := next, changed + 1;
    }

    method CloseAll()
      requires Valid()
      modifies this
      ensures Valid() && View() == CloseStep(old(View()))
    {
      if closed {
        return;
      }
      done := done + {changed};
      closed, target := true, None;
    }
  }
}
