/**
 flowOwner: the sockets and pending dials of one attempt generation. Each
 function is one critical section of its mutex; the class at the end is the
 object with these methods.
 */
module FlowOwner {

  /** A channel that is only ever closed. */
  datatype Chan = NoChan | OpenChan | ClosedChan

  /** A connection is named by the dial that obtained it; the value tells whether its last close failed. */
  datatype Owner = Owner(closed: bool, connections: map<nat, bool>, pending: int, settled: Chan, retired: Chan)

  const NewOwner := Owner(false, map[], 0, NoChan, NoChan)

  /** Closing a nil or closed channel panics; so does waiting for fewer than no dials to mean anything. */
  datatype Result = Result(o: Owner, ok: bool, panics: bool)

  function BeginDial(o: Owner): Result {
    if o.closed then Result(o, false, false)
    else Result(o.(pending := o.pending + 1, settled := if o.pending == 0 then OpenChan else o.settled), true, false)
  }

  function EndDial(o: Owner): Result {
    var left := o.pending - 1;
    if left == 0 then Result(o.(pending := left, settled := ClosedChan), true, o.settled != OpenChan)
    else Result(o.(pending := left), true, false)
  }

  function Track(o: Owner, c: nat): Result {
    if o.closed then Result(o, false, false) else Result(o.(connections := o.connections[c := false]), true, false)
  }

  function Release(o: Owner, c: nat, failed: bool): Owner {
    o.(connections := if failed then o.connections[c := true] else o.connections - {c})
  }

  /** The critical section of sealAndClose; the caller then closes every connection it found. */
  function Seal(o: Owner): Result {
    Result(o.(closed := true, retired := if !o.closed && o.retired != NoChan then ClosedChan else o.retired),
           true, !o.closed && o.retired == ClosedChan)
  }

  /** done: the channel that tells a waiting dispatch that the generation is sealed. */
  function Done(o: Owner): Result {
    Result(if o.retired == NoChan then o.(retired := if o.closed then ClosedChan else OpenChan) else o, true, false)
  }

  class Flows {
    var closed: bool
    var connections: map<nat, bool>
    var pending: int
    var settled: Chan
    var retired: Chan

    function View(): Owner
      reads this
    {
      Owner(closed, connections, pending, settled, retired)
    }

    constructor ()
      ensures View() == NewOwner
    {
      closed, connections, pending, settled, retired := false, map[], 0, NoChan, NoChan;
    }

    method MakeDone()
      modifies this`retired
      ensures View() == Done(old(View())).o
      ensures closed ==> retired == if old(retired) == NoChan then ClosedChan else old(retired)
    {
      if retired == NoChan {
        retired := OpenChan;
        if closed {
          retired := ClosedChan;
        }
      }
    }

    method Begin() returns (ok: bool)
      modifies this`pending, this`settled
      ensures View() == BeginDial(old(View())).o && ok == BeginDial(old(View())).ok
    {
      if closed {
        return false;
      }
      if pending == 0 {
        settled := OpenChan;
      }
      pending := pending + 1;
      ok := true;
    }

    method End()
      requires pending == 1 ==> settled == OpenChan
      modifies this`pending, this`settled
      ensures View() == EndDial(old(View())).o && !EndDial(old(View())).panics
    {
      pending := pending - 1;
      if pending == 0 {
        settled := ClosedChan;
      }
    }

    method TrackConnection(c: nat) returns (ok: bool)
      modifies this`connections
      ensures View() == Track(old(View()), c).o && ok == Track(old(View()), c).ok
    {
      if closed {
        return false;
      }
      connections := connections[c := false];
      ok := true;
    }

    method ReleaseConnection(c: nat, failed: bool)
      modifies this`connections
      ensures View() == Release(old(View()), c, failed)
    {
      if failed {
        connections := connections[c := true];
      } else {
        connections := connections - {c};
      }
    }

    method SealOwner() returns (open: set<nat>)
      requires !closed ==> retired != ClosedChan
      modifies this`closed, this`retired
      ensures View() == Seal(old(View())).o && !Seal(old(View())).panics && open == connections.Keys
    {
      if !closed {
        closed := true;
        if retired != NoChan {
          retired := ClosedChan;
        }
      }
      open := connections.Keys;
    }
  }
}
