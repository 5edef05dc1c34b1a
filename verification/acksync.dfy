/** Waiting for clipboard acknowledgements (util/acksync.c). */
module AckSync {
  import opened AoaHid
  import opened BigEndian
  import opened Optional

  /** What a waiting thread finds each time it holds the mutex. */
  datatype View = View(stopped: bool, ack: U64, timedOut: bool)

  /** How a wait for `ack` ends in a state, None if it goes on. */
  function WaitEnd(v: View, ack: U64): (r: Option<WaitResult>)
    ensures r == Some(Interrupted) <==> v.stopped
    ensures r == Some(AckReceived) <==> !v.stopped && v.ack >= ack
    ensures r == Some(TimedOut) <==> !v.stopped && v.ack < ack && v.timedOut
  {
    if v.stopped then Some(Interrupted)
    else if v.ack >= ack then Some(AckReceived)
    else if v.timedOut then Some(TimedOut)
    else None
  }

  class Acksync {
    var stopped: bool
    var ack: U64

    constructor ()
      ensures !stopped && ack == SEQUENCE_INVALID
    {
      stopped, ack := false, SEQUENCE_INVALID;
    }

    /** Acknowledgements must be monotonic. */
    method Ack(sequence: U64)
      requires sequence >= ack
      modifies this`ack
      ensures ack == sequence
    {
      ack := sequence;
    }

    method Interrupt()
      modifies this`stopped
      ensures stopped
    {
      stopped := true;
    }

    ghost function Now(timedOut: bool): View
      reads this
    {
      View(stopped, ack, timedOut)
    }

    /** The wait ends in the first state where it may, the current one or that of a wake-up. */
    method Wait(sequence: U64, wakes: seq<View>) returns (r: WaitResult)
      requires wakes != [] && WaitEnd(wakes[|wakes| - 1], sequence).Some?
      modifies this
      ensures var views := [old(Now(false))] + wakes;
              exists i :: && 0 <= i < |views| && Some(r) == WaitEnd(views[i], sequence)
                          && Now(views[i].timedOut) == views[i]
                          && forall j :: 0 <= j < i ==> WaitEnd(views[j], sequence).None?
    {
      ghost var views := [Now(false)] + wakes;
      var timedOut := false;
      var i := 0;
      while !stopped && ack < sequence && !timedOut
        invariant i <= |wakes| && Now(timedOut) == views[i]
        invariant forall j :: 0 <= j < i ==> WaitEnd(views[j], sequence).None?
        decreases |wakes| - i
      {
        assert WaitEnd(views[i], sequence).None?;
        stopped, ack, timedOut := wakes[i].stopped, wakes[i].ack, wakes[i].timedOut;
        i := i + 1;
      }
      if stopped {
        r := Interrupted;
      } else if ack >= sequence {
        r := AckReceived;
      } else {
        r := TimedOut;
      }
      assert Some(r) == WaitEnd(views[i], sequence);
    }
  }
}
