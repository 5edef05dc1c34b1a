/** The life of HID devices in a history of messages: each hid id is opened, then receives
    inputs, then is closed. */
module HidBracketing {
  import opened BigEndian
  import opened Gamepads
  import opened Optional

  /** Whether the device of a hid id is open after a prefix of (OPEN INPUT* CLOSE)*; None if the
      messages for that id are anything else. `view` tells what a message means for its device. */
  ghost function Bracketing<T>(view: T -> Option<Request>, id: U16, log: seq<T>): Option<bool>
  {
    if log == [] then Some(false) else
      var (before, r) := (Bracketing(view, id, log[..|log| - 1]), view(log[|log| - 1]));
      if before == None || r == None || r.value.hidId != id then before else
        match r.value
        case Open(_) => if before.value then None else Some(true)
        case Input(_, _) => if before.value then Some(true) else None
        case Close(_) => if before.value then Some(false) else None
  }

  /** The effect of one more message at the end of a history and its queue. */
  lemma PushedBracketing<T>(view: T -> Option<Request>, id: U16, log: seq<T>, queue: seq<T>, m: T)
    ensures var (before, after) := (Bracketing(view, id, log + queue), Bracketing(view, id, log + (queue + [m])));
            if view(m) == None || view(m).value.hidId != id then after == before else
              match view(m).value
              case Open(_) => before == Some(false) ==> after == Some(true)
              case Input(_, _) => before == Some(true) ==> after == Some(true)
              case Close(_) => before == Some(true) ==> after == Some(false)
  {
    var all := log + (queue + [m]);
    assert all[..|all| - 1] == log + queue;
  }

  /** Moving the head of the queue to the log changes nothing. */
  lemma MovedBracketing<T>(view: T -> Option<Request>, id: U16, log: seq<T>, queue: seq<T>)
    requires queue != []
    ensures Bracketing(view, id, (log + [queue[0]]) + queue[1..]) == Bracketing(view, id, log + queue)
  {
    assert (log + [queue[0]]) + queue[1..] == log + queue;
  }

  lemma {:induction false} PrefixBracketing<T>(view: T -> Option<Request>, id: U16, log: seq<T>, n: nat)
    requires n <= |log| && Bracketing(view, id, log).Some?
    ensures Bracketing(view, id, log[..n]).Some?
    decreases |log|
  {
    if n < |log| {
      assert log[..|log| - 1][..n] == log[..n];
      PrefixBracketing(view, id, log[..|log| - 1], n);
    } else {
      assert log[..n] == log;
    }
  }

  /** A well-bracketed history with its queue is well-bracketed up to each message, which comes
      when its device is open, or closed for an open. */
  lemma NextInBracketing<T>(view: T -> Option<Request>, id: U16, log: seq<T>, queue: seq<T>)
    requires queue != [] && Bracketing(view, id, log + queue).Some?
    ensures Bracketing(view, id, log).Some?
    ensures view(queue[0]).Some? && view(queue[0]).value.hidId == id ==>
              Bracketing(view, id, log) == Some(!view(queue[0]).value.Open?)
              && Bracketing(view, id, log + [queue[0]]) == Some(!view(queue[0]).value.Close?)
    ensures !(view(queue[0]).Some? && view(queue[0]).value.hidId == id) ==>
              Bracketing(view, id, log + [queue[0]]) == Bracketing(view, id, log)
  {
    var next := log + [queue[0]];
    assert (log + queue)[..|log| + 1] == next;
    assert next[..|log|] == log;
    PrefixBracketing(view, id, log + queue, |log| + 1);
    PrefixBracketing(view, id, next, |log|);
  }
}
