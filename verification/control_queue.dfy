/** The bounded queue between the user interface and the thread that writes to the control
    socket (controller.c). */
module ControlQueue {
  import opened ControlMessages
  import opened Optional

  const QUEUE_LIMIT := 60

  /** The queue after a push, and whether the message was accepted. */
  function Push(queue: seq<Message>, m: Message): (r: (seq<Message>, bool))
    ensures r.1 <==> |queue| < QUEUE_LIMIT || m.UhidCreate? || m.UhidDestroy?
    ensures r.0 == if r.1 then queue + [m] else queue
  {
    if |queue| < QUEUE_LIMIT then (queue + [m], true)
    else if !IsDroppable(m) then (queue + [m], true)
    else (queue, false)
  }

  class Controller {
    var queue: seq<Message>
    /** The number of messages the queue can hold without reallocation. */
    var capacity: nat
    var stopped: bool

    ghost predicate Valid()
      reads this
    {
      QUEUE_LIMIT + 4 <= capacity && |queue| <= capacity
    }

    constructor ()
      ensures Valid() && queue == [] && !stopped
    {
      queue, capacity, stopped := [], QUEUE_LIMIT + 4, false;
    }

    /** A push that may not reallocate: the queue must not be full. */
    method PushNoResize(m: Message)
      requires Valid() && |queue| < capacity
      modifies this`queue
      ensures Valid() && queue == old(queue) + [m]
    {
      queue := queue + [m];
    }

    method PushMsg(m: Message) returns (pushed: bool)
      requires Valid()
      modifies this`queue, this`capacity
      ensures Valid() && (queue, pushed) == Push(old(queue), m)
      ensures capacity == old(capacity) || |old(queue)| == old(capacity)
    {
      pushed := false;
      var size := |queue|;
      if size < QUEUE_LIMIT {
        PushNoResize(m);
        pushed := true;
      } else if !IsDroppable(m) {
        if size == capacity {
          capacity := capacity + capacity / 2;
        }
        PushNoResize(m);
        pushed := true;
      }
    }

    /** The critical section of the controller thread, once it no longer waits: after a stop,
        no further message is processed. */
    method Take() returns (m: Option<Message>)
      requires Valid() && (stopped || queue != [])
      modifies this`queue
      ensures Valid()
      ensures if stopped then m == None && queue == old(queue)
              else m == Some(old(queue)[0]) && queue == old(queue)[1..]
    {
      if stopped {
        return None;
      }
      m := Some(queue[0]);
      queue := queue[1..];
    }

    method Stop()
      requires Valid()
      modifies this`stopped
      ensures Valid() && stopped
    {
      stopped := true;
    }
  }
}
