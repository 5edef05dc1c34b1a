/** HID devices over USB (aoa_hid.c): a bounded queue of events, and the thread that registers,
    feeds and unregisters the devices. */
module AoaHid {
  import opened BigEndian
  import opened ControlMessages
  import opened Counting
  import opened Gamepads
  import opened HidBracketing
  import opened Machine
  import opened Optional

  const QUEUE_LIMIT := 60
  const SEQUENCE_INVALID := 0

  /** An input may have to wait for an acknowledgement; SEQUENCE_INVALID for none. */
  datatype HidEvent = HidEvent(request: Request, ackToWait: U64)

  /** The queue after a push, and whether the event was accepted. */
  function Push(queue: seq<HidEvent>, e: HidEvent): (r: (seq<HidEvent>, bool))
    ensures r.1 <==> |queue| < QUEUE_LIMIT || !e.request.Input?
    ensures r.0 == if r.1 then queue + [e] else queue
  {
    if e.request.Input? && |queue| >= QUEUE_LIMIT then (queue, false) else (queue + [e], true)
  }

  class Aoa {
    var queue: seq<HidEvent>
    /** The number of events the queue can hold without reallocation. */
    var capacity: nat
    var stopped: bool

    ghost predicate Valid()
      reads this
    {
      QUEUE_LIMIT + 4 <= capacity && |queue| <= capacity
    }

    constructor ()
      ensures Valid() && queue == [] && !stopped
    {
      queue, capacity, stopped := [], QUEUE_LIMIT + 4, false;
    }

    /** A push that may not reallocate: the queue must not be full. */
    method PushNoResize(e: HidEvent)
      requires Valid() && |queue| < capacity
      modifies this`queue
      ensures Valid() && queue == old(queue) + [e]
    {
      queue := queue + [e];
    }

    method PushInputWithAckToWait(request: Request, ackToWait: U64) returns (pushed: bool)
      requires Valid() && request.Input?
      modifies this`queue
      ensures Valid() && (queue, pushed) == Push(old(queue), HidEvent(request, ackToWait))
    {
      pushed := false;
      if |queue| < QUEUE_LIMIT {
        PushNoResize(HidEvent(request, ackToWait));
        pushed := true;
      }
    }

    /** sc_aoa_push_open and sc_aoa_push_close. */
    method PushNonDroppable(request: Request) returns (pushed: bool)
      requires Valid() && !request.Input?
      modifies this`queue, this`capacity
      ensures Valid() && (queue, pushed) == Push(old(queue), HidEvent(request, SEQUENCE_INVALID))
    {
      if |queue| == capacity {
        capacity := capacity + capacity / 2;
      }
      PushNoResize(HidEvent(request, SEQUENCE_INVALID));
      pushed := true;
    }

    /** The critical section of the AOA thread, once it no longer waits. */
    method Take() returns (e: Option<HidEvent>)
      requires Valid() && (stopped || queue != [])
      modifies this`queue
      ensures Valid()
      ensures if stopped then e == None && queue == old(queue)
              else e == Some(old(queue)[0]) && queue == old(queue)[1..]
    {
      if stopped {
        return None;
      }
      e := Some(queue[0]);
      queue := queue[1..];
    }

    method Stop()
      requires Valid()
      modifies this`stopped
      ensures Valid() && stopped
    {
      stopped := true;
    }
  }

  // ---- the thread

  datatype WaitResult = AckReceived | TimedOut | Interrupted

  /** What the USB transfers and the wait of one event return. Unregistering an id that is
      registered is taken to succeed. */
  datatype Outcome = Outcome(registers: bool, describes: bool, unregistersUnknown: bool, wait: WaitResult, sends: bool)

  /** The ids to unregister on exit, the ids registered on the device, the reports sent, and
      whether the thread continues. */
  datatype Thread = Thread(open: seq<U16>, registered: set<U16>, sent: seq<HidEvent>, running: bool)

  function RemoveFirst(ids: seq<U16>, id: U16): seq<U16>
  {
    if ids == [] then [] else if ids[0] == id then ids[1..] else [ids[0]] + RemoveFirst(ids[1..], id)
  }

  function Processed(t: Thread, e: HidEvent, outcome: Outcome): Thread
  {
    match e.request
    case Input(_, _) =>
      if e.ackToWait == SEQUENCE_INVALID || outcome.wait == AckReceived then
        t.(sent := if outcome.sends then t.sent + [e] else t.sent)
      else if outcome.wait == TimedOut then t
      else t.(running := false)
    case Open(id) =>
      if !outcome.registers then t
      else if !outcome.describes then t.(registered := t.registered - {id})
      else t.(registered := t.registered + {id}, open := t.open + [id])
    case Close(id) =>
      if id in t.registered || outcome.unregistersUnknown
      then t.(registered := t.registered - {id}, open := RemoveFirst(t.open, id))
      else t
  }

  class AoaThread {
    var open: seq<U16>
    var sent: seq<HidEvent>
    /** The ids registered on the device, on the other side of the transfers. */
    var registered: set<U16>

    constructor ()
      ensures Model(true) == Thread([], {}, [], true)
    {
      open, sent, registered := [], [], {};
    }

    ghost function Model(running: bool): Thread
      reads this
    {
      Thread(open, registered, sent, running)
    }

    method UnregisterHid(id: U16, unknownOk: bool) returns (ok: bool)
      modifies this`registered
      ensures ok == (id in old(registered) || unknownOk)
      ensures registered == old(registered) - {id}
    {
      ok := id in registered || unknownOk;
      registered := registered - {id};
    }

    method SetupHid(id: U16, outcome: Outcome) returns (ok: bool)
      modifies this`registered
      ensures ok == (outcome.registers && outcome.describes)
      ensures registered == if ok then old(registered) + {id}
                            else if outcome.registers then old(registered) - {id} else old(registered)
    {
      if !outcome.registers {
        return false;
      }
      registered := registered + {id};
      if !outcome.describes {
        var _ := UnregisterHid(id, outcome.unregistersUnknown);
        return false;
      }
      return true;
    }

    method IndexOf(id: U16) returns (index: int)
      ensures -1 <= index < |open|
      ensures index >= 0 ==> open[index] == id && id !in open[..index]
      ensures index == -1 ==> id !in open
    {
      for i := 0 to |open|
        invariant id !in open[..i]
      {
        if open[i] == id {
          return i;
        }
      }
      return -1;
    }

    method ProcessEvent(e: HidEvent, outcome: Outcome) returns (running: bool)
      modifies this
      ensures Model(running) == Processed(old(Model(true)), e, outcome)
    {
      match e.request {
        case Input(_, _) =>
          if e.ackToWait != SEQUENCE_INVALID {
            if outcome.wait == TimedOut {
              return true;
            } else if outcome.wait == Interrupted {
              return false;
            }
          }
          if outcome.sends {
            sent := sent + [e];
          }
        case Open(id) =>
          var ok := SetupHid(id, outcome);
          if ok {
            open := open + [id];
          }
        case Close(id) =>
          var ok := UnregisterHid(id, outcome.unregistersUnknown);
          if ok {
            var index := IndexOf(id);
            RemoveFirstAt(open, id, index);
            if index >= 0 {
              open := open[..index] + open[index + 1..];
            }
          }
      }
      return true;
    }

    /** The loop on exit. */
    method UnregisterAll()
      modifies this
      ensures forall id :: id in registered <==> id in old(registered) && id !in old(open)
      ensures open == []
    {
      for i := 0 to |open|
        invariant open == old(open)
        invariant forall id :: id in registered <==> id in old(registered) && id !in open[..i]
      {
        var _ := UnregisterHid(open[i], false);
      }
      open := [];
    }
  }

  lemma {:induction false} RemoveFirstAt(ids: seq<U16>, id: U16, index: int)
    requires -1 <= index < |ids|
    requires index >= 0 ==> ids[index] == id && id !in ids[..index]
    requires index == -1 ==> id !in ids
    ensures RemoveFirst(ids, id) == if index >= 0 then ids[..index] + ids[index + 1..] else ids
  {
    if ids != [] && ids[0] != id {
      if index > 0 {
        assert ids[..index] == [ids[0]] + ids[1..][..index - 1];
        RemoveFirstAt(ids[1..], id, index - 1);
      } else {
        RemoveFirstAt(ids[1..], id, -1);
      }
    }
  }

  // ---- the whole as a machine

  /** `others` are the open devices that are not gamepads; `done` the events processed. */
  datatype State = State(slots: Slots, others: set<U16>, queue: seq<HidEvent>, done: seq<HidEvent>,
                         thread: Thread, stopped: bool, exited: bool)

  datatype Action =
    | Gamepad(e: Event)
    | OpenOther(id: U16)
    | InputOther(id: U16, data: Report, ackToWait: U64)
    | Stop
    | Process(outcome: Outcome)
    | Exit

  ghost function Init(): State
  {
    State(seq(MAX_GAMEPADS, _ => FreshSlot(ID_INVALID)), {}, [], [], Thread([], {}, [], true), false, false)
  }

  function PushRequest(queue: seq<HidEvent>, r: Option<Request>): seq<HidEvent>
  {
    match r
    case None => queue
    case Some(request) => Push(queue, HidEvent(request, SEQUENCE_INVALID)).0
  }

  function Next(s: State, a: Action): Option<State>
  {
    match a
    case Gamepad(e) =>
      if !ValidId(e) then None else
        var (slots, r) := Handle(s.slots, e);
        Some(s.(slots := slots, queue := PushRequest(s.queue, r)))
    case OpenOther(id) =>
      if IsGamepadId(id) || id in s.others then None
      else Some(s.(others := s.others + {id}, queue := PushRequest(s.queue, Some(Request.Open(id)))))
    case InputOther(id, data, ackToWait) =>
      if IsGamepadId(id) || id !in s.others then None
      else Some(s.(queue := Push(s.queue, HidEvent(Request.Input(id, data), ackToWait)).0))
    case Stop => Some(s.(stopped := true))
    case Process(outcome) =>
      if s.exited || s.stopped || !s.thread.running || s.queue == [] then None
      else Some(s.(queue := s.queue[1..], done := s.done + [s.queue[0]],
                   thread := Processed(s.thread, s.queue[0], outcome)))
    case Exit =>
      if s.exited || !(s.stopped || !s.thread.running) then None
      else Some(s.(exited := true,
                   thread := s.thread.(open := [],
                                       registered := set id | id in s.thread.registered && id !in s.thread.open)))
  }

  ghost function Step(): (State, Action) -> Option<State> { (s, a) => Next(s, a) }

  function RequestOf(e: HidEvent): Option<Request> { Some(e.request) }

  predicate IsOpen(s: State, id: U16)
  {
    if IsGamepadId(id) then InUse(s.slots[id - HID_ID_FIRST]) else id in s.others
  }

  predicate NoDuplicates(ids: seq<U16>)
  {
    forall i, j :: 0 <= i < j < |ids| ==> ids[i] != ids[j]
  }

  ghost predicate ThreadInv(t: Thread, done: seq<HidEvent>)
  {
    && NoDuplicates(t.open)
    && (forall id :: id in t.open <==> id in t.registered)
    && (forall id :: id in t.registered ==> Bracketing(RequestOf, id, done) == Some(true))
  }

  ghost predicate Bracketed(s: State)
  {
    forall id: U16 :: Bracketing(RequestOf, id, s.done + s.queue) == Some(IsOpen(s, id))
  }

  predicate IsInput(e: HidEvent) { e.request.Input? }

  /** Inputs are never queued beyond the limit. */
  predicate Limited(queue: seq<HidEvent>)
  {
    forall i :: QUEUE_LIMIT <= i < |queue| ==> !IsInput(queue[i])
  }

  ghost predicate Inv(s: State)
  {
    Limited(s.queue) && Bracketed(s) && if s.exited then s.thread.registered == {} else ThreadInv(s.thread, s.done)
  }

  lemma {:induction false} RemovedFirst(ids: seq<U16>, id: U16)
    requires NoDuplicates(ids)
    ensures NoDuplicates(RemoveFirst(ids, id))
    ensures forall x :: x in RemoveFirst(ids, id) <==> x in ids && x != id
  {
    if ids != [] {
      assert ids == [ids[0]] + ids[1..];
      assert ids[0] !in ids[1..];
      RemovedFirst(ids[1..], id);
    }
  }

  /** The slots and the other devices change as the history of their messages does. */
  lemma PushKeeps(s: State, t: State, e: HidEvent)
    requires Bracketed(s) && t.done == s.done && t.queue == Push(s.queue, e).0
    requires forall id: U16 :: id != e.request.hidId ==> IsOpen(t, id) == IsOpen(s, id)
    requires var id := e.request.hidId;
             match e.request
             case Open(_) => !IsOpen(s, id) && IsOpen(t, id)
             case Close(_) => IsOpen(s, id) && !IsOpen(t, id)
             case Input(_, _) => IsOpen(s, id) && IsOpen(t, id)
    ensures Bracketed(t)
  {
    forall id: U16
      ensures Bracketing(RequestOf, id, t.done + t.queue) == Some(IsOpen(t, id))
    {
      PushedBracketing(RequestOf, id, s.done, s.queue, e);
    }
  }

  lemma GamepadKeeps(s: State, e: Event)
    requires Bracketed(s) && ValidId(e)
    ensures Bracketed(Next(s, Gamepad(e)).value)
  {
    HandleMeaning(s.slots, e);
    var (slots, r) := Handle(s.slots, e);
    var t := Next(s, Gamepad(e)).value;
    if r.Some? {
      var i := r.value.hidId - HID_ID_FIRST;
      assert forall j :: 0 <= j < MAX_GAMEPADS && j != i ==> slots[j] == s.slots[j];
      assert t.queue == Push(s.queue, HidEvent(r.value, SEQUENCE_INVALID)).0;
      PushKeeps(s, t, HidEvent(r.value, SEQUENCE_INVALID));
    }
  }

  lemma OtherKeeps(s: State, a: Action)
    requires Bracketed(s) && (a.OpenOther? || a.InputOther?) && Next(s, a).Some?
    ensures Bracketed(Next(s, a).value)
  {
    var request := if a.OpenOther? then Request.Open(a.id) else Request.Input(a.id, a.data);
    PushKeeps(s, Next(s, a).value, HidEvent(request, if a.OpenOther? then SEQUENCE_INVALID else a.ackToWait));
  }

  lemma TakeKeeps(s: State, outcome: Outcome)
    requires Bracketed(s) && Next(s, Process(outcome)).Some?
    ensures Bracketed(Next(s, Process(outcome)).value)
  {
    forall id: U16
      ensures Bracketing(RequestOf, id, (s.done + [s.queue[0]]) + s.queue[1..]) == Some(IsOpen(s, id))
    {
      MovedBracketing(RequestOf, id, s.done, s.queue);
    }
  }

  ghost predicate SameIds(t: Thread)
  {
    NoDuplicates(t.open) && forall id :: id in t.open <==> id in t.registered
  }

  lemma OpenedIds(t: Thread, id: U16)
    requires SameIds(t) && id !in t.registered
    ensures SameIds(t.(registered := t.registered + {id}, open := t.open + [id]))
  {
  }

  lemma ClosedIds(t: Thread, id: U16)
    requires SameIds(t)
    ensures SameIds(t.(registered := t.registered - {id}, open := RemoveFirst(t.open, id)))
  {
    RemovedFirst(t.open, id);
  }

  lemma IdsKept(t: Thread, e: HidEvent, outcome: Outcome)
    requires SameIds(t) && (e.request.Open? ==> e.request.hidId !in t.registered)
    ensures var u := Processed(t, e, outcome);
            && SameIds(u)
            && (forall id :: id in u.registered && id != e.request.hidId ==> id in t.registered)
            && (e.request.hidId in u.registered ==> e.request.Open? || (e.request.Input? && e.request.hidId in t.registered))
  {
    match e.request
    case Open(id) =>
      OpenedIds(t, id);
      assert t.registered - {id} == t.registered;
    case Close(id) => ClosedIds(t, id);
    case Input(_, _) =>
  }

  /** The ids registered, after an event that comes in a well-bracketed history. */
  lemma ProcessKeeps(s: State, outcome: Outcome)
    requires Bracketed(s) && s.queue != [] && ThreadInv(s.thread, s.done)
    ensures ThreadInv(Processed(s.thread, s.queue[0], outcome), s.done + [s.queue[0]])
  {
    var (e, t) := (s.queue[0], Processed(s.thread, s.queue[0], outcome));
    NextInBracketing(RequestOf, e.request.hidId, s.done, s.queue);
    IdsKept(s.thread, e, outcome);
    forall id | id in t.registered
      ensures Bracketing(RequestOf, id, s.done + [e]) == Some(true)
    {
      NextInBracketing(RequestOf, id, s.done, s.queue);
    }
  }

  lemma NextKeeps(s: State, a: Action)
    requires Inv(s) && Next(s, a).Some?
    ensures Inv(Next(s, a).value)
  {
    match a
    case Gamepad(e) => GamepadKeeps(s, e);
    case OpenOther(_) | InputOther(_, _, _) => OtherKeeps(s, a);
    case Process(outcome) =>
      TakeKeeps(s, outcome);
      ProcessKeeps(s, outcome);
    case Stop | Exit =>
  }

  ghost predicate Reachable(s: State)
  {
    Reaches(Init(), Step(), s)
  }

  lemma ReachableInv(s: State)
    requires Reachable(s)
    ensures Inv(s)
  {
    forall s, a | Inv(s) && Step()(s, a).Some?
      ensures Inv(Step()(s, a).value)
    {
      NextKeeps(s, a);
    }
    Invariant(Init(), Step(), (s: State) => Inv(s), s);
  }

  // ---- the main results, over every run, whatever registrations fail

  /** While the thread runs, its list holds exactly the ids registered on the device, once each. */
  lemma OpenIsRegistered(s: State)
    requires Reachable(s)
    ensures !s.exited ==>
              && NoDuplicates(s.thread.open)
              && forall id :: id in s.thread.open <==> id in s.thread.registered
  {
    ReachableInv(s);
  }

  /** The thread exits, once stopped or interrupted, with no device registered. */
  lemma ExitsClean(s: State)
    requires Reachable(s)
    ensures s.exited ==> s.thread.registered == {}
    ensures !s.exited && (s.stopped || !s.thread.running) ==>
              var t := Next(s, Exit); t.Some? && t.value.exited && t.value.thread.registered == {}
  {
    ReachableInv(s);
    if Next(s, Exit).Some? {
      NextKeeps(s, Exit);
    }
  }

  /** After a stop no event is processed any more. */
  lemma StopsProcessing(s: State, first: State, t: State)
    requires Next(s, Stop) == Some(first) && Reaches(first, Step(), t)
    ensures t.done == s.done && t.thread.sent == s.thread.sent
  {
    Invariant(first, Step(), (t: State) => t.stopped && t.done == s.done && t.thread.sent == s.thread.sent, t);
  }

  /** At most QUEUE_LIMIT inputs are ever queued. */
  lemma InputsLimited(s: State)
    requires Reachable(s)
    ensures Count(IsInput, s.queue) <= QUEUE_LIMIT
  {
    ReachableInv(s);
    CountBound(IsInput, s.queue, QUEUE_LIMIT);
  }

  /** Events are processed for each id as a prefix of (OPEN INPUT* CLOSE)*. */
  lemma ProcessedInOrder(s: State, id: U16)
    requires Reachable(s)
    ensures Bracketing(RequestOf, id, s.done).Some?
  {
    ReachableInv(s);
    PrefixBracketing(RequestOf, id, s.done + s.queue, |s.done|);
    assert (s.done + s.queue)[..|s.done|] == s.done;
  }
}
