/** Pasting with a HID keyboard: the clipboard goes to the device over the control socket, the
    Ctrl+v report over USB. The report waits for the acknowledgement of its clipboard
    (input_manager.c, controller.c, receiver.c, util/acksync.c, usb/aoa_hid.c).
    The device is only assumed to receive in order, to apply a clipboard before it acknowledges
    it, and to acknowledge in order. */
module PasteProtocol {
  import opened AckSync
  import opened AoaHid
  import opened BigEndian
  import ControlQueue
  import opened ControlMessages
  import opened Gamepads
  import opened Machine
  import opened Optional
  import opened SequenceFacts

  /** The control channel, in both directions, and the acknowledgements. The histories are the
      messages applied by the device and the acknowledgements received. */
  datatype Control = Control(
    nextSequence: U64, messages: seq<Message>, socket: seq<Message>, owed: seq<U64>, acks: seq<U64>,
    ack: U64, stopped: bool, assertFailed: bool,
    applied: seq<Message>, acked: seq<U64>)

  /** The USB channel. The histories are the reports pushed, processed (sent or not) and sent. */
  datatype Usb = Usb(
    events: seq<HidEvent>, current: Option<HidEvent>, stopped: bool, ended: bool,
    pushed: seq<HidEvent>, done: seq<Processed>, sent: seq<HidEvent>)

  /** How the processing of an event ended, and what the thread then saw. */
  datatype Processed = Processed(e: HidEvent, seen: View, end: End)
  datatype End = Sent | TransferFailed | Discarded

  /** The main thread, between two events, or before it pushes the report of a key; `pasted` is the
      clipboard text if the key is that of a paste. */
  datatype MainPc = Idle | PushKey(ackToWait: U64, pasted: Option<Text>)

  /** The report pushed for a paste, and the text to be pasted. */
  datatype PasteReport = PasteReport(e: HidEvent, text: Text)

  /** The history is the reports pushed for pastes. */
  datatype State = State(main: MainPc, control: Control, usb: Usb, pastes: seq<PasteReport>)

  datatype Action =
    | Paste(text: Text)
    | Key
    | PushReport(report: Request)
    /** The state of the lock keys, pushed before the report of the same key. */
    | PushLockState(report: Request)
    | AbandonKey
    | OtherMessage(m: Message)
    | SendMessage
    | Apply
    | Acknowledge
    | Receive
    | TakeReport
    | FinishReport(timedOut: bool, transferred: bool)
    | StopAoa
    | Interrupt

  ghost function Init(): State
  {
    State.State(Idle, Control(1, [], [], [], [], SEQUENCE_INVALID, false, false, [], []),
          Usb([], None, false, false, [], [], []), [])
  }

  // ---- the steps of the control channel

  /** The clipboard is pushed with the next sequence; it is only consumed if the push succeeds. */
  function PushClipboard(c: Control, text: Text): Option<Control>
  {
    var (messages, ok) := ControlQueue.Push(c.messages, SetClipboard(c.nextSequence, false, text));
    if ok && c.nextSequence < 0xFFFF_FFFF_FFFF_FFFF
    then Some(c.(messages := messages, nextSequence := c.nextSequence + 1)) else None
  }

  function PushOther(c: Control, m: Message): Control
  {
    c.(messages := ControlQueue.Push(c.messages, m).0)
  }

  function Sending(c: Control): Option<Control>
  {
    if c.messages == [] then None
    else Some(c.(messages := c.messages[1..], socket := c.socket + [c.messages[0]]))
  }

  function Applying(c: Control): Option<Control>
  {
    if c.socket == [] then None else
      var m := c.socket[0];
      Some(c.(socket := c.socket[1..], applied := c.applied + [m], owed := c.owed + SequenceOf(m)))
  }

  function Acknowledging(c: Control): Option<Control>
  {
    if c.owed == [] then None else Some(c.(owed := c.owed[1..], acks := c.acks + [c.owed[0]]))
  }

  function Receiving(c: Control): Option<Control>
  {
    if c.acks == [] then None else
      Some(c.(acks := c.acks[1..], acked := c.acked + [c.acks[0]], ack := c.acks[0],
              assertFailed := c.assertFailed || c.acks[0] < c.ack))
  }

  // ---- the steps of the USB channel

  function PushEvent(u: Usb, e: HidEvent): Usb
  {
    var (events, ok) := AoaHid.Push(u.events, e);
    u.(events := events, pushed := if ok then u.pushed + [e] else u.pushed)
  }

  function Taking(u: Usb): Option<Usb>
  {
    if u.ended || u.current.Some? || u.stopped || u.events == [] then None
    else Some(u.(events := u.events[1..], current := Some(u.events[0])))
  }

  /** Whether the event in hand is sent, and whether the thread goes on; None if it waits. */
  function Outcome(seen: View, e: HidEvent): Option<(bool, bool)>
  {
    if e.ackToWait == SEQUENCE_INVALID then Some((true, true)) else
      match WaitEnd(seen, e.ackToWait)
      case None => None
      case Some(AckReceived) => Some((true, true))
      case Some(TimedOut) => Some((false, true))
      case Some(Interrupted) => Some((false, false))
  }

  function Finishing(u: Usb, seen: View, send: bool, transferred: bool, continues: bool): Usb
    requires u.current.Some?
  {
    var e := u.current.value;
    var end := if !send then Discarded else if transferred then Sent else TransferFailed;
    u.(current := None, ended := !continues, done := u.done + [Processed(e, seen, end)],
       sent := if end == Sent then u.sent + [e] else u.sent)
  }

  /** The protocol agrees with the thread of module AoaHid, in which the wait is an outcome: the same
      reports are sent, and the thread goes on or not. */
  lemma AgreesWithThread(u: Usb, seen: View, t: Thread, outcome: AoaHid.Outcome)
    requires u.current.Some? && u.current.value.request.Input? && t.running && t.sent == u.sent && !u.ended
    requires u.current.value.ackToWait != SEQUENCE_INVALID ==>
               WaitEnd(seen, u.current.value.ackToWait) == Some(outcome.wait)
    ensures Outcome(seen, u.current.value).Some?
    ensures var (send, continues) := Outcome(seen, u.current.value).value;
            var after := Finishing(u, seen, send, outcome.sends, continues);
            var thread := AoaHid.Processed(t, u.current.value, outcome);
            thread.sent == after.sent && thread.running == !after.ended
  {
  }

  // ---- the whole

  function WithControl(s: State, c: Option<Control>): Option<State>
  {
    match c case None => None case Some(control) => Some(s.(control := control))
  }

  function Pasted(main: MainPc, e: HidEvent): seq<PasteReport>
    requires main.PushKey?
  {
    if main.pasted.Some? then [PasteReport(e, main.pasted.value)] else []
  }

  function Next(s: State, a: Action): Option<State>
  {
    match a
    case Paste(text) =>
      if s.main != Idle then None else
        (match PushClipboard(s.control, text)
         case None => Some(s)  // refused: Ctrl+v is not injected
         case Some(control) => Some(s.(control := control, main := PushKey(s.control.nextSequence, Some(text)))))
    case Key => if s.main != Idle then None else Some(s.(main := PushKey(SEQUENCE_INVALID, None)))
    case PushReport(report) =>
      if !s.main.PushKey? || !report.Input? then None
      else
        var e := HidEvent(report, s.main.ackToWait);
        Some(s.(main := Idle, usb := PushEvent(s.usb, e), pastes := s.pastes + Pasted(s.main, e)))
    case PushLockState(report) =>
      if !s.main.PushKey? || !report.Input? then None
      else Some(s.(usb := PushEvent(s.usb, HidEvent(report, SEQUENCE_INVALID))))
    case AbandonKey => if s.main.PushKey? then Some(s.(main := Idle)) else None  // the key is unknown
    case OtherMessage(m) =>
      if m.SetClipboard? && m.sequence != SEQUENCE_INVALID then None
      else Some(s.(control := PushOther(s.control, m)))
    case SendMessage => WithControl(s, Sending(s.control))
    case Apply => WithControl(s, Applying(s.control))
    case Acknowledge => WithControl(s, Acknowledging(s.control))
    case Receive => WithControl(s, Receiving(s.control))
    case TakeReport =>
      (match Taking(s.usb) case None => None case Some(usb) => Some(s.(usb := usb)))
    case FinishReport(timedOut, transferred) =>
      if s.usb.current.None? then None else
        var seen := View(s.control.stopped, s.control.ack, timedOut);
        (match Outcome(seen, s.usb.current.value)
         case None => None
         case Some((send, continues)) => Some(s.(usb := Finishing(s.usb, seen, send, transferred, continues))))
    case StopAoa => Some(s.(usb := s.usb.(stopped := true)))
    case Interrupt => if s.usb.stopped then Some(s.(control := s.control.(stopped := true))) else None
  }

  ghost function Step(): (State, Action) -> Option<State> { (s, a) => Next(s, a) }

  /** The sequence of a clipboard that asks for an acknowledgement. */
  function SequenceOf(m: Message): seq<U64>
  {
    if m.SetClipboard? && m.sequence != SEQUENCE_INVALID then [m.sequence] else []
  }

  function Sequences(messages: seq<Message>): seq<U64>
  {
    if messages == [] then [] else
      Sequences(messages[..|messages| - 1]) + SequenceOf(messages[|messages| - 1])
  }

  function Numbers(count: nat): (r: seq<nat>)
    ensures |r| == count && forall i :: 0 <= i < count ==> r[i] == i + 1
  {
    seq(count, i requires 0 <= i => i + 1)
  }

  /** The events sent, in order. */
  function Kept(done: seq<Processed>): seq<HidEvent>
  {
    if done == [] then [] else
      var (before, last) := (Kept(done[..|done| - 1]), done[|done| - 1]);
      if last.end == Sent then before + [last.e] else before
  }

  function Events(done: seq<Processed>): seq<HidEvent>
  {
    if done == [] then [] else Events(done[..|done| - 1]) + [done[|done| - 1].e]
  }

  /** A discarded event waits, and its wait was interrupted, or timed out without acknowledgement. */
  predicate DiscardedRightly(d: Processed)
  {
    d.end == Discarded <==>
      d.e.ackToWait != SEQUENCE_INVALID && (d.seen.stopped || (d.seen.ack < d.e.ackToWait && d.seen.timedOut))
  }

  function InHand(current: Option<HidEvent>): seq<HidEvent>
  {
    if current.Some? then [current.value] else []
  }

  /** The sequences the device has applied. */
  function Applied(c: Control): seq<U64> { c.acked + c.acks + c.owed }

  /** Every issued sequence is, in order, acknowledged, applied, sent or queued. */
  ghost predicate ControlInv(c: Control)
  {
    && 1 <= c.nextSequence && c.ack == |c.acked| && !c.assertFailed
    && Applied(c) == Sequences(c.applied)
    && Issued(c) == Numbers(c.nextSequence - 1)
  }

  function Issued(c: Control): seq<U64> { Applied(c) + Sequences(c.socket) + Sequences(c.messages) }

  ghost predicate UsbInv(u: Usb)
  {
    && u.pushed == Events(u.done) + InHand(u.current) + u.events
    && u.sent == Kept(u.done)
    && forall i :: 0 <= i < |u.done| ==> DiscardedRightly(u.done[i])
  }

  /** The reports pushed wait for an issued sequence, and those sent for an applied one. */
  ghost predicate WaitInv(s: State)
  {
    && (s.main.PushKey? ==> s.main.ackToWait < s.control.nextSequence)
    && (forall e :: e in s.usb.pushed ==> e.ackToWait < s.control.nextSequence)
    && (forall e :: e in s.usb.sent ==> e.ackToWait == SEQUENCE_INVALID || e.ackToWait in Applied(s.control))
  }

  ghost predicate Inv(s: State) { ControlInv(s.control) && UsbInv(s.usb) && WaitInv(s) }

  // ---- the control channel alone

  lemma SequencesPush(messages: seq<Message>, m: Message)
    ensures Sequences(messages + [m]) == Sequences(messages) + SequenceOf(m)
  {
    assert (messages + [m])[..|messages|] == messages;
  }

  lemma {:induction false} SequencesPop(messages: seq<Message>)
    requires messages != []
    ensures Sequences(messages) == SequenceOf(messages[0]) + Sequences(messages[1..])
  {
    var n := |messages| - 1;
    if n == 0 {
      assert messages[..0] == [] == messages[1..];
    } else {
      var rest := messages[1..];
      SequencesPop(messages[..n]);
      assert rest[..n - 1] == messages[..n][1..] && rest[n - 1] == messages[n];
      assert Sequences(rest) == Sequences(rest[..n - 1]) + SequenceOf(messages[n]);
    }
  }

  lemma Moved(a: seq<U64>, b: seq<U64>, x: seq<U64>, c: seq<U64>)
    ensures (a + (b + x)) + c == (a + b) + (x + c)
    ensures (a + x) + c == a + (x + c)
    ensures a + (b + x) == (a + b) + x
  {
  }

  /** A control step keeps the invariant and loses no applied sequence. */
  predicate Extends(c: Control, d: Control)
  {
    c.nextSequence <= d.nextSequence && Applied(c) <= Applied(d)
  }

  lemma NumbersStep(n: nat)
    requires n > 0
    ensures Numbers(n) == Numbers(n - 1) + [n]
  {
  }

  lemma PushClipboardKeeps(c: Control, text: Text)
    requires ControlInv(c) && PushClipboard(c, text).Some?
    ensures var d := PushClipboard(c, text).value; ControlInv(d) && Extends(c, d) && c.nextSequence < d.nextSequence
  {
    var (m, n) := (SetClipboard(c.nextSequence, false, text), c.nextSequence);
    SequencesPush(c.messages, m);
    assert SequenceOf(m) == [n];
    NumbersStep(n);
    var d := PushClipboard(c, text).value;
    assert Applied(d) == Applied(c) && d.messages == c.messages + [m];
    Moved(Applied(c) + Sequences(c.socket), Sequences(c.messages), [n], []);
    assert Issued(d) == Issued(c) + [n];
  }

  lemma PushOtherKeeps(c: Control, m: Message)
    requires ControlInv(c) && SequenceOf(m) == []
    ensures ControlInv(PushOther(c, m)) && Extends(c, PushOther(c, m))
  {
    SequencesPush(c.messages, m);
    Nothing(Sequences(c.messages));
    var d := PushOther(c, m);
    assert Sequences(d.messages) == Sequences(c.messages);
    SameSequences(c, d);
  }

  /** Messages that ask for no acknowledgement do not matter. */
  lemma SameSequences(c: Control, d: Control)
    requires ControlInv(c) && d == c.(messages := d.messages) && Sequences(d.messages) == Sequences(c.messages)
    ensures ControlInv(d) && Extends(c, d)
  {
  }

  lemma SendingKeeps(c: Control)
    requires ControlInv(c) && Sending(c).Some?
    ensures ControlInv(Sending(c).value) && Extends(c, Sending(c).value)
  {
    var (m, d) := (c.messages[0], Sending(c).value);
    SequencesPop(c.messages);
    SequencesPush(c.socket, m);
    Moved(Applied(c), Sequences(c.socket), SequenceOf(m), Sequences(d.messages));
    assert Applied(d) == Applied(c);
    assert Issued(d) == Issued(c);
  }

  lemma ApplyingKeeps(c: Control)
    requires ControlInv(c) && Applying(c).Some?
    ensures ControlInv(Applying(c).value) && Extends(c, Applying(c).value)
  {
    var (m, d) := (c.socket[0], Applying(c).value);
    SequencesPop(c.socket);
    SequencesPush(c.applied, m);
    assert Applied(d) == Applied(c) + SequenceOf(m);
    Moved(Applied(c), [], SequenceOf(m), Sequences(d.socket));
    assert Issued(d) == Issued(c);
  }

  lemma AcknowledgingKeeps(c: Control)
    requires ControlInv(c) && Acknowledging(c).Some?
    ensures ControlInv(Acknowledging(c).value) && Extends(c, Acknowledging(c).value)
  {
    assert Applied(Acknowledging(c).value) == Applied(c);
  }

  /** The next acknowledgement is the next number. */
  lemma NextAck(c: Control)
    requires ControlInv(c) && c.acks != []
    ensures c.acks[0] == c.ack + 1
  {
    assert Issued(c)[|c.acked|] == c.acks[0];
  }

  lemma ReceivingKeeps(c: Control)
    requires ControlInv(c) && Receiving(c).Some?
    ensures ControlInv(Receiving(c).value) && Extends(c, Receiving(c).value)
  {
    NextAck(c);
    assert Applied(Receiving(c).value) == Applied(c);
  }

  /** An acknowledgement at least as high as an issued sequence shows that it was applied. */
  lemma AckedIsApplied(c: Control, n: U64)
    requires ControlInv(c) && 1 <= n <= c.ack
    ensures n in Applied(c)
  {
    assert Issued(c)[n - 1] == Applied(c)[n - 1];
  }

  // ---- the whole

  lemma WaitKeeps(s: State, c: Control)
    requires WaitInv(s) && Extends(s.control, c)
    ensures WaitInv(s.(control := c))
  {
    forall e | e in s.usb.sent && e.ackToWait != SEQUENCE_INVALID
      ensures e.ackToWait in Applied(c)
    {
      assert Applied(c)[..|Applied(s.control)|] == Applied(s.control);
    }
  }

  lemma PasteKeeps(s: State, text: Text)
    requires Inv(s) && Next(s, Paste(text)).Some?
    ensures Inv(Next(s, Paste(text)).value)
  {
    if PushClipboard(s.control, text).Some? {
      PushClipboardKeeps(s.control, text);
      WaitKeeps(s, PushClipboard(s.control, text).value);
    }
  }

  lemma ControlKeeps(s: State, a: Action)
    requires Inv(s) && (a.SendMessage? || a.Apply? || a.Acknowledge? || a.Receive?) && Next(s, a).Some?
    ensures Inv(Next(s, a).value)
  {
    match a {
      case SendMessage => SendingKeeps(s.control);
      case Apply => ApplyingKeeps(s.control);
      case Acknowledge => AcknowledgingKeeps(s.control);
      case Receive => ReceivingKeeps(s.control);
    }
    WaitKeeps(s, Next(s, a).value.control);
  }

  lemma OtherMessageKeeps(s: State, m: Message)
    requires Inv(s) && Next(s, OtherMessage(m)).Some?
    ensures Inv(Next(s, OtherMessage(m)).value)
  {
    PushOtherKeeps(s.control, m);
    WaitKeeps(s, PushOther(s.control, m));
  }

  lemma PushEventKeeps(u: Usb, e: HidEvent)
    requires UsbInv(u)
    ensures UsbInv(PushEvent(u, e))
  {
    assert Events(u.done) + InHand(u.current) + (u.events + [e]) == u.pushed + [e];
  }

  lemma PushReportKeeps(s: State, a: Action)
    requires Inv(s) && (a.PushReport? || a.PushLockState?) && Next(s, a).Some?
    ensures Inv(Next(s, a).value)
  {
    PushEventKeeps(s.usb, HidEvent(a.report, if a.PushReport? then s.main.ackToWait else SEQUENCE_INVALID));
  }

  lemma TakeKeeps(s: State)
    requires Inv(s) && Next(s, TakeReport).Some?
    ensures Inv(Next(s, TakeReport).value)
  {
    var u := s.usb;
    assert Events(u.done) + [u.events[0]] + u.events[1..] == u.pushed;
  }

  lemma FinishingKeeps(u: Usb, seen: View, transferred: bool)
    requires UsbInv(u) && u.current.Some? && Outcome(seen, u.current.value).Some?
    ensures var (send, continues) := Outcome(seen, u.current.value).value;
            UsbInv(Finishing(u, seen, send, transferred, continues))
  {
    var (send, continues) := Outcome(seen, u.current.value).value;
    var end := if !send then Discarded else if transferred then Sent else TransferFailed;
    OutcomeRight(seen, u.current.value, end);
    DoneKeeps(u, Processed(u.current.value, seen, end), !continues);
  }

  lemma OutcomeRight(seen: View, e: HidEvent, end: End)
    requires Outcome(seen, e).Some? && (end == Discarded <==> !Outcome(seen, e).value.0)
    ensures DiscardedRightly(Processed(e, seen, end))
  {
  }

  lemma DoneKeeps(u: Usb, d: Processed, ended: bool)
    requires UsbInv(u) && u.current == Some(d.e) && DiscardedRightly(d)
    ensures UsbInv(u.(current := None, ended := ended, done := u.done + [d],
                      sent := if d.end == Sent then u.sent + [d.e] else u.sent))
  {
    DonePush(u.done, d);
    Nothing(Events(u.done + [d]));
    forall i | 0 <= i < |u.done| + 1
      ensures DiscardedRightly((u.done + [d])[i])
    {
      if i < |u.done| {
        assert (u.done + [d])[i] == u.done[i];
      }
    }
  }

  lemma DonePush(done: seq<Processed>, d: Processed)
    ensures Events(done + [d]) == Events(done) + [d.e]
    ensures Kept(done + [d]) == if d.end == Sent then Kept(done) + [d.e] else Kept(done)
  {
    Front(done, d);
  }

  lemma FinishKeeps(s: State, timedOut: bool, transferred: bool)
    requires Inv(s) && Next(s, FinishReport(timedOut, transferred)).Some?
    ensures Inv(Next(s, FinishReport(timedOut, transferred)).value)
  {
    var e := s.usb.current.value;
    var seen := View(s.control.stopped, s.control.ack, timedOut);
    var (send, continues) := Outcome(seen, e).value;
    FinishingKeeps(s.usb, seen, transferred);
    if send && e.ackToWait != SEQUENCE_INVALID {
      AckedIsApplied(s.control, e.ackToWait);
    }
  }

  lemma NextKeeps(s: State, a: Action)
    requires Inv(s) && Next(s, a).Some?
    ensures Inv(Next(s, a).value)
  {
    match a
    case Paste(text) => PasteKeeps(s, text);
    case OtherMessage(m) => OtherMessageKeeps(s, m);
    case PushReport(_) | PushLockState(_) => PushReportKeeps(s, a);
    case SendMessage | Apply | Acknowledge | Receive => ControlKeeps(s, a);
    case TakeReport => TakeKeeps(s);
    case FinishReport(timedOut, transferred) => FinishKeeps(s, timedOut, transferred);
    case Key | AbandonKey | StopAoa =>
    case Interrupt => WaitKeeps(s, s.control.(stopped := true));
  }

  ghost predicate Reachable(s: State)
  {
    Reaches(Init(), Step(), s)
  }

  lemma ReachableInv(s: State)
    requires Reachable(s)
    ensures Inv(s)
  {
    assert Numbers(0) == [];
    forall s, a | Inv(s) && Step()(s, a).Some?
      ensures Inv(Step()(s, a).value)
    {
      NextKeeps(s, a);
    }
    Invariant(Init(), Step(), (s: State) => Inv(s), s);
  }

  // ---- the main results, over every run of all the threads

  lemma {:induction false} SequencesMember(messages: seq<Message>, n: U64)
    requires n in Sequences(messages)
    ensures exists m :: m in messages && m.SetClipboard? && m.sequence == n
  {
    var last := messages[|messages| - 1];
    if !(last.SetClipboard? && last.sequence == n) {
      SequencesMember(messages[..|messages| - 1], n);
    }
  }

  /** A message is queued, sent or applied. */
  ghost predicate Carried(c: Control, m: Message)
  {
    m in c.applied || m in c.socket || m in c.messages
  }

  /** A report waits for the clipboard of its text. */
  ghost predicate WaitsFor(c: Control, ackToWait: U64, text: Text)
  {
    ackToWait != SEQUENCE_INVALID && Carried(c, SetClipboard(ackToWait, false, text))
  }

  ghost predicate PasteInv(s: State)
  {
    && (s.main.PushKey? && s.main.pasted.Some? ==> WaitsFor(s.control, s.main.ackToWait, s.main.pasted.value))
    && (forall p :: p in s.pastes ==> WaitsFor(s.control, p.e.ackToWait, p.text))
  }

  /** No message is lost. */
  ghost predicate Keeps(c: Control, d: Control)
  {
    forall m :: Carried(c, m) ==> Carried(d, m)
  }

  lemma PasteInvKept(s: State, c: Control)
    requires PasteInv(s) && Keeps(s.control, c)
    ensures PasteInv(s.(control := c))
  {
  }

  lemma ClipboardKept(c: Control, text: Text)
    requires PushClipboard(c, text).Some? && 1 <= c.nextSequence
    ensures var d := PushClipboard(c, text).value; Keeps(c, d) && WaitsFor(d, c.nextSequence, text)
  {
    var m := SetClipboard(c.nextSequence, false, text);
    assert PushClipboard(c, text).value.messages == c.messages + [m];
  }

  lemma OtherKept(c: Control, m: Message)
    ensures Keeps(c, PushOther(c, m))
  {
  }

  lemma FirstKept(messages: seq<Message>, m: Message)
    requires m in messages
    ensures m == messages[0] || m in messages[1..]
  {
  }

  lemma SendingKept(c: Control)
    requires Sending(c).Some?
    ensures Keeps(c, Sending(c).value)
  {
    forall m | Carried(c, m) ensures Carried(Sending(c).value, m) {
      if m in c.messages { FirstKept(c.messages, m); }
    }
  }

  lemma ApplyingKept(c: Control)
    requires Applying(c).Some?
    ensures Keeps(c, Applying(c).value)
  {
    forall m | Carried(c, m) ensures Carried(Applying(c).value, m) {
      if m in c.socket { FirstKept(c.socket, m); }
    }
  }

  lemma PasteStarts(s: State, text: Text)
    requires Inv(s) && PasteInv(s) && Next(s, Paste(text)).Some?
    ensures PasteInv(Next(s, Paste(text)).value)
  {
    if PushClipboard(s.control, text).Some? {
      ClipboardKept(s.control, text);
      PasteInvKept(s, PushClipboard(s.control, text).value);
    }
  }

  /** The steps of the control channel, but for a paste. */
  lemma ControlPaste(s: State, a: Action)
    requires PasteInv(s) && Next(s, a).Some?
    requires a.OtherMessage? || a.SendMessage? || a.Apply? || a.Acknowledge? || a.Receive? || a.Interrupt?
    ensures PasteInv(Next(s, a).value)
  {
    match a {
      case OtherMessage(m) => OtherKept(s.control, m);
      case SendMessage => SendingKept(s.control);
      case Apply => ApplyingKept(s.control);
      case Acknowledge | Receive | Interrupt =>
    }
    PasteInvKept(s, Next(s, a).value.control);
  }

  lemma NextPaste(s: State, a: Action)
    requires Inv(s) && PasteInv(s) && Next(s, a).Some?
    ensures PasteInv(Next(s, a).value)
  {
    match a
    case Paste(text) => PasteStarts(s, text);
    case OtherMessage(_) | SendMessage | Apply | Acknowledge | Receive | Interrupt => ControlPaste(s, a);
    case _ =>
  }

  lemma ReachablePaste(s: State)
    requires Reachable(s)
    ensures Inv(s) && PasteInv(s)
  {
    assert Numbers(0) == [];
    forall s, a | (Inv(s) && PasteInv(s)) && Step()(s, a).Some?
      ensures Inv(Step()(s, a).value) && PasteInv(Step()(s, a).value)
    {
      NextKeeps(s, a);
      NextPaste(s, a);
    }
    Invariant(Init(), Step(), (s: State) => Inv(s) && PasteInv(s), s);
  }

  lemma {:induction false} MemberSequence(messages: seq<Message>, m: Message)
    requires m in messages && SequenceOf(m) != []
    ensures m.sequence in Sequences(messages)
  {
    var last := messages[|messages| - 1];
    if m != last {
      MemberSequence(messages[..|messages| - 1], m);
    }
  }

  /** Each sequence is issued once: an applied one is not still under way. */
  lemma IssuedOnce(c: Control, n: U64)
    requires ControlInv(c) && n in Applied(c)
    ensures n !in Sequences(c.socket) && n !in Sequences(c.messages)
  {
    var (a, b) := (Applied(c), Sequences(c.socket));
    var i :| 0 <= i < |a| && a[i] == n;
    assert Issued(c)[i] == n;
    forall j | 0 <= j < |b| ensures b[j] != n {
      assert Issued(c)[|a| + j] == b[j];
    }
    var d := Sequences(c.messages);
    forall j | 0 <= j < |d| ensures d[j] != n {
      assert Issued(c)[|a| + |b| + j] == d[j];
    }
  }

  lemma AppliedClipboard(c: Control, n: U64, text: Text)
    requires ControlInv(c) && n in Applied(c) && WaitsFor(c, n, text)
    ensures SetClipboard(n, false, text) in c.applied
  {
    var m := SetClipboard(n, false, text);
    IssuedOnce(c, n);
    if m in c.socket { MemberSequence(c.socket, m); }
    if m in c.messages { MemberSequence(c.messages, m); }
  }

  /** Paste never overtakes its clipboard: the report of a paste always waits, and has been sent only
      if the device has applied the clipboard message with its number and its very text. */
  lemma PasteAfterClipboard(s: State, p: PasteReport)
    requires Reachable(s) && p in s.pastes
    ensures p.e.ackToWait != SEQUENCE_INVALID
    ensures p.e in s.usb.sent ==> SetClipboard(p.e.ackToWait, false, p.text) in s.control.applied
  {
    ReachablePaste(s);
    if p.e in s.usb.sent {
      AppliedClipboard(s.control, p.e.ackToWait, p.text);
    }
  }

  /** The report of every paste that is not refused is one of them, whatever the other threads do in
      between, and it is pushed if there is room. */
  lemma PasteIsReported(s: State, text: Text, t: State, report: Request)
    requires s.main == Idle && Next(s, Paste(text)).Some? && report.Input?
    requires t.main == Next(s, Paste(text)).value.main != Idle
    ensures Next(t, PushReport(report)).Some?
    ensures var (u, e) := (Next(t, PushReport(report)).value, HidEvent(report, t.main.ackToWait));
            && u.main == Idle && u.pastes == t.pastes + [PasteReport(e, text)]
            && u.usb.pushed == if |t.usb.events| < QUEUE_LIMIT then t.usb.pushed + [e] else t.usb.pushed
  {
  }

  /** So does any other report that waits. */
  lemma ReportAfterClipboard(s: State, e: HidEvent)
    requires Reachable(s)
    requires e in s.usb.sent && e.ackToWait != SEQUENCE_INVALID
    ensures exists m :: m in s.control.applied && m.SetClipboard? && m.sequence == e.ackToWait
  {
    ReachableInv(s);
    SequencesMember(s.control.applied, e.ackToWait);
  }

  /** The device applies every clipboard of a paste once, in the order of the pastes. */
  lemma ClipboardsInOrder(s: State)
    requires Reachable(s)
    ensures var c := s.control;
            && |Sequences(c.applied)| < c.nextSequence
            && Sequences(c.applied) == Numbers(|Sequences(c.applied)|)
  {
    ReachableInv(s);
    var c := s.control;
    assert Issued(c)[..|Applied(c)|] == Applied(c);
    assert |Issued(c)| >= |Applied(c)|;
  }

  /** Reports are processed in the order they were pushed, and sent in that order, but for those
      discarded or whose transfer failed. */
  lemma ReportsInOrder(s: State)
    requires Reachable(s)
    ensures var u := s.usb;
            && u.pushed == Events(u.done) + InHand(u.current) + u.events
            && u.sent == Kept(u.done)
  {
    ReachableInv(s);
  }

  /** The monotonicity assertion of sc_acksync_ack never fails: acknowledgements increase one by one. */
  lemma AcksMonotonic(s: State)
    requires Reachable(s)
    ensures var c := s.control;
            !c.assertFailed && c.ack == |c.acked| && (c.acks != [] ==> c.acks[0] == c.ack + 1)
  {
    ReachableInv(s);
    var c := s.control;
    if c.acks != [] {
      NextAck(c);
    }
  }

  /** A report is discarded if and only if it waits for an acknowledgement that has not come when
      its wait times out, or if its wait is interrupted. */
  lemma OnlyUnackedDiscarded(s: State, d: Processed)
    requires Reachable(s) && d in s.usb.done
    ensures d.end == Discarded <==>
              d.e.ackToWait != SEQUENCE_INVALID && (d.seen.stopped || (d.seen.ack < d.e.ackToWait && d.seen.timedOut))
  {
    ReachableInv(s);
  }
}
