/** The abstract port the driver talks through. The hardware registers are
    replaced by an ordered record of what the driver does to them; this module
    gives that record its meaning: the levels of the two control lines, the
    bytes the display controller receives, and the discipline the driver keeps
    on the control lines around every byte. */
module LcdPort {
  import opened LcdHeader

  /** One observable action on the port. */
  datatype Event =
    | Write(w: LatchWrite)  // an assignment to LATB13 or LATB14
    | Transmit(b: Byte)     // the byte is written to the SPI buffer and shifted out
    | AwaitReceive          // the busy-wait on the receive-buffer-empty flag has ended
    | Drain                 // the received (dummy) byte is read from the SPI buffer
    | ShortDelay            // the 100 microsecond settle interval
    | LongDelay             // the 2 millisecond settle interval

  /** Line levels: register select (LATB13), chip select (LATB14), and whether
      a byte has gone out during the current selection. */
  datatype Lines = Lines(rs: bool, cs: bool, busy: bool)

  /** Both latches low, nothing in flight: the state between operations. */
  const IDLE: Lines := Lines(false, false, false)

  /** A byte as the display controller takes it: register select low marks a
      command, high marks character data. */
  datatype Transfer = Command(op: Byte) | Data(ch: Byte)

  function Apply(l: Lines, e: Event): Lines {
    match e
    case Write(LatchWrite(LatB13, v)) => l.(rs := v)
    case Write(LatchWrite(LatB14, v)) => l.(cs := v, busy := l.busy && v)
    case Transmit(_) => if l.cs then l.(busy := true) else l
    case _ => l
  }

  /** The line levels after the events of `t`, starting from `l`. */
  function Run(l: Lines, t: seq<Event>): Lines
    decreases |t|
  {
    if t == [] then l else Run(Apply(l, t[0]), t[1..])
  }

  /** What one event hands to the controller: a byte shifted out while chip
      select is active, read as data or command by the register-select level. */
  function Deliver(l: Lines, e: Event): seq<Transfer> {
    match e
    case Transmit(b) => if !l.cs then [] else if l.rs then [Data(b)] else [Command(b)]
    case _ => []
  }

  /** Everything the controller receives along `t`, in order. */
  function Received(l: Lines, t: seq<Event>): seq<Transfer>
    decreases |t|
  {
    if t == [] then [] else Deliver(l, t[0]) + Received(Apply(l, t[0]), t[1..])
  }

  /** The per-event rule the driver keeps: a byte goes out only while chip
      select is active and only once per selection, and register select
      keeps its level from the moment the byte goes out until chip select is
      released. */
  predicate Allowed(l: Lines, e: Event) {
    match e
    case Write(LatchWrite(LatB13, v)) => !l.busy || v == l.rs
    case Transmit(_) => l.cs && !l.busy
    case _ => true
  }

  predicate Disciplined(l: Lines, t: seq<Event>)
    decreases |t|
  {
    t == [] || (Allowed(l, t[0]) && Disciplined(Apply(l, t[0]), t[1..]))
  }

  /** Register select never changes level while chip select is active. */
  predicate RsSteadyWhileSelected(l: Lines, t: seq<Event>)
    decreases |t|
  {
    t == [] ||
    ((l.cs && t[0].Write? && t[0].w.latch == LatB13 ==> t[0].w.level == l.rs) &&
     RsSteadyWhileSelected(Apply(l, t[0]), t[1..]))
  }

  /** The settle intervals along `t`, in order. */
  function Delays(t: seq<Event>): (d: seq<Event>)
    ensures forall i | 0 <= i < |d| :: d[i] == ShortDelay || d[i] == LongDelay
    ensures |d| <= |t|
  {
    if t == [] then []
    else (if t[0] == ShortDelay || t[0] == LongDelay then [t[0]] else []) + Delays(t[1..])
  }

  /** Line polarity: a byte goes to the controller only while LATB14 is high,
      as data when LATB13 is high and as a command when it is low. */
  lemma ControlLinePolarity(l: Lines, b: Byte)
    ensures Deliver(Apply(Apply(l, Write(ACTIVATE_CHIP_SELECT)), Write(SET_RS)), Transmit(b)) == [Data(b)]
    ensures Deliver(Apply(Apply(l, Write(ACTIVATE_CHIP_SELECT)), Write(CLEAR_RS)), Transmit(b)) == [Command(b)]
    ensures Deliver(Apply(l, Write(RELEASE_CHIP_SELECT)), Transmit(b)) == []
  {
  }

  /** One step of each fold, for traces written out event by event. */
  lemma Unfold(l: Lines, t: seq<Event>)
    requires t != []
    ensures Run(l, t) == Run(Apply(l, t[0]), t[1..])
    ensures Received(l, t) == Deliver(l, t[0]) + Received(Apply(l, t[0]), t[1..])
    ensures Disciplined(l, t) <==> Allowed(l, t[0]) && Disciplined(Apply(l, t[0]), t[1..])
    ensures RsSteadyWhileSelected(l, t) <==>
              (l.cs && t[0].Write? && t[0].w.latch == LatB13 ==> t[0].w.level == l.rs) &&
              RsSteadyWhileSelected(Apply(l, t[0]), t[1..])
    ensures Delays(t) == (if t[0] == ShortDelay || t[0] == LongDelay then [t[0]] else []) + Delays(t[1..])
  {
  }

  /** Replaying, receiving, the discipline and steadiness all compose over
      concatenated traces. */
  lemma {:induction false} RunAppend(l: Lines, t1: seq<Event>, t2: seq<Event>)
    ensures Run(l, t1 + t2) == Run(Run(l, t1), t2)
    ensures Received(l, t1 + t2) == Received(l, t1) + Received(Run(l, t1), t2)
    ensures Disciplined(l, t1 + t2) <==> Disciplined(l, t1) && Disciplined(Run(l, t1), t2)
    ensures RsSteadyWhileSelected(l, t1 + t2) <==>
              RsSteadyWhileSelected(l, t1) && RsSteadyWhileSelected(Run(l, t1), t2)
    ensures Delays(t1 + t2) == Delays(t1) + Delays(t2)
    decreases |t1|
  {
    if t1 == [] {
      assert t1 + t2 == t2;
    } else {
      assert (t1 + t2)[0] == t1[0];
      assert (t1 + t2)[1..] == t1[1..] + t2;
      RunAppend(Apply(l, t1[0]), t1[1..], t2);
    }
  }
}
