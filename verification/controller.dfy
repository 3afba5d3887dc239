/** The SSD1681 controller's side of the wire: which commands, with which payloads, it
    receives from a trace of line events, and whether chip select frames every transfer. */
module Controller {
  import opened Bytes
  import opened Wire

  /** What the controller takes part in: a command with the data bytes that followed it,
      data bytes with no command before them, a reset pulse, or the host waiting for idle. */
  datatype Transaction =
    | Command(opcode: Byte, payload: seq<Byte>)
    | Stray(bytes: seq<Byte>)
    | ResetPulse
    | Idle

  /** The controller's view of its input lines and what it has received so far. */
  datatype Lines = Lines(selected: bool, dataMode: bool, inReset: bool, log: seq<Transaction>)

  /** Lines after power-up: deselected, command mode, out of reset, nothing received. */
  const PowerUp := Lines(false, false, false, [])

  /** Every byte received in command mode is a command of its own. */
  function CommandsOf(bytes: seq<Byte>): seq<Transaction>
  {
    seq(|bytes|, i requires 0 <= i < |bytes| => Command(bytes[i], []))
  }

  /** The last thing received is a command, so data bytes belong to it. */
  predicate OpenCommand(log: seq<Transaction>)
  {
    |log| > 0 && log[|log| - 1].Command?
  }

  /** Appends data bytes to the payload of the open command. */
  function Extend(log: seq<Transaction>, bytes: seq<Byte>): seq<Transaction>
    requires OpenCommand(log)
  {
    var last := log[|log| - 1];
    log[..|log| - 1] + [Command(last.opcode, last.payload + bytes)]
  }

  /** Bytes clocked in while selected, interpreted by the data/command line. */
  function Receive(log: seq<Transaction>, dataMode: bool, bytes: seq<Byte>): seq<Transaction>
  {
    if !dataMode then log + CommandsOf(bytes)
    else if OpenCommand(log) then Extend(log, bytes)
    else log + [Stray(bytes)]
  }

  /** The effect of one event on the controller. A transfer that failed delivers nothing
      the controller can rely on and is ignored; bytes sent while deselected are ignored. */
  function Step(s: Lines, e: Event): Lines
  {
    match e
    case CsLow => s.(selected := true)
    case CsHigh => s.(selected := false)
    case DcLow => s.(dataMode := false)
    case DcHigh => s.(dataMode := true)
    case RstLow => s.(inReset := true)
    case RstHigh => if s.inReset then s.(inReset := false, log := s.log + [ResetPulse]) else s
    case DelayMs(_) => s
    case Wait => s.(log := s.log + [Idle])
    case Write(bytes) => if s.selected then s.(log := Receive(s.log, s.dataMode, bytes)) else s
    case WriteError(_) => s
  }

  /** The controller's state after a whole trace. */
  function Decode(s: Lines, events: seq<Event>): Lines
    decreases |events|
  {
    if events == [] then s else Decode(Step(s, events[0]), events[1..])
  }

  /** Decoding is compositional over concatenated traces. */
  lemma {:induction false} DecodeAppend(s: Lines, a: seq<Event>, b: seq<Event>)
    ensures Decode(s, a + b) == Decode(Decode(s, a), b)
    decreases |a|
  {
    if a == [] {
      assert a + b == b;
    } else {
      assert (a + b)[0] == a[0];
      assert (a + b)[1..] == a[1..] + b;
      DecodeAppend(Step(s, a[0]), a[1..], b);
    }
  }

  lemma DecodeSingle(s: Lines, e: Event)
    ensures Decode(s, [e]) == Step(s, e)
  {
    assert [e][1..] == [];
  }

  /** Decoding two traces in a row, one known state at a time. */
  lemma DecodeThen(s: Lines, a: seq<Event>, b: seq<Event>, sa: Lines, sb: Lines)
    requires Decode(s, a) == sa && Decode(sa, b) == sb
    ensures Decode(s, a + b) == sb
  {
    DecodeAppend(s, a, b);
  }

  /** Data that arrives in two pieces ends up in the open command as one payload. */
  lemma ExtendTwice(log: seq<Transaction>, a: seq<Byte>, b: seq<Byte>)
    requires OpenCommand(log)
    ensures OpenCommand(Extend(log, a))
    ensures Extend(Extend(log, a), b) == Extend(log, a + b)
  {
    var last := log[|log| - 1];
    var log1 := Extend(log, a);
    assert log1[..|log1| - 1] == log[..|log| - 1];
    assert last.payload + a + b == last.payload + (a + b);
  }

  // ---------------------------------------------------------------------------------------
  // Chip-select discipline
  // ---------------------------------------------------------------------------------------

  /** Chip select seen from the controller; `Broken` records a transfer outside a
      selection, a selection that was not closed, or a data/command change mid-transaction. */
  datatype Cs = Deselected | Selected | Broken

  function CsStep(c: Cs, e: Event): Cs
  {
    match e
    case CsLow => if c == Deselected then Selected else Broken
    case CsHigh => if c == Selected then Deselected else Broken
    case Write(_) => if c == Selected then Selected else Broken
    case WriteError(_) => if c == Selected then Selected else Broken
    case DcLow => if c == Selected then Broken else c
    case DcHigh => if c == Selected then Broken else c
    case _ => c
  }

  function CsAfter(c: Cs, events: seq<Event>): Cs
    decreases |events|
  {
    if events == [] then c else CsAfter(CsStep(c, events[0]), events[1..])
  }

  /** Every transfer of the trace lies inside a chip-select bracket, the data/command line
      is steady inside every bracket, and the trace ends deselected. */
  predicate Bracketed(events: seq<Event>)
  {
    CsAfter(Deselected, events) == Deselected
  }

  lemma {:induction false} CsAfterAppend(c: Cs, a: seq<Event>, b: seq<Event>)
    ensures CsAfter(c, a + b) == CsAfter(CsAfter(c, a), b)
    decreases |a|
  {
    if a == [] {
      assert a + b == b;
    } else {
      assert (a + b)[0] == a[0];
      assert (a + b)[1..] == a[1..] + b;
      CsAfterAppend(CsStep(c, a[0]), a[1..], b);
    }
  }

  /** Only transfers: nothing that opens, closes or reconfigures a transaction. */
  predicate AllTransfers(events: seq<Event>)
  {
    forall i :: 0 <= i < |events| ==> events[i].Write? || events[i].WriteError?
  }

  lemma {:induction false} TransfersKeepSelection(events: seq<Event>)
    requires AllTransfers(events)
    ensures CsAfter(Selected, events) == Selected
    decreases |events|
  {
    if events != [] {
      assert AllTransfers(events[1..]) by {
        forall i | 0 <= i < |events[1..]| ensures events[1..][i].Write? || events[1..][i].WriteError? {
          assert events[1..][i] == events[i + 1];
        }
      }
      TransfersKeepSelection(events[1..]);
    }
  }

  /** Two bracketed traces in a row are bracketed. */
  lemma BracketedAppend(a: seq<Event>, b: seq<Event>)
    requires Bracketed(a) && Bracketed(b)
    ensures Bracketed(a + b)
  {
    CsAfterAppend(Deselected, a, b);
  }
}
