/** The display interface: chip select, data/command, reset and busy lines around an SPI
    bus, turned into command and data transactions. Every operation is specified by the
    trace it intends to produce (its plan) and proved to perform that plan under any
    pattern of SPI failures. */
module Interface {
  import opened Bytes
  import opened Wire
  import opened Controller

  /** Length of each half of the reset pulse, in milliseconds. */
  const RESET_DELAY_MS: nat := 10

  /** Largest SPI transfer the chunked path issues (the Linux spidev limit). */
  const CHUNK_SIZE: nat := 4096

  // ---------------------------------------------------------------------------------------
  // Chunking
  // ---------------------------------------------------------------------------------------

  /** `data.chunks(4096)`: consecutive pieces of 4096 bytes, the last one shorter. */
  function Chunks(data: seq<Byte>): (r: seq<seq<Byte>>)
    ensures forall i :: 0 <= i < |r| ==> 0 < |r[i]| <= CHUNK_SIZE
    ensures |r| == (|data| + CHUNK_SIZE - 1) / CHUNK_SIZE
    decreases |data|
  {
    if |data| <= CHUNK_SIZE then (if data == [] then [] else [data])
    else [data[..CHUNK_SIZE]] + Chunks(data[CHUNK_SIZE..])
  }

  function Flatten(chunks: seq<seq<Byte>>): seq<Byte>
    decreases |chunks|
  {
    if chunks == [] then [] else chunks[0] + Flatten(chunks[1..])
  }

  lemma {:induction false} FlattenSnoc(chunks: seq<seq<Byte>>, c: seq<Byte>)
    ensures Flatten(chunks + [c]) == Flatten(chunks) + c
    decreases |chunks|
  {
    if chunks == [] {
      assert chunks + [c] == [c];
    } else {
      assert (chunks + [c])[1..] == chunks[1..] + [c];
      FlattenSnoc(chunks[1..], c);
    }
  }

  /** The chunks put back together are the data; every chunk holds between 1 and 4096
      bytes, every chunk but the last exactly 4096, and there are ceil(|data| / 4096) of them. */
  lemma {:induction false} ChunksPartition(data: seq<Byte>)
    ensures Flatten(Chunks(data)) == data
    ensures forall i :: 0 <= i < |Chunks(data)| ==> 0 < |Chunks(data)[i]| <= CHUNK_SIZE
    ensures forall i :: 0 <= i < |Chunks(data)| - 1 ==> |Chunks(data)[i]| == CHUNK_SIZE
    ensures |Chunks(data)| == (|data| + CHUNK_SIZE - 1) / CHUNK_SIZE
    decreases |data|
  {
    if |data| > CHUNK_SIZE {
      var rest := data[CHUNK_SIZE..];
      ChunksPartition(rest);
      assert Chunks(data)[1..] == Chunks(rest);
      assert data[..CHUNK_SIZE] + rest == data;
    }
  }

  /** One transfer per chunk. */
  function Writes(chunks: seq<seq<Byte>>): seq<Event>
  {
    seq(|chunks|, i requires 0 <= i < |chunks| => Write(chunks[i]))
  }

  // ---------------------------------------------------------------------------------------
  // Plans: the traces the operations produce when every transfer succeeds
  // ---------------------------------------------------------------------------------------

  /** `write`: select, transfer (in chunks on the chunked path), deselect. */
  function WritePlan(data: seq<Byte>, chunked: bool): seq<Event>
  {
    [CsLow] + (if chunked then Writes(Chunks(data)) else [Write(data)]) + [CsHigh]
  }

  /** `cmd`: command mode, then one write of the opcode. */
  function CmdPlan(command: Byte, chunked: bool): seq<Event>
  {
    [DcLow] + WritePlan([command], chunked)
  }

  /** `data`: data mode, then one write of the bytes. */
  function DataPlan(data: seq<Byte>, chunked: bool): seq<Event>
  {
    [DcHigh] + WritePlan(data, chunked)
  }

  /** `cmd_with_data`. */
  function CmdWithDataPlan(command: Byte, data: seq<Byte>, chunked: bool): seq<Event>
  {
    CmdPlan(command, chunked) + DataPlan(data, chunked)
  }

  /** `n` copies of a plan, one after the other. */
  function Repeat(plan: seq<Event>, n: nat): seq<Event>
    decreases n
  {
    if n == 0 then [] else Repeat(plan, n - 1) + plan
  }

  /** `data_x_times`: data mode, then one write of `[value]` per repetition. */
  function DataXTimesPlan(value: Byte, repetitions: nat, chunked: bool): seq<Event>
  {
    [DcHigh] + Repeat(WritePlan([value], chunked), repetitions)
  }

  /** `reset`: the reset pulse and its settle time. */
  function ResetPlan(): seq<Event>
  {
    [RstLow, DelayMs(RESET_DELAY_MS), RstHigh, DelayMs(RESET_DELAY_MS)]
  }

  // ---------------------------------------------------------------------------------------
  // The interface object
  // ---------------------------------------------------------------------------------------

  /** `DisplayInterface`, together with the SPI device and delay provider the source passes
      to its methods. The lines are observed as `trace`; the bus fails transfer number `k`
      iff `k in faults`. */
  class DisplayInterface {
    var trace: seq<Event>
    var transfers: nat
    const faults: set<nat>
    const chunked: bool

    /** `new`: nothing has happened on the lines yet. */
    constructor (chunked: bool, faults: set<nat>)
      ensures trace == [] && transfers == 0
      ensures this.chunked == chunked && this.faults == faults
    {
      this.chunked := chunked;
      this.faults := faults;
      trace := [];
      transfers := 0;
    }

    /** The lines went from `trace0`, transfer number `n0`, to their current state by
        running `plan`, with success flag `ok`. */
    ghost predicate Performed(plan: seq<Event>, trace0: seq<Event>, n0: nat, ok: bool)
      reads this
    {
      Ran(plan, faults, trace0, n0, trace, transfers, ok)
    }

    /** Drives a line, waits a delay or polls the busy line; none of these fails. */
    method Signal(e: Event)
      requires !e.Write? && !e.WriteError?
      modifies this
      ensures trace == old(trace) + [e] && transfers == old(transfers)
      ensures Performed([e], old(trace), old(transfers), true)
    {
      trace := trace + [e];
      ExecSingle(e, transfers, faults);
    }

    /** `spi.write`: one transfer, which fails iff its number is a fault. */
    method SpiWrite(bytes: seq<Byte>) returns (ok: bool)
      modifies this
      ensures Performed([Event.Write(bytes)], old(trace), old(transfers), ok)
    {
      ExecSingle(Event.Write(bytes), transfers, faults);
      ok := transfers !in faults;
      trace := trace + [if ok then Event.Write(bytes) else WriteError(bytes)];
      transfers := transfers + 1;
    }

    /** `write`: select, transfer, deselect; on a failed transfer return at once, leaving
        chip select low. */
    method Write(data: seq<Byte>) returns (ok: bool)
      modifies this
      ensures Performed(WritePlan(data, chunked), old(trace), old(transfers), ok)
    {
      ghost var t0, n0 := trace, transfers;
      Signal(CsLow);
      ghost var prefix: seq<Event>;
      if chunked {
        var chunks := Chunks(data);
        assert [CsLow] + Writes(chunks[..0]) == [CsLow];
        for i := 0 to |chunks|
          invariant Performed([CsLow] + Writes(chunks[..i]), t0, n0, true)
        {
          ghost var t1, n1 := trace, transfers;
          ok := SpiWrite(chunks[i]);
          RanThen([CsLow] + Writes(chunks[..i]), [Event.Write(chunks[i])], faults, t0, n0, t1, n1, trace, transfers, ok);
          assert [CsLow] + Writes(chunks[..i]) + [Event.Write(chunks[i])] == [CsLow] + Writes(chunks[..i + 1]);
          if !ok {
            assert Writes(chunks[..i + 1]) <= Writes(chunks);
            RanStop([CsLow] + Writes(chunks[..i + 1]), WritePlan(data, chunked), faults, t0, n0, trace, transfers);
            return;
          }
        }
        assert chunks[..|chunks|] == chunks;
        prefix := [CsLow] + Writes(chunks);
      } else {
        ghost var t1, n1 := trace, transfers;
        ok := SpiWrite(data);
        RanThen([CsLow], [Event.Write(data)], faults, t0, n0, t1, n1, trace, transfers, ok);
        if !ok {
          RanStop([CsLow] + [Event.Write(data)], WritePlan(data, chunked), faults, t0, n0, trace, transfers);
          return;
        }
        prefix := [CsLow] + [Event.Write(data)];
      }
      ghost var t2, n2 := trace, transfers;
      Signal(CsHigh);
      RanThen(prefix, [CsHigh], faults, t0, n0, t2, n2, trace, transfers, true);
      ok := true;
    }

    /** `cmd`: data/command low, then the opcode as one write. */
    method Cmd(command: Byte) returns (ok: bool)
      modifies this
      ensures Performed(CmdPlan(command, chunked), old(trace), old(transfers), ok)
    {
      ghost var t0, n0 := trace, transfers;
      Signal(DcLow);
      ghost var t1, n1 := trace, transfers;
      ok := Write([command]);
      RanThen([DcLow], WritePlan([command], chunked), faults, t0, n0, t1, n1, trace, transfers, ok);
    }

    /** `data`: data/command high, then the bytes as one write. */
    method Data(data: seq<Byte>) returns (ok: bool)
      modifies this
      ensures Performed(DataPlan(data, chunked), old(trace), old(transfers), ok)
    {
      ghost var t0, n0 := trace, transfers;
      Signal(DcHigh);
      ghost var t1, n1 := trace, transfers;
      ok := Write(data);
      RanThen([DcHigh], WritePlan(data, chunked), faults, t0, n0, t1, n1, trace, transfers, ok);
    }

    /** `cmd_with_data`: the command, then (only if it went through) the data. */
    method CmdWithData(command: Byte, data: seq<Byte>) returns (ok: bool)
      modifies this
      ensures Performed(CmdWithDataPlan(command, data, chunked), old(trace), old(transfers), ok)
    {
      ghost var t0, n0 := trace, transfers;
      ok := Cmd(command);
      if !ok {
        RanStop(CmdPlan(command, chunked), CmdWithDataPlan(command, data, chunked), faults, t0, n0, trace, transfers);
        return;
      }
      ghost var t1, n1 := trace, transfers;
      ok := Data(data);
      RanThen(CmdPlan(command, chunked), DataPlan(data, chunked), faults, t0, n0, t1, n1, trace, transfers, ok);
    }

    /** `data_x_times`: data/command high, then `repetitions` one-byte writes of `value`,
        stopping at the first failed write. */
    method DataXTimes(value: Byte, repetitions: U32) returns (ok: bool)
      modifies this
      ensures Performed(DataXTimesPlan(value, repetitions, chunked), old(trace), old(transfers), ok)
    {
      ghost var t0, n0 := trace, transfers;
      ghost var single := WritePlan([value], chunked);
      Signal(DcHigh);
      assert [DcHigh] + Repeat(single, 0) == [DcHigh];
      for i := 0 to repetitions
        invariant Performed([DcHigh] + Repeat(single, i), t0, n0, true)
      {
        ghost var t1, n1 := trace, transfers;
        ok := Write([value]);
        RanThen([DcHigh] + Repeat(single, i), single, faults, t0, n0, t1, n1, trace, transfers, ok);
        assert [DcHigh] + Repeat(single, i) + single == [DcHigh] + Repeat(single, i + 1);
        if !ok {
          RepeatPrefix(single, i + 1, repetitions);
          RanStop([DcHigh] + Repeat(single, i + 1), DataXTimesPlan(value, repetitions, chunked),
                  faults, t0, n0, trace, transfers);
          return;
        }
      }
      ok := true;
    }

    /** `wait_until_idle`: returns once the busy line reads not-busy. */
    method WaitUntilIdle()
      modifies this
      ensures Performed([Wait], old(trace), old(transfers), true)
    {
      Signal(Wait);
    }

    /** `reset`: reset low, settle, reset high, settle. */
    method Reset()
      modifies this
      ensures Performed(ResetPlan(), old(trace), old(transfers), true)
    {
      Signal(RstLow);
      Signal(DelayMs(RESET_DELAY_MS));
      Signal(RstHigh);
      Signal(DelayMs(RESET_DELAY_MS));
      ExecSucceeds(ResetPlan(), old(transfers), faults);
    }
  }

  // ---------------------------------------------------------------------------------------
  // What the plans mean on the wire
  // ---------------------------------------------------------------------------------------

  /** `cmd` is one single-byte write of the opcode in command mode, on either transport path. */
  lemma CmdIsOneByteWrite(command: Byte, chunked: bool)
    ensures CmdPlan(command, chunked) == [DcLow, CsLow, Write([command]), CsHigh]
  {
    assert Chunks([command]) == [[command]];
    assert Writes([[command]]) == [Write([command])];
  }

  /** `data_x_times` issues exactly `repetitions` transfers, each a chip-select-framed write
      of the single byte `[value]`. */
  lemma {:induction false} DataXTimesTransfers(value: Byte, repetitions: nat, chunked: bool)
    ensures WritePlan([value], chunked) == [CsLow, Write([value]), CsHigh]
    ensures Transfers(DataXTimesPlan(value, repetitions, chunked)) == repetitions
    decreases repetitions
  {
    assert Chunks([value]) == [[value]];
    assert Writes([[value]]) == [Write([value])];
    var single := WritePlan([value], chunked);
    assert single == [CsLow, Write([value]), CsHigh];
    assert Transfers([CsHigh]) == 0 by { assert [CsHigh][1..] == []; }
    assert Transfers([Write([value]), CsHigh]) == 1 by { assert [Write([value]), CsHigh][1..] == [CsHigh]; }
    assert Transfers(single) == 1 by { assert single[1..] == [Write([value]), CsHigh]; }
    if repetitions > 0 {
      DataXTimesTransfers(value, repetitions - 1, chunked);
      TransfersAppend([DcHigh], Repeat(single, repetitions - 1));
      TransfersAppend([DcHigh], Repeat(single, repetitions));
      TransfersAppend(Repeat(single, repetitions - 1), single);
    } else {
      assert DataXTimesPlan(value, 0, chunked) == [DcHigh];
    }
  }

  /** On the chunked path the transfers of `write` carry the data, in order, in pieces of at
      most 4096 bytes. */
  lemma ChunkedWriteCarriesData(data: seq<Byte>)
    ensures var plan := WritePlan(data, true);
      |plan| == |Chunks(data)| + 2 && plan[0] == CsLow && plan[|plan| - 1] == CsHigh &&
      (forall i :: 1 <= i < |plan| - 1 ==> plan[i] == Write(Chunks(data)[i - 1]) && |plan[i].bytes| <= CHUNK_SIZE) &&
      Flatten(Chunks(data)) == data
  {
    ChunksPartition(data);
  }

  /** Chunk transfers received in data mode extend the open command by the chunks' bytes. */
  lemma {:induction false} DecodeChunkWrites(s: Lines, chunks: seq<seq<Byte>>)
    requires s.selected && s.dataMode && OpenCommand(s.log)
    ensures Decode(s, Writes(chunks)) == s.(log := Extend(s.log, Flatten(chunks)))
    decreases |chunks|
  {
    if chunks == [] {
      assert Writes(chunks) == [];
      var last := s.log[|s.log| - 1];
      assert last.payload + [] == last.payload;
      assert Extend(s.log, []) == s.log;
    } else {
      assert Writes(chunks) == [Write(chunks[0])] + Writes(chunks[1..]);
      DecodeAppend(s, [Write(chunks[0])], Writes(chunks[1..]));
      DecodeSingle(s, Write(chunks[0]));
      var s1 := s.(log := Extend(s.log, chunks[0]));
      ExtendTwice(s.log, chunks[0], Flatten(chunks[1..]));
      DecodeChunkWrites(s1, chunks[1..]);
    }
  }

  /** A `write` in data mode appends its bytes to the open command and ends deselected. */
  lemma DecodeDataWrite(s: Lines, data: seq<Byte>, chunked: bool)
    requires s.dataMode && OpenCommand(s.log)
    ensures Decode(s, WritePlan(data, chunked)) == s.(selected := false, log := Extend(s.log, data))
  {
    var mid := if chunked then Writes(Chunks(data)) else [Write(data)];
    var s1 := s.(selected := true);
    var s2 := s1.(log := Extend(s.log, data));
    DecodeAppend(s, [CsLow] + mid, [CsHigh]);
    DecodeAppend(s, [CsLow], mid);
    DecodeSingle(s, CsLow);
    if chunked {
      ChunksPartition(data);
      DecodeChunkWrites(s1, Chunks(data));
    } else {
      DecodeSingle(s1, Write(data));
    }
    DecodeSingle(s2, CsHigh);
  }

  /** The controller receives `cmd(command)` as that command with no payload yet. */
  lemma CmdDelivers(s: Lines, command: Byte, chunked: bool)
    ensures Decode(s, CmdPlan(command, chunked)) ==
      s.(selected := false, dataMode := false, log := s.log + [Command(command, [])])
  {
    CmdIsOneByteWrite(command, chunked);
    assert CommandsOf([command]) == [Command(command, [])];
    var plan := [DcLow, CsLow, Write([command]), CsHigh];
    assert plan == [DcLow] + [CsLow] + [Write([command])] + [CsHigh];
    DecodeAppend(s, [DcLow] + [CsLow] + [Write([command])], [CsHigh]);
    DecodeAppend(s, [DcLow] + [CsLow], [Write([command])]);
    DecodeAppend(s, [DcLow], [CsLow]);
    var s1 := Step(s, DcLow);
    var s2 := Step(s1, CsLow);
    var s3 := Step(s2, Write([command]));
    DecodeSingle(s, DcLow);
    DecodeSingle(s1, CsLow);
    DecodeSingle(s2, Write([command]));
    DecodeSingle(s3, CsHigh);
  }

  /** The controller receives `data(bytes)` as the payload of the open command. */
  lemma DataDelivers(s: Lines, data: seq<Byte>, chunked: bool)
    requires OpenCommand(s.log)
    ensures Decode(s, DataPlan(data, chunked)) ==
      s.(selected := false, dataMode := true, log := Extend(s.log, data))
  {
    DecodeAppend(s, [DcHigh], WritePlan(data, chunked));
    DecodeSingle(s, DcHigh);
    DecodeDataWrite(s.(dataMode := true), data, chunked);
  }

  /** The controller receives `cmd_with_data(command, data)` as exactly one command carrying
      exactly `data`, on either transport path. */
  lemma CmdWithDataDelivers(s: Lines, command: Byte, data: seq<Byte>, chunked: bool)
    ensures Decode(s, CmdWithDataPlan(command, data, chunked)) ==
      s.(selected := false, dataMode := true, log := s.log + [Command(command, data)])
  {
    DecodeAppend(s, CmdPlan(command, chunked), DataPlan(data, chunked));
    CmdDelivers(s, command, chunked);
    var s1 := s.(selected := false, dataMode := false, log := s.log + [Command(command, [])]);
    DataDelivers(s1, data, chunked);
    assert [] + data == data;
    assert Extend(s1.log, data) == s.log + [Command(command, data)];
  }

  /** After a command, `data_x_times(value, n)` gives that command a payload of exactly `n`
      copies of `value`. */
  lemma {:induction false} DataXTimesDelivers(s: Lines, value: Byte, repetitions: nat, chunked: bool)
    requires OpenCommand(s.log) && !s.selected
    ensures Decode(s, DataXTimesPlan(value, repetitions, chunked)) ==
      s.(dataMode := true, log := Extend(s.log, Filled(value, repetitions)))
    decreases repetitions
  {
    var single := WritePlan([value], chunked);
    if repetitions == 0 {
      assert DataXTimesPlan(value, 0, chunked) == [DcHigh];
      DecodeSingle(s, DcHigh);
      var last := s.log[|s.log| - 1];
      assert last.payload + Filled(value, 0) == last.payload;
      assert Extend(s.log, Filled(value, 0)) == s.log;
    } else {
      assert DataXTimesPlan(value, repetitions, chunked) ==
        DataXTimesPlan(value, repetitions - 1, chunked) + single;
      DecodeAppend(s, DataXTimesPlan(value, repetitions - 1, chunked), single);
      DataXTimesDelivers(s, value, repetitions - 1, chunked);
      var s1 := s.(dataMode := true, log := Extend(s.log, Filled(value, repetitions - 1)));
      ExtendTwice(s.log, Filled(value, repetitions - 1), [value]);
      DecodeDataWrite(s1, [value], chunked);
      assert Filled(value, repetitions - 1) + [value] == Filled(value, repetitions);
    }
  }

  /** The controller sees `reset` as one reset pulse, whatever it was doing before. */
  lemma ResetDelivers(s: Lines)
    ensures Decode(s, ResetPlan()) == s.(inReset := false, log := s.log + [ResetPulse])
  {
    var p := ResetPlan();
    assert p[1..][1..][1..][1..] == [];
  }

  /** The controller sees `wait_until_idle` as the host waiting for it to become idle. */
  lemma WaitDelivers(s: Lines)
    ensures Decode(s, [Wait]) == s.(log := s.log + [Idle])
  {
    DecodeSingle(s, Wait);
  }

  // ---------------------------------------------------------------------------------------
  // Chip-select framing
  // ---------------------------------------------------------------------------------------

  /** Every `write` is framed by chip select: selected before the first transfer,
      deselected after the last. */
  lemma WriteBracketed(data: seq<Byte>, chunked: bool)
    ensures Bracketed(WritePlan(data, chunked))
  {
    var mid := if chunked then Writes(Chunks(data)) else [Write(data)];
    assert AllTransfers(mid);
    CsAfterAppend(Deselected, [CsLow] + mid, [CsHigh]);
    CsAfterAppend(Deselected, [CsLow], mid);
    TransfersKeepSelection(mid);
  }

  /** `cmd`, `data`, `cmd_with_data` and `reset` are framed by chip select and never change
      the data/command line inside a selection. */
  lemma TransactionsBracketed(command: Byte, data: seq<Byte>, chunked: bool)
    ensures Bracketed(CmdPlan(command, chunked))
    ensures Bracketed(DataPlan(data, chunked))
    ensures Bracketed(CmdWithDataPlan(command, data, chunked))
    ensures Bracketed(ResetPlan()) && Bracketed([Wait])
  {
    WriteBracketed([command], chunked);
    WriteBracketed(data, chunked);
    CsAfterAppend(Deselected, [DcLow], WritePlan([command], chunked));
    CsAfterAppend(Deselected, [DcHigh], WritePlan(data, chunked));
    BracketedAppend(CmdPlan(command, chunked), DataPlan(data, chunked));
  }

  /** A transaction's plan holds only successful transfers and never waits for the busy
      line. */
  lemma TransactionsPlanned(command: Byte, data: seq<Byte>, chunked: bool)
    ensures Planned(CmdPlan(command, chunked)) && Planned(CmdWithDataPlan(command, data, chunked))
    ensures Wait !in CmdPlan(command, chunked) && Wait !in CmdWithDataPlan(command, data, chunked)
  {
    var cmid := if chunked then Writes(Chunks([command])) else [Write([command])];
    var dmid := if chunked then Writes(Chunks(data)) else [Write(data)];
    assert CmdPlan(command, chunked) == [DcLow, CsLow] + cmid + [CsHigh];
    assert DataPlan(data, chunked) == [DcHigh, CsLow] + dmid + [CsHigh];
    assert forall i :: 0 <= i < |cmid| ==> cmid[i].Write?;
    assert forall i :: 0 <= i < |dmid| ==> dmid[i].Write?;
  }

  /** `data_x_times` is framed by chip select, one bracket per byte. */
  lemma {:induction false} DataXTimesBracketed(value: Byte, repetitions: nat, chunked: bool)
    ensures Bracketed(DataXTimesPlan(value, repetitions, chunked))
    decreases repetitions
  {
    var single := WritePlan([value], chunked);
    if repetitions == 0 {
      assert DataXTimesPlan(value, 0, chunked) == [DcHigh];
    } else {
      DataXTimesBracketed(value, repetitions - 1, chunked);
      WriteBracketed([value], chunked);
      assert DataXTimesPlan(value, repetitions, chunked) ==
        DataXTimesPlan(value, repetitions - 1, chunked) + single;
      BracketedAppend(DataXTimesPlan(value, repetitions - 1, chunked), single);
    }
  }

  /** A `write` whose transfer fails returns with chip select still low: the selection it
      opened is never closed. */
  lemma WriteFailureLeavesSelected(data: seq<Byte>, chunked: bool, n: nat, faults: set<nat>)
    requires !Exec(WritePlan(data, chunked), n, faults).ok
    ensures CsAfter(Deselected, Exec(WritePlan(data, chunked), n, faults).events) == Selected
    ensures CsHigh !in Exec(WritePlan(data, chunked), n, faults).events
  {
    var plan := WritePlan(data, chunked);
    var mid := if chunked then Writes(Chunks(data)) else [Write(data)];
    assert plan == [CsLow] + mid + [CsHigh];
    ExecStops(plan, n, faults);
    var events := Exec(plan, n, faults).events;
    var k := |events| - 1;
    assert 1 <= k <= |mid|;
    var done := mid[..k - 1] + [WriteError(plan[k].bytes)];
    assert events == [CsLow] + done;
    assert AllTransfers(done);
    CsAfterAppend(Deselected, [CsLow], done);
    TransfersKeepSelection(done);
  }

  lemma {:induction false} RepeatPrefix(plan: seq<Event>, i: nat, n: nat)
    requires i <= n
    ensures Repeat(plan, i) <= Repeat(plan, n)
    decreases n
  {
    if i < n {
      RepeatPrefix(plan, i, n - 1);
    }
  }
}
