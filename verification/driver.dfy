/** The SSD1681 command protocol (`Ssd1681`): which commands the driver sends, with which
    payloads and in which order, as the line events each operation plans. */
module Driver {
  import opened Bytes
  import opened Wire
  import opened Controller
  import opened Interface
  import opened Colors
  import Cmd
  import Flag
  import Panel
  import Graphics

  // ---------------------------------------------------------------------------------------
  // RAM address encoding
  // ---------------------------------------------------------------------------------------

  /** The controller addresses RAM columns in bytes: a pixel column `x` becomes `x >> 3`,
      truncated to a byte. Every column below 2048 keeps its byte column exactly. */
  function XAddress(x: U32): (b: Byte)
    ensures b as int == (x / 8) % 256
    ensures x < 2048 ==> b as int == x / 8
  {
    assert x < 2048 ==> (x / 8) % 256 == x / 8;
    AsByte(x / 8)
  }

  /** A RAM row as the two payload bytes `[y as u8, (y >> 8) as u8]`, low byte first. */
  function YBytes(y: U32): (r: seq<Byte>)
    ensures |r| == 2
  {
    [AsByte(y), AsByte(y / 256)]
  }

  /** How the controller reads a little-endian row address back. */
  function RowOf(lo: Byte, hi: Byte): nat
  {
    lo as nat + 256 * hi as nat
  }

  /** Every row the controller can address (below 2^16) survives the two-byte encoding. */
  lemma YBytesRoundTrip(y: U32)
    requires y < 0x1_0000
    ensures RowOf(YBytes(y)[0], YBytes(y)[1]) == y
  {
    LittleEndianSplit(y);
  }

  /** The two bytes carry the row modulo 2^16: what the controller reads back is `y` with
      its upper sixteen bits dropped. */
  lemma YBytesKeepLow16(y: U32)
    ensures RowOf(YBytes(y)[0], YBytes(y)[1]) == y % 0x1_0000
  {
    var q, v := y / 0x1_0000, y % 0x1_0000;
    assert y == 0x1_0000 * q + v;
    assert y % 256 == v % 256 by {
      assert y == 256 * (256 * q + v / 256) + v % 256;
    }
    assert (y / 256) % 256 == v / 256 by {
      assert y / 256 == 256 * q + v / 256;
    }
    LittleEndianSplit(v);
  }

  /** Rows 2^16 apart share an encoding: the high bits of `y` are lost. */
  lemma YBytesWrap(y: U32)
    requires y + 0x1_0000 < 0x1_0000_0000
    ensures YBytes(y + 0x1_0000) == YBytes(y)
  {
    assert (y + 0x1_0000) % 256 == y % 256;
    assert ((y + 0x1_0000) / 256) % 256 == (y / 256) % 256;
  }

  // ---------------------------------------------------------------------------------------
  // Plans of the driver's operations
  // ---------------------------------------------------------------------------------------

  /** The payload size of a frame write: `WIDTH / 8 * HEIGHT`. */
  const FRAME_BYTES: nat := Panel.WIDTH as nat / 8 * Panel.HEIGHT as nat

  /** `set_ram_area`: the x window in bytes, then the y window as two little-endian rows. */
  function RamAreaPlan(startX: U32, startY: U32, endX: U32, endY: U32, chunked: bool): seq<Event>
  {
    CmdWithDataPlan(Cmd.SET_RAMXPOS, [XAddress(startX), XAddress(endX)], chunked) +
    CmdWithDataPlan(Cmd.SET_RAMYPOS, YBytes(startY) + YBytes(endY), chunked)
  }

  /** `set_ram_counter`: the x counter in bytes, then the y counter as a little-endian row. */
  function RamCounterPlan(x: U32, y: U32, chunked: bool): seq<Event>
  {
    CmdWithDataPlan(Cmd.SET_RAMX_COUNTER, [XAddress(x)], chunked) +
    CmdWithDataPlan(Cmd.SET_RAMY_COUNTER, YBytes(y), chunked)
  }

  /** `use_full_frame`: the whole panel as the RAM window, counters at its origin. */
  function FullFramePlan(chunked: bool): seq<Event>
  {
    RamAreaPlan(0, 0, Panel.WIDTH as nat - 1, Panel.HEIGHT as nat - 1, chunked) +
    RamCounterPlan(0, 0, chunked)
  }

  /** `init`: hardware reset, software reset, then the panel configuration. */
  function InitPlan(chunked: bool): seq<Event>
  {
    ResetPlan() +
    CmdPlan(Cmd.SW_RESET, chunked) +
    [Wait] +
    CmdWithDataPlan(Cmd.DRIVER_CONTROL, [Panel.HEIGHT - 1, 0x00, 0x00], chunked) +
    CmdWithDataPlan(Cmd.DATA_ENTRY_MODE, [Flag.DATA_ENTRY_INCRY_INCRX], chunked) +
    FullFramePlan(chunked) +
    CmdWithDataPlan(Cmd.BORDER_WAVEFORM_CONTROL,
                    [Flag.BORDER_WAVEFORM_FOLLOW_LUT | Flag.BORDER_WAVEFORM_LUT1], chunked) +
    CmdWithDataPlan(Cmd.TEMP_CONTROL, [Flag.INTERNAL_TEMP_SENSOR], chunked) +
    [Wait]
  }

  /** `update_bw_frame` / `update_red_frame`: the full window, then the buffer as the
      payload of the plane's write command. */
  function UpdateFramePlan(opcode: Byte, buffer: seq<Byte>, chunked: bool): seq<Event>
  {
    FullFramePlan(chunked) + CmdWithDataPlan(opcode, buffer, chunked)
  }

  /** `display_frame`: choose the refresh sequence, start it, wait for it to finish. */
  function DisplayFramePlan(chunked: bool): seq<Event>
  {
    CmdWithDataPlan(Cmd.UPDATE_DISPLAY_CTRL2, [Flag.DISPLAY_MODE_1], chunked) +
    CmdPlan(Cmd.MASTER_ACTIVATE, chunked) +
    [Wait]
  }

  /** `clear_bw_frame` / `clear_red_frame`: the full window, the plane's write command, then
      one frame's worth of the fill byte. */
  function ClearFramePlan(opcode: Byte, value: Byte, chunked: bool): seq<Event>
  {
    FullFramePlan(chunked) + CmdPlan(opcode, chunked) + DataXTimesPlan(value, FRAME_BYTES, chunked)
  }

  /** A prefix of a trace is a prefix of any extension of it. */
  lemma PrefixExtends(a: seq<Event>, b: seq<Event>, c: seq<Event>)
    requires a <= b
    ensures a <= b + c
  {
    assert (b + c)[..|a|] == b[..|a|];
  }

  /** Each step of `init` that can fail leaves the rest of the plan undone. */
  lemma InitPrefixes(chunked: bool)
    ensures var p0 := ResetPlan() + CmdPlan(Cmd.SW_RESET, chunked);
      var p1 := p0 + [Wait] + CmdWithDataPlan(Cmd.DRIVER_CONTROL, [Panel.HEIGHT - 1, 0x00, 0x00], chunked);
      var p2 := p1 + CmdWithDataPlan(Cmd.DATA_ENTRY_MODE, [Flag.DATA_ENTRY_INCRY_INCRX], chunked);
      var p3 := p2 + FullFramePlan(chunked);
      var p4 := p3 + CmdWithDataPlan(Cmd.BORDER_WAVEFORM_CONTROL,
                                     [Flag.BORDER_WAVEFORM_FOLLOW_LUT | Flag.BORDER_WAVEFORM_LUT1], chunked);
      var p5 := p4 + CmdWithDataPlan(Cmd.TEMP_CONTROL, [Flag.INTERNAL_TEMP_SENSOR], chunked);
      InitPlan(chunked) == p5 + [Wait] &&
      p0 <= InitPlan(chunked) && p1 <= InitPlan(chunked) && p2 <= InitPlan(chunked) &&
      p3 <= InitPlan(chunked) && p4 <= InitPlan(chunked) && p5 <= InitPlan(chunked)
  {
    var p0 := ResetPlan() + CmdPlan(Cmd.SW_RESET, chunked);
    var w := p0 + [Wait];
    var p1 := w + CmdWithDataPlan(Cmd.DRIVER_CONTROL, [Panel.HEIGHT - 1, 0x00, 0x00], chunked);
    var p2 := p1 + CmdWithDataPlan(Cmd.DATA_ENTRY_MODE, [Flag.DATA_ENTRY_INCRY_INCRX], chunked);
    var p3 := p2 + FullFramePlan(chunked);
    var p4 := p3 + CmdWithDataPlan(Cmd.BORDER_WAVEFORM_CONTROL,
                                   [Flag.BORDER_WAVEFORM_FOLLOW_LUT | Flag.BORDER_WAVEFORM_LUT1], chunked);
    var p5 := p4 + CmdWithDataPlan(Cmd.TEMP_CONTROL, [Flag.INTERNAL_TEMP_SENSOR], chunked);
    var all := p5 + [Wait];
    PrefixExtends(p5, p5, [Wait]);
    PrefixExtends(p4, p4, p5[|p4|..]);
    assert p4 + p5[|p4|..] == p5;
    PrefixExtends(p3, p3, p4[|p3|..]);
    assert p3 + p4[|p3|..] == p4;
    PrefixExtends(p2, p2, p3[|p2|..]);
    assert p2 + p3[|p2|..] == p3;
    PrefixExtends(p1, p1, p2[|p1|..]);
    assert p1 + p2[|p1|..] == p2;
    PrefixExtends(p0, p0, p1[|p0|..]);
    assert p0 + p1[|p0|..] == p1;
  }

  datatype Option<T> = None | Some(value: T)

  // ---------------------------------------------------------------------------------------
  // The driver object
  // ---------------------------------------------------------------------------------------

  /** `Ssd1681`: a configured display owning its hardware interface. */
  class Ssd1681 {
    const interface: DisplayInterface

    constructor (interface: DisplayInterface)
      ensures this.interface == interface
    {
      this.interface := interface;
    }

    /** `new`: wrap the interface and initialise the controller; a failed transfer is
        reported instead of a driver. */
    static method New(interface: DisplayInterface) returns (r: Option<Ssd1681>)
      modifies interface
      ensures exists ok :: interface.Performed(InitPlan(interface.chunked), old(interface.trace),
                                               old(interface.transfers), ok) &&
                           (ok <==> r.Some?)
      ensures r.Some? ==> r.value.interface == interface
    {
      var d := new Ssd1681(interface);
      var ok := d.Init();
      r := if ok then Some(d) else None;
    }

    /** `init`. */
    method Init() returns (ok: bool)
      modifies interface
      ensures interface.Performed(InitPlan(interface.chunked), old(interface.trace),
                                  old(interface.transfers), ok)
    {
      ghost var faults, ch := interface.faults, interface.chunked;
      ghost var t0, n0 := interface.trace, interface.transfers;
      ghost var plan := InitPlan(ch);
      InitPrefixes(ch);
      interface.Reset();
      ghost var done := ResetPlan();

      ghost var t1, n1 := interface.trace, interface.transfers;
      ok := interface.Cmd(Cmd.SW_RESET);
      RanThen(done, CmdPlan(Cmd.SW_RESET, ch), faults, t0, n0, t1, n1, interface.trace, interface.transfers, ok);
      done := done + CmdPlan(Cmd.SW_RESET, ch);
      if !ok { RanStop(done, plan, faults, t0, n0, interface.trace, interface.transfers); return; }

      t1, n1 := interface.trace, interface.transfers;
      interface.WaitUntilIdle();
      RanThen(done, [Wait], faults, t0, n0, t1, n1, interface.trace, interface.transfers, true);
      done := done + [Wait];

      t1, n1 := interface.trace, interface.transfers;
      ok := interface.CmdWithData(Cmd.DRIVER_CONTROL, [Panel.HEIGHT - 1, 0x00, 0x00]);
      RanThen(done, CmdWithDataPlan(Cmd.DRIVER_CONTROL, [Panel.HEIGHT - 1, 0x00, 0x00], ch),
              faults, t0, n0, t1, n1, interface.trace, interface.transfers, ok);
      done := done + CmdWithDataPlan(Cmd.DRIVER_CONTROL, [Panel.HEIGHT - 1, 0x00, 0x00], ch);
      if !ok { RanStop(done, plan, faults, t0, n0, interface.trace, interface.transfers); return; }

      t1, n1 := interface.trace, interface.transfers;
      ok := interface.CmdWithData(Cmd.DATA_ENTRY_MODE, [Flag.DATA_ENTRY_INCRY_INCRX]);
      RanThen(done, CmdWithDataPlan(Cmd.DATA_ENTRY_MODE, [Flag.DATA_ENTRY_INCRY_INCRX], ch),
              faults, t0, n0, t1, n1, interface.trace, interface.transfers, ok);
      done := done + CmdWithDataPlan(Cmd.DATA_ENTRY_MODE, [Flag.DATA_ENTRY_INCRY_INCRX], ch);
      if !ok { RanStop(done, plan, faults, t0, n0, interface.trace, interface.transfers); return; }

      t1, n1 := interface.trace, interface.transfers;
      ok := UseFullFrame();
      RanThen(done, FullFramePlan(ch), faults, t0, n0, t1, n1, interface.trace, interface.transfers, ok);
      done := done + FullFramePlan(ch);
      if !ok { RanStop(done, plan, faults, t0, n0, interface.trace, interface.transfers); return; }

      t1, n1 := interface.trace, interface.transfers;
      ok := interface.CmdWithData(Cmd.BORDER_WAVEFORM_CONTROL,
                                  [Flag.BORDER_WAVEFORM_FOLLOW_LUT | Flag.BORDER_WAVEFORM_LUT1]);
      RanThen(done, CmdWithDataPlan(Cmd.BORDER_WAVEFORM_CONTROL,
                                    [Flag.BORDER_WAVEFORM_FOLLOW_LUT | Flag.BORDER_WAVEFORM_LUT1], ch),
              faults, t0, n0, t1, n1, interface.trace, interface.transfers, ok);
      done := done + CmdWithDataPlan(Cmd.BORDER_WAVEFORM_CONTROL,
                                     [Flag.BORDER_WAVEFORM_FOLLOW_LUT | Flag.BORDER_WAVEFORM_LUT1], ch);
      if !ok { RanStop(done, plan, faults, t0, n0, interface.trace, interface.transfers); return; }

      t1, n1 := interface.trace, interface.transfers;
      ok := interface.CmdWithData(Cmd.TEMP_CONTROL, [Flag.INTERNAL_TEMP_SENSOR]);
      RanThen(done, CmdWithDataPlan(Cmd.TEMP_CONTROL, [Flag.INTERNAL_TEMP_SENSOR], ch),
              faults, t0, n0, t1, n1, interface.trace, interface.transfers, ok);
      done := done + CmdWithDataPlan(Cmd.TEMP_CONTROL, [Flag.INTERNAL_TEMP_SENSOR], ch);
      if !ok { RanStop(done, plan, faults, t0, n0, interface.trace, interface.transfers); return; }

      t1, n1 := interface.trace, interface.transfers;
      interface.WaitUntilIdle();
      RanThen(done, [Wait], faults, t0, n0, t1, n1, interface.trace, interface.transfers, true);
    }

    /** `update_bw_frame`. */
    method UpdateBwFrame(buffer: seq<Byte>) returns (ok: bool)
      modifies interface
      ensures interface.Performed(UpdateFramePlan(Cmd.WRITE_BW_DATA, buffer, interface.chunked),
                                  old(interface.trace), old(interface.transfers), ok)
    {
      ok := UpdateFrame(Cmd.WRITE_BW_DATA, buffer);
    }

    /** `update_red_frame`. */
    method UpdateRedFrame(buffer: seq<Byte>) returns (ok: bool)
      modifies interface
      ensures interface.Performed(UpdateFramePlan(Cmd.WRITE_RED_DATA, buffer, interface.chunked),
                                  old(interface.trace), old(interface.transfers), ok)
    {
      ok := UpdateFrame(Cmd.WRITE_RED_DATA, buffer);
    }

    /** The body shared by the two frame updates. */
    method UpdateFrame(opcode: Byte, buffer: seq<Byte>) returns (ok: bool)
      modifies interface
      ensures interface.Performed(UpdateFramePlan(opcode, buffer, interface.chunked),
                                  old(interface.trace), old(interface.transfers), ok)
    {
      ghost var faults, ch := interface.faults, interface.chunked;
      ghost var t0, n0 := interface.trace, interface.transfers;
      ok := UseFullFrame();
      if !ok {
        RanStop(FullFramePlan(ch), UpdateFramePlan(opcode, buffer, ch), faults, t0, n0,
                interface.trace, interface.transfers);
        return;
      }
      ghost var t1, n1 := interface.trace, interface.transfers;
      ok := interface.CmdWithData(opcode, buffer);
      RanThen(FullFramePlan(ch), CmdWithDataPlan(opcode, buffer, ch), faults, t0, n0, t1, n1,
              interface.trace, interface.transfers, ok);
    }

    /** `display_frame`. */
    method DisplayFrame() returns (ok: bool)
      modifies interface
      ensures interface.Performed(DisplayFramePlan(interface.chunked), old(interface.trace),
                                  old(interface.transfers), ok)
    {
      ghost var faults, ch := interface.faults, interface.chunked;
      ghost var t0, n0 := interface.trace, interface.transfers;
      ghost var first := CmdWithDataPlan(Cmd.UPDATE_DISPLAY_CTRL2, [Flag.DISPLAY_MODE_1], ch);
      ok := interface.CmdWithData(Cmd.UPDATE_DISPLAY_CTRL2, [Flag.DISPLAY_MODE_1]);
      if !ok {
        RanStop(first, DisplayFramePlan(ch), faults, t0, n0, interface.trace, interface.transfers);
        return;
      }
      ghost var t1, n1 := interface.trace, interface.transfers;
      ok := interface.Cmd(Cmd.MASTER_ACTIVATE);
      RanThen(first, CmdPlan(Cmd.MASTER_ACTIVATE, ch), faults, t0, n0, t1, n1,
              interface.trace, interface.transfers, ok);
      ghost var done := first + CmdPlan(Cmd.MASTER_ACTIVATE, ch);
      if !ok {
        RanStop(done, DisplayFramePlan(ch), faults, t0, n0, interface.trace, interface.transfers);
        return;
      }
      t1, n1 := interface.trace, interface.transfers;
      interface.WaitUntilIdle();
      RanThen(done, [Wait], faults, t0, n0, t1, n1, interface.trace, interface.transfers, true);
    }

    /** `clear_bw_frame`: the black/white plane is filled with White's byte. */
    method ClearBwFrame() returns (ok: bool)
      modifies interface
      ensures interface.Performed(ClearFramePlan(Cmd.WRITE_BW_DATA, White.ByteValue(), interface.chunked),
                                  old(interface.trace), old(interface.transfers), ok)
    {
      ok := ClearFrame(Cmd.WRITE_BW_DATA, White.ByteValue());
    }

    /** `clear_red_frame`: the red plane is filled with the inverse of White's byte. */
    method ClearRedFrame() returns (ok: bool)
      modifies interface
      ensures interface.Performed(ClearFramePlan(Cmd.WRITE_RED_DATA, White.Inverse().ByteValue(),
                                                 interface.chunked),
                                  old(interface.trace), old(interface.transfers), ok)
    {
      ok := ClearFrame(Cmd.WRITE_RED_DATA, White.Inverse().ByteValue());
    }

    /** The body shared by the two frame clears. */
    method ClearFrame(opcode: Byte, value: Byte) returns (ok: bool)
      modifies interface
      ensures interface.Performed(ClearFramePlan(opcode, value, interface.chunked),
                                  old(interface.trace), old(interface.transfers), ok)
    {
      ghost var faults, ch := interface.faults, interface.chunked;
      ghost var t0, n0 := interface.trace, interface.transfers;
      ghost var plan := ClearFramePlan(opcode, value, ch);
      ok := UseFullFrame();
      if !ok {
        RanStop(FullFramePlan(ch), plan, faults, t0, n0, interface.trace, interface.transfers);
        return;
      }
      ghost var t1, n1 := interface.trace, interface.transfers;
      ok := interface.Cmd(opcode);
      RanThen(FullFramePlan(ch), CmdPlan(opcode, ch), faults, t0, n0, t1, n1,
              interface.trace, interface.transfers, ok);
      ghost var done := FullFramePlan(ch) + CmdPlan(opcode, ch);
      if !ok {
        RanStop(done, plan, faults, t0, n0, interface.trace, interface.transfers);
        return;
      }
      t1, n1 := interface.trace, interface.transfers;
      ok := interface.DataXTimes(value, Panel.WIDTH as nat / 8 * Panel.HEIGHT as nat);
      RanThen(done, DataXTimesPlan(value, FRAME_BYTES, ch), faults, t0, n0, t1, n1,
              interface.trace, interface.transfers, ok);
    }

    /** `use_full_frame`. */
    method UseFullFrame() returns (ok: bool)
      modifies interface
      ensures interface.Performed(FullFramePlan(interface.chunked), old(interface.trace),
                                  old(interface.transfers), ok)
    {
      ghost var faults, ch := interface.faults, interface.chunked;
      ghost var t0, n0 := interface.trace, interface.transfers;
      ghost var area := RamAreaPlan(0, 0, Panel.WIDTH as nat - 1, Panel.HEIGHT as nat - 1, ch);
      ok := SetRamArea(0, 0, Panel.WIDTH as nat - 1, Panel.HEIGHT as nat - 1);
      if !ok {
        RanStop(area, FullFramePlan(ch), faults, t0, n0, interface.trace, interface.transfers);
        return;
      }
      ghost var t1, n1 := interface.trace, interface.transfers;
      ok := SetRamCounter(0, 0);
      RanThen(area, RamCounterPlan(0, 0, ch), faults, t0, n0, t1, n1,
              interface.trace, interface.transfers, ok);
    }

    /** `set_ram_area`; the source panics unless the window is non-empty in both directions. */
    method SetRamArea(startX: U32, startY: U32, endX: U32, endY: U32) returns (ok: bool)
      requires startX < endX && startY < endY
      modifies interface
      ensures interface.Performed(RamAreaPlan(startX, startY, endX, endY, interface.chunked),
                                  old(interface.trace), old(interface.transfers), ok)
    {
      ghost var faults, ch := interface.faults, interface.chunked;
      ghost var t0, n0 := interface.trace, interface.transfers;
      ghost var first := CmdWithDataPlan(Cmd.SET_RAMXPOS, [XAddress(startX), XAddress(endX)], ch);
      ok := interface.CmdWithData(Cmd.SET_RAMXPOS, [XAddress(startX), XAddress(endX)]);
      if !ok {
        RanStop(first, RamAreaPlan(startX, startY, endX, endY, ch), faults, t0, n0,
                interface.trace, interface.transfers);
        return;
      }
      ghost var t1, n1 := interface.trace, interface.transfers;
      ok := interface.CmdWithData(Cmd.SET_RAMYPOS, YBytes(startY) + YBytes(endY));
      RanThen(first, CmdWithDataPlan(Cmd.SET_RAMYPOS, YBytes(startY) + YBytes(endY), ch),
              faults, t0, n0, t1, n1, interface.trace, interface.transfers, ok);
    }

    /** `set_ram_counter`. */
    method SetRamCounter(x: U32, y: U32) returns (ok: bool)
      modifies interface
      ensures interface.Performed(RamCounterPlan(x, y, interface.chunked),
                                  old(interface.trace), old(interface.transfers), ok)
    {
      ghost var faults, ch := interface.faults, interface.chunked;
      ghost var t0, n0 := interface.trace, interface.transfers;
      ghost var first := CmdWithDataPlan(Cmd.SET_RAMX_COUNTER, [XAddress(x)], ch);
      ok := interface.CmdWithData(Cmd.SET_RAMX_COUNTER, [XAddress(x)]);
      if !ok {
        RanStop(first, RamCounterPlan(x, y, ch), faults, t0, n0, interface.trace, interface.transfers);
        return;
      }
      ghost var t1, n1 := interface.trace, interface.transfers;
      ok := interface.CmdWithData(Cmd.SET_RAMY_COUNTER, YBytes(y));
      RanThen(first, CmdWithDataPlan(Cmd.SET_RAMY_COUNTER, YBytes(y), ch),
              faults, t0, n0, t1, n1, interface.trace, interface.transfers, ok);
    }
  }

  // ---------------------------------------------------------------------------------------
  // What the controller receives
  // ---------------------------------------------------------------------------------------

  /** The state the controller is left in after a sequence of complete transactions that
      ended with a payload: deselected, in data mode, with `more` appended to its log. */
  function After(s: Lines, more: seq<Transaction>): Lines
  {
    s.(selected := false, dataMode := true, log := s.log + more)
  }

  /** `set_ram_area` tells the controller the window `[startX / 8, endX / 8]` (in bytes) by
      `[startY, endY]` (in rows), each truncated to the width of its payload bytes: exactly
      the window asked for when the columns are below 2048 and the rows below 2^16. */
  lemma RamAreaDelivers(s: Lines, startX: U32, startY: U32, endX: U32, endY: U32, chunked: bool)
    ensures Decode(s, RamAreaPlan(startX, startY, endX, endY, chunked)) ==
      After(s, [Command(Cmd.SET_RAMXPOS, [XAddress(startX), XAddress(endX)]),
                Command(Cmd.SET_RAMYPOS, YBytes(startY) + YBytes(endY))])
    ensures var r := Decode(s, RamAreaPlan(startX, startY, endX, endY, chunked));
      var x := r.log[|s.log|];
      var y := r.log[|s.log| + 1];
      x.Command? && x.opcode == Cmd.SET_RAMXPOS && |x.payload| == 2 &&
      x.payload[0] as int == (startX / 8) % 256 && x.payload[1] as int == (endX / 8) % 256 &&
      y.Command? && y.opcode == Cmd.SET_RAMYPOS && |y.payload| == 4 &&
      RowOf(y.payload[0], y.payload[1]) == startY % 0x1_0000 &&
      RowOf(y.payload[2], y.payload[3]) == endY % 0x1_0000
  {
    var xs := [XAddress(startX), XAddress(endX)];
    var ys := YBytes(startY) + YBytes(endY);
    CmdWithDataDelivers(s, Cmd.SET_RAMXPOS, xs, chunked);
    var s1 := After(s, [Command(Cmd.SET_RAMXPOS, xs)]);
    CmdWithDataDelivers(s1, Cmd.SET_RAMYPOS, ys, chunked);
    DecodeThen(s, CmdWithDataPlan(Cmd.SET_RAMXPOS, xs, chunked), CmdWithDataPlan(Cmd.SET_RAMYPOS, ys, chunked),
               s1, After(s, [Command(Cmd.SET_RAMXPOS, xs), Command(Cmd.SET_RAMYPOS, ys)]));
    YBytesKeepLow16(startY);
    YBytesKeepLow16(endY);
  }

  /** `set_ram_counter` tells the controller the address `(x / 8, y)`, truncated to the
      width of its payload bytes. */
  lemma RamCounterDelivers(s: Lines, x: U32, y: U32, chunked: bool)
    ensures Decode(s, RamCounterPlan(x, y, chunked)) ==
      After(s, [Command(Cmd.SET_RAMX_COUNTER, [XAddress(x)]), Command(Cmd.SET_RAMY_COUNTER, YBytes(y))])
    ensures var r := Decode(s, RamCounterPlan(x, y, chunked));
      var cx := r.log[|s.log|];
      var cy := r.log[|s.log| + 1];
      cx.Command? && cx.opcode == Cmd.SET_RAMX_COUNTER && |cx.payload| == 1 && cx.payload[0] as int == (x / 8) % 256 &&
      cy.Command? && cy.opcode == Cmd.SET_RAMY_COUNTER && |cy.payload| == 2 &&
      RowOf(cy.payload[0], cy.payload[1]) == y % 0x1_0000
  {
    var xs := [XAddress(x)];
    CmdWithDataDelivers(s, Cmd.SET_RAMX_COUNTER, xs, chunked);
    var s1 := After(s, [Command(Cmd.SET_RAMX_COUNTER, xs)]);
    CmdWithDataDelivers(s1, Cmd.SET_RAMY_COUNTER, YBytes(y), chunked);
    DecodeThen(s, CmdWithDataPlan(Cmd.SET_RAMX_COUNTER, xs, chunked), CmdWithDataPlan(Cmd.SET_RAMY_COUNTER, YBytes(y), chunked),
               s1, After(s, [Command(Cmd.SET_RAMX_COUNTER, xs), Command(Cmd.SET_RAMY_COUNTER, YBytes(y))]));
    YBytesKeepLow16(y);
  }

  /** The four commands of `use_full_frame` as the controller receives them: the window is
      columns bytes 0 to 24 and rows 0 to 199, the counters at (0, 0). */
  const FullFrameCommands: seq<Transaction> := [
    Command(Cmd.SET_RAMXPOS, [0, 24]),
    Command(Cmd.SET_RAMYPOS, [0, 0, 199, 0]),
    Command(Cmd.SET_RAMX_COUNTER, [0]),
    Command(Cmd.SET_RAMY_COUNTER, [0, 0])]

  /** The addresses of the full-panel window's corners. */
  lemma FullFrameAddresses()
    ensures XAddress(0) == 0 && XAddress(199) == 24
    ensures YBytes(0) == [0, 0] && YBytes(199) == [199, 0]
  {
  }

  /** `use_full_frame` sets exactly the full-panel window and rewinds the counters. */
  lemma FullFrameDelivers(s: Lines, chunked: bool)
    ensures Decode(s, FullFramePlan(chunked)) == After(s, FullFrameCommands)
  {
    var area := RamAreaPlan(0, 0, Panel.WIDTH as nat - 1, Panel.HEIGHT as nat - 1, chunked);
    FullFrameAddresses();
    RamAreaDelivers(s, 0, 0, 199, 199, chunked);
    var s1 := After(s, FullFrameCommands[..2]);
    var c := FullFrameCommands;
    assert [XAddress(0), XAddress(199)] == c[0].payload;
    assert YBytes(0) + YBytes(199) == c[1].payload;
    assert s1 == After(s, [c[0], c[1]]);
    RamCounterDelivers(s1, 0, 0, chunked);
    assert [XAddress(0)] == c[2].payload && YBytes(0) == c[3].payload;
    assert s.log + [c[0], c[1]] + [c[2], c[3]] == s.log + c;
    DecodeThen(s, area, RamCounterPlan(0, 0, chunked), s1, After(s, c));
  }

  /** The full-panel window holds exactly one frame: its 25 byte columns by 200 rows are the
      `buffer_len(WIDTH, HEIGHT)` bytes of a display plane, the payload size of a frame write. */
  lemma FullFrameHoldsOnePlane()
    ensures var x := FullFrameCommands[0].payload;
      var y := FullFrameCommands[1].payload;
      (x[1] - x[0] + 1) as nat * (RowOf(y[2], y[3]) - RowOf(y[0], y[1]) + 1) == FRAME_BYTES
    ensures FRAME_BYTES == Graphics.BufferLen(Panel.WIDTH as nat, Panel.HEIGHT as nat) == 5000
  {
  }

  /** The first part of `init`, up to the data entry mode: a reset pulse, a software reset,
      a wait for idle, gate setup for 200 lines, and x-then-y increment. */
  lemma InitStartDelivers(chunked: bool)
    ensures Decode(PowerUp,
      ResetPlan() +
      CmdPlan(Cmd.SW_RESET, chunked) +
      [Wait] +
      CmdWithDataPlan(Cmd.DRIVER_CONTROL, [Panel.HEIGHT - 1, 0x00, 0x00], chunked) +
      CmdWithDataPlan(Cmd.DATA_ENTRY_MODE, [Flag.DATA_ENTRY_INCRY_INCRX], chunked)) ==
      After(PowerUp, [ResetPulse, Command(Cmd.SW_RESET, []), Idle,
                      Command(Cmd.DRIVER_CONTROL, [199, 0, 0]), Command(Cmd.DATA_ENTRY_MODE, [0x03])])
  {
    var s := PowerUp;
    ResetDelivers(s);
    var s0 := s.(log := [ResetPulse]);
    CmdDelivers(s0, Cmd.SW_RESET, chunked);
    var s1 := s0.(log := [ResetPulse, Command(Cmd.SW_RESET, [])]);
    DecodeThen(s, ResetPlan(), CmdPlan(Cmd.SW_RESET, chunked), s0, s1);
    WaitDelivers(s1);
    var s2 := s1.(log := s1.log + [Idle]);
    DecodeThen(s, ResetPlan() + CmdPlan(Cmd.SW_RESET, chunked), [Wait], s1, s2);
    var p2 := ResetPlan() + CmdPlan(Cmd.SW_RESET, chunked) + [Wait];
    CmdWithDataDelivers(s2, Cmd.DRIVER_CONTROL, [Panel.HEIGHT - 1, 0x00, 0x00], chunked);
    var s3 := After(s2, [Command(Cmd.DRIVER_CONTROL, [199, 0, 0])]);
    DecodeThen(s, p2, CmdWithDataPlan(Cmd.DRIVER_CONTROL, [Panel.HEIGHT - 1, 0x00, 0x00], chunked), s2, s3);
    var p3 := p2 + CmdWithDataPlan(Cmd.DRIVER_CONTROL, [Panel.HEIGHT - 1, 0x00, 0x00], chunked);
    CmdWithDataDelivers(s3, Cmd.DATA_ENTRY_MODE, [Flag.DATA_ENTRY_INCRY_INCRX], chunked);
    var s4 := After(s3, [Command(Cmd.DATA_ENTRY_MODE, [0x03])]);
    DecodeThen(s, p3, CmdWithDataPlan(Cmd.DATA_ENTRY_MODE, [Flag.DATA_ENTRY_INCRY_INCRX], chunked), s3, s4);
  }

  /** The controller receives `init` as: a reset pulse, a software reset, a wait for idle,
      gate setup for 200 lines, x-then-y increment, the full-frame window and counters, the
      border waveform, the internal temperature sensor, and a final wait for idle. */
  lemma InitDelivers(chunked: bool)
    ensures Decode(PowerUp, InitPlan(chunked)) == After(PowerUp,
      [ResetPulse, Command(Cmd.SW_RESET, []), Idle,
       Command(Cmd.DRIVER_CONTROL, [199, 0, 0]), Command(Cmd.DATA_ENTRY_MODE, [0x03])] +
      FullFrameCommands +
      [Command(Cmd.BORDER_WAVEFORM_CONTROL, [0x05]), Command(Cmd.TEMP_CONTROL, [0x80]), Idle])
  {
    var s := PowerUp;
    var border: seq<Byte> := [Flag.BORDER_WAVEFORM_FOLLOW_LUT | Flag.BORDER_WAVEFORM_LUT1];
    Flag.FlagValues();
    var p4 := ResetPlan() +
      CmdPlan(Cmd.SW_RESET, chunked) +
      [Wait] +
      CmdWithDataPlan(Cmd.DRIVER_CONTROL, [Panel.HEIGHT - 1, 0x00, 0x00], chunked) +
      CmdWithDataPlan(Cmd.DATA_ENTRY_MODE, [Flag.DATA_ENTRY_INCRY_INCRX], chunked);
    var start := [ResetPulse, Command(Cmd.SW_RESET, []), Idle,
                  Command(Cmd.DRIVER_CONTROL, [199, 0, 0]), Command(Cmd.DATA_ENTRY_MODE, [0x03])];
    InitStartDelivers(chunked);
    var s4 := After(s, start);
    FullFrameDelivers(s4, chunked);
    var s5 := After(s, start + FullFrameCommands);
    DecodeThen(s, p4, FullFramePlan(chunked), s4, s5);
    var p5 := p4 + FullFramePlan(chunked);
    CmdWithDataDelivers(s5, Cmd.BORDER_WAVEFORM_CONTROL, border, chunked);
    var s6 := After(s, start + FullFrameCommands + [Command(Cmd.BORDER_WAVEFORM_CONTROL, [0x05])]);
    DecodeThen(s, p5, CmdWithDataPlan(Cmd.BORDER_WAVEFORM_CONTROL, border, chunked), s5, s6);
    var p6 := p5 + CmdWithDataPlan(Cmd.BORDER_WAVEFORM_CONTROL, border, chunked);
    CmdWithDataDelivers(s6, Cmd.TEMP_CONTROL, [Flag.INTERNAL_TEMP_SENSOR], chunked);
    var s7 := After(s, start + FullFrameCommands +
                       [Command(Cmd.BORDER_WAVEFORM_CONTROL, [0x05]), Command(Cmd.TEMP_CONTROL, [0x80])]);
    DecodeThen(s, p6, CmdWithDataPlan(Cmd.TEMP_CONTROL, [Flag.INTERNAL_TEMP_SENSOR], chunked), s6, s7);
    var p7 := p6 + CmdWithDataPlan(Cmd.TEMP_CONTROL, [Flag.INTERNAL_TEMP_SENSOR], chunked);
    WaitDelivers(s7);
    DecodeThen(s, p7, [Wait], s7, s7.(log := s7.log + [Idle]));
  }

  /** `update_bw_frame` / `update_red_frame` hand the controller the buffer unchanged, as the
      payload of the plane's write command, after resetting the window to the full panel. */
  lemma UpdateFrameDelivers(s: Lines, opcode: Byte, buffer: seq<Byte>, chunked: bool)
    ensures Decode(s, UpdateFramePlan(opcode, buffer, chunked)) ==
      After(s, FullFrameCommands + [Command(opcode, buffer)])
  {
    FullFrameDelivers(s, chunked);
    CmdWithDataDelivers(After(s, FullFrameCommands), opcode, buffer, chunked);
    DecodeThen(s, FullFramePlan(chunked), CmdWithDataPlan(opcode, buffer, chunked),
               After(s, FullFrameCommands), After(s, FullFrameCommands + [Command(opcode, buffer)]));
  }

  /** `clear_bw_frame` / `clear_red_frame` give the plane's write command a payload of one
      frame's worth of the fill byte. */
  lemma ClearFrameDelivers(s: Lines, opcode: Byte, value: Byte, chunked: bool)
    ensures Decode(s, ClearFramePlan(opcode, value, chunked)) ==
      After(s, FullFrameCommands + [Command(opcode, Filled(value, FRAME_BYTES))])
  {
    FullFrameDelivers(s, chunked);
    var s1 := After(s, FullFrameCommands);
    CmdDelivers(s1, opcode, chunked);
    var s2 := s1.(selected := false, dataMode := false, log := s1.log + [Command(opcode, [])]);
    DecodeThen(s, FullFramePlan(chunked), CmdPlan(opcode, chunked), s1, s2);
    DataXTimesDelivers(s2, value, FRAME_BYTES, chunked);
    assert [] + Filled(value, FRAME_BYTES) == Filled(value, FRAME_BYTES);
    DecodeThen(s, FullFramePlan(chunked) + CmdPlan(opcode, chunked), DataXTimesPlan(value, FRAME_BYTES, chunked),
               s2, After(s, FullFrameCommands + [Command(opcode, Filled(value, FRAME_BYTES))]));
  }

  /** As far as the controller can tell, clearing a plane is uploading a freshly made plane:
      `clear_bw_frame` sends what `update_bw_frame` sends for a new `bw()` buffer, and
      `clear_red_frame` what `update_red_frame` sends for a new `red()` buffer. */
  lemma ClearIsFreshUpload(s: Lines, chunked: bool)
    ensures Decode(s, ClearFramePlan(Cmd.WRITE_BW_DATA, White.ByteValue(), chunked)) ==
      Decode(s, UpdateFramePlan(Cmd.WRITE_BW_DATA,
                                Filled(White.ByteValue(), Graphics.BufferLen(Panel.WIDTH as nat, Panel.HEIGHT as nat)), chunked))
    ensures Decode(s, ClearFramePlan(Cmd.WRITE_RED_DATA, White.Inverse().ByteValue(), chunked)) ==
      Decode(s, UpdateFramePlan(Cmd.WRITE_RED_DATA,
                                Filled(White.Inverse().ByteValue(), Graphics.BufferLen(Panel.WIDTH as nat, Panel.HEIGHT as nat)), chunked))
  {
    FullFrameHoldsOnePlane();
    ClearFrameDelivers(s, Cmd.WRITE_BW_DATA, White.ByteValue(), chunked);
    ClearFrameDelivers(s, Cmd.WRITE_RED_DATA, White.Inverse().ByteValue(), chunked);
    UpdateFrameDelivers(s, Cmd.WRITE_BW_DATA, Filled(White.ByteValue(), FRAME_BYTES), chunked);
    UpdateFrameDelivers(s, Cmd.WRITE_RED_DATA, Filled(White.Inverse().ByteValue(), FRAME_BYTES), chunked);
  }

  /** The controller receives `display_frame` as: refresh sequence 0xF7, master activation,
      and a wait until the refresh is over. */
  lemma DisplayFrameDelivers(s: Lines, chunked: bool)
    ensures Decode(s, DisplayFramePlan(chunked)) == s.(selected := false, dataMode := false,
      log := s.log + [Command(Cmd.UPDATE_DISPLAY_CTRL2, [0xF7]), Command(Cmd.MASTER_ACTIVATE, []), Idle])
  {
    var first := CmdWithDataPlan(Cmd.UPDATE_DISPLAY_CTRL2, [Flag.DISPLAY_MODE_1], chunked);
    CmdWithDataDelivers(s, Cmd.UPDATE_DISPLAY_CTRL2, [Flag.DISPLAY_MODE_1], chunked);
    var s1 := After(s, [Command(Cmd.UPDATE_DISPLAY_CTRL2, [0xF7])]);
    CmdDelivers(s1, Cmd.MASTER_ACTIVATE, chunked);
    var s2 := s1.(selected := false, dataMode := false, log := s1.log + [Command(Cmd.MASTER_ACTIVATE, [])]);
    DecodeThen(s, first, CmdPlan(Cmd.MASTER_ACTIVATE, chunked), s1, s2);
    WaitDelivers(s2);
    DecodeThen(s, first + CmdPlan(Cmd.MASTER_ACTIVATE, chunked), [Wait], s2, s2.(log := s2.log + [Idle]));
  }

  /** `display_frame` waits for the refresh to finish iff both of its commands went through:
      after a failed transfer it returns at once. */
  lemma DisplayFrameWaitsOnlyOnSuccess(chunked: bool, n: nat, faults: set<nat>)
    ensures Wait in Exec(DisplayFramePlan(chunked), n, faults).events <==>
            Exec(DisplayFramePlan(chunked), n, faults).ok
  {
    var plan := DisplayFramePlan(chunked);
    var head := CmdWithDataPlan(Cmd.UPDATE_DISPLAY_CTRL2, [Flag.DISPLAY_MODE_1], chunked) +
                CmdPlan(Cmd.MASTER_ACTIVATE, chunked);
    TransactionsPlanned(Cmd.UPDATE_DISPLAY_CTRL2, [Flag.DISPLAY_MODE_1], chunked);
    TransactionsPlanned(Cmd.MASTER_ACTIVATE, [], chunked);
    assert plan == head + [Wait];
    assert Wait !in head;
    assert Planned(plan);
    ExecSucceeds(plan, n, faults);
    var r := Exec(plan, n, faults);
    if !r.ok {
      ExecStops(plan, n, faults);
      var k := |r.events| - 1;
      assert k < |head|;
      assert plan[..k] == head[..k];
      assert Wait !in r.events;
    }
  }

  /** Every operation of the driver is framed by chip select: each transaction selects the
      controller, transfers, and deselects it, and the data/command line only changes while
      the controller is deselected. */
  lemma DriverPlansBracketed(opcode: Byte, buffer: seq<Byte>, value: Byte, chunked: bool)
    ensures Bracketed(InitPlan(chunked))
    ensures Bracketed(UpdateFramePlan(opcode, buffer, chunked))
    ensures Bracketed(DisplayFramePlan(chunked))
    ensures Bracketed(ClearFramePlan(opcode, value, chunked))
  {
    var border: seq<Byte> := [Flag.BORDER_WAVEFORM_FOLLOW_LUT | Flag.BORDER_WAVEFORM_LUT1];
    var xs0 := [XAddress(0), XAddress(Panel.WIDTH as nat - 1)];
    var ys0 := YBytes(0) + YBytes(Panel.HEIGHT as nat - 1);
    TransactionsBracketed(Cmd.SET_RAMXPOS, xs0, chunked);
    TransactionsBracketed(Cmd.SET_RAMYPOS, ys0, chunked);
    BracketedAppend(CmdWithDataPlan(Cmd.SET_RAMXPOS, xs0, chunked), CmdWithDataPlan(Cmd.SET_RAMYPOS, ys0, chunked));
    TransactionsBracketed(Cmd.SET_RAMX_COUNTER, [XAddress(0)], chunked);
    TransactionsBracketed(Cmd.SET_RAMY_COUNTER, YBytes(0), chunked);
    BracketedAppend(CmdWithDataPlan(Cmd.SET_RAMX_COUNTER, [XAddress(0)], chunked),
                    CmdWithDataPlan(Cmd.SET_RAMY_COUNTER, YBytes(0), chunked));
    BracketedAppend(RamAreaPlan(0, 0, Panel.WIDTH as nat - 1, Panel.HEIGHT as nat - 1, chunked), RamCounterPlan(0, 0, chunked));
    var full := FullFramePlan(chunked);

    TransactionsBracketed(Cmd.SW_RESET, [], chunked);
    TransactionsBracketed(Cmd.DRIVER_CONTROL, [Panel.HEIGHT - 1, 0x00, 0x00], chunked);
    TransactionsBracketed(Cmd.DATA_ENTRY_MODE, [Flag.DATA_ENTRY_INCRY_INCRX], chunked);
    TransactionsBracketed(Cmd.BORDER_WAVEFORM_CONTROL, border, chunked);
    TransactionsBracketed(Cmd.TEMP_CONTROL, [Flag.INTERNAL_TEMP_SENSOR], chunked);
    var i1 := ResetPlan() + CmdPlan(Cmd.SW_RESET, chunked);
    BracketedAppend(ResetPlan(), CmdPlan(Cmd.SW_RESET, chunked));
    BracketedAppend(i1, [Wait]);
    var i2 := i1 + [Wait] + CmdWithDataPlan(Cmd.DRIVER_CONTROL, [Panel.HEIGHT - 1, 0x00, 0x00], chunked);
    BracketedAppend(i1 + [Wait], CmdWithDataPlan(Cmd.DRIVER_CONTROL, [Panel.HEIGHT - 1, 0x00, 0x00], chunked));
    var i3 := i2 + CmdWithDataPlan(Cmd.DATA_ENTRY_MODE, [Flag.DATA_ENTRY_INCRY_INCRX], chunked);
    BracketedAppend(i2, CmdWithDataPlan(Cmd.DATA_ENTRY_MODE, [Flag.DATA_ENTRY_INCRY_INCRX], chunked));
    BracketedAppend(i3, full);
    var i4 := i3 + full + CmdWithDataPlan(Cmd.BORDER_WAVEFORM_CONTROL, border, chunked);
    BracketedAppend(i3 + full, CmdWithDataPlan(Cmd.BORDER_WAVEFORM_CONTROL, border, chunked));
    var i5 := i4 + CmdWithDataPlan(Cmd.TEMP_CONTROL, [Flag.INTERNAL_TEMP_SENSOR], chunked);
    BracketedAppend(i4, CmdWithDataPlan(Cmd.TEMP_CONTROL, [Flag.INTERNAL_TEMP_SENSOR], chunked));
    BracketedAppend(i5, [Wait]);

    TransactionsBracketed(opcode, buffer, chunked);
    BracketedAppend(full, CmdWithDataPlan(opcode, buffer, chunked));

    TransactionsBracketed(Cmd.UPDATE_DISPLAY_CTRL2, [Flag.DISPLAY_MODE_1], chunked);
    TransactionsBracketed(Cmd.MASTER_ACTIVATE, [], chunked);
    BracketedAppend(CmdWithDataPlan(Cmd.UPDATE_DISPLAY_CTRL2, [Flag.DISPLAY_MODE_1], chunked),
                    CmdPlan(Cmd.MASTER_ACTIVATE, chunked));
    BracketedAppend(CmdWithDataPlan(Cmd.UPDATE_DISPLAY_CTRL2, [Flag.DISPLAY_MODE_1], chunked) +
                    CmdPlan(Cmd.MASTER_ACTIVATE, chunked), [Wait]);

    BracketedAppend(full, CmdPlan(opcode, chunked));
    DataXTimesBracketed(value, FRAME_BYTES, chunked);
    BracketedAppend(full + CmdPlan(opcode, chunked), DataXTimesPlan(value, FRAME_BYTES, chunked));
  }
}
