/** Opcodes of the SSD1681 controller used by the driver (`mod cmd`). */
module Cmd {
  import opened Bytes

  const SW_RESET: Byte := 0x12
  const DRIVER_CONTROL: Byte := 0x01
  const DATA_ENTRY_MODE: Byte := 0x11
  const SET_RAMXPOS: Byte := 0x44
  const SET_RAMYPOS: Byte := 0x45
  const BORDER_WAVEFORM_CONTROL: Byte := 0x3C
  const TEMP_CONTROL: Byte := 0x18
  const SET_RAMX_COUNTER: Byte := 0x4E
  const SET_RAMY_COUNTER: Byte := 0x4F
  const WRITE_BW_DATA: Byte := 0x24
  const WRITE_RED_DATA: Byte := 0x26
  const UPDATE_DISPLAY_CTRL2: Byte := 0x22
  const MASTER_ACTIVATE: Byte := 0x20

  /** Every opcode of the table, in declaration order. */
  const All: seq<Byte> := [SW_RESET, DRIVER_CONTROL, DATA_ENTRY_MODE, SET_RAMXPOS, SET_RAMYPOS,
                           BORDER_WAVEFORM_CONTROL, TEMP_CONTROL, SET_RAMX_COUNTER, SET_RAMY_COUNTER,
                           WRITE_BW_DATA, WRITE_RED_DATA, UPDATE_DISPLAY_CTRL2, MASTER_ACTIVATE]

  /** No two commands share an opcode, so the controller can tell them apart. */
  lemma OpcodesDistinct()
    ensures |All| == 13
    ensures forall i, j :: 0 <= i < j < |All| ==> All[i] != All[j]
  {
  }
}

/** Payload flags of the commands (`mod flag`). */
module Flag {
  import opened Bytes

  const DATA_ENTRY_INCRY_INCRX: Byte := 0x03        // 0b11
  const INTERNAL_TEMP_SENSOR: Byte := 0x80
  const BORDER_WAVEFORM_FOLLOW_LUT: Byte := 0x04    // 0b0100
  const BORDER_WAVEFORM_LUT1: Byte := 0x01          // 0b0001
  const DISPLAY_MODE_1: Byte := 0xF7

  /** The two border-waveform flags occupy different bits and combine to 0x05;
      the other flags have the values the controller expects. */
  lemma FlagValues()
    ensures BORDER_WAVEFORM_FOLLOW_LUT & BORDER_WAVEFORM_LUT1 == 0
    ensures BORDER_WAVEFORM_FOLLOW_LUT | BORDER_WAVEFORM_LUT1 == 0x05
    ensures DATA_ENTRY_INCRY_INCRX == 3 && INTERNAL_TEMP_SENSOR == 0x80 && DISPLAY_MODE_1 == 0xF7
  {
  }
}

/** Geometry of the supported 200x200 panel. */
module Panel {
  import opened Bytes

  /** Maximum display width (a `u8`). */
  const WIDTH: Byte := 200
  /** Maximum display height (a `u8`). */
  const HEIGHT: Byte := 200

  /** The plane length computed both ways agrees: 5000 bytes. */
  lemma PlaneLength()
    ensures WIDTH as int / 8 * HEIGHT as int == (WIDTH as int + 7) / 8 * HEIGHT as int == 5000
    ensures WIDTH as int * HEIGHT as int / 8 == 5000
  {
  }

  /** `HEIGHT - 1` is computed on a `u8` without wrapping: it is the last gate line, 199. */
  lemma LastLineFitsByte()
    ensures HEIGHT - 1 == 199 && (HEIGHT - 1) as int == HEIGHT as int - 1
    ensures WIDTH as int - 1 == 199
  {
  }
}
