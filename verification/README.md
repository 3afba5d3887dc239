# SSD1681 e-paper driver, modelled in Dafny

This project models the core of `ssd1681`, a Rust driver for the 200x200 SSD1681 e-paper
controller, and proves properties of it. The driver has three layers, and each is modelled in
its own module.

- **Framebuffer addressing engine** (`Graphics`, from `src/graphics.rs`).
  - A `Display1in54` holds one bit-packed plane of `buffer_len(200, 200) = 5000` bytes.
  - The plane has a rotation and an `is_inverted` polarity flag.
  - `outside_display`, `find_rotation` and `find_position` turn a logical point into a byte
    index and an MSB-first bit mask.
  - `draw_helper` sets or clears that one bit. `clear_buffer` floods the plane with one byte.
  - The class keeps the plane as an `array` and updates it in place.
  - The pure arithmetic consists of functions, specified by lemmas:
    - bounds by rotation;
    - no underflow;
    - index inside the plane;
    - a single-bit mask;
    - distinct pixels get distinct bits;
    - read-back after a draw;
    - the repository's own tests, stated as lemmas.
- **Display interface** (`Interface`, from `src/interface.rs`).
  - `DisplayInterface` is a class whose `trace` field records what happens on the lines, as
    `Wire.Event`s:
    - chip select low/high;
    - data/command low/high;
    - reset low/high;
    - a delay;
    - a wait for idle;
    - an SPI transfer that succeeded or failed.
  - The SPI device that the Rust code passes to every call is folded into the object as a
    fault set: transfer number `k` fails iff `k in faults`.
  - Every operation has a *plan*, the trace it produces when every transfer succeeds.
  - Every method is proved to perform its plan under any fault set. `Wire.Exec` runs a plan
    and stops right after the first failed transfer, as each `?` of the source does.
- **Command protocol** (`Driver`, from `src/driver.rs`, and `Cmd`, `Flag`, `Panel`, from
  `src/lib.rs`).
  - `Ssd1681` owns the interface. Each of its operations is proved to perform the plan that
    chains the interface plans in the source's order, with the source's early returns.
  - What the plans mean is stated through `Controller.Decode`, an independent model of the
    controller's side of the wire. `Decode` turns a trace into the list of transactions the
    controller receives: commands with their payloads, reset pulses and waits for idle.
  - The lemmas `*Delivers` give the exact command list of every operation, for example
    `init`, `use_full_frame`, `clear_*_frame` and `display_frame`.
  - `Bracketed` states chip-select discipline: every transfer inside a chip-select bracket,
    and the data/command line steady inside each bracket.

Assumptions:

- The crate's `color` module is not part of this model.
  - `Color` is a two-value datatype. The graphics tests fix two of its facts:
    - Black's byte is 0x00: eight inked pixels clear byte 0, whatever White's byte is
      (`graphics_rotation_0`, `src/graphics.rs:288`);
    - `White.inverse()` has Black's byte (`buffer_clear`, `src/graphics.rs:248`).
  - The rest is assumed: White's byte is 0xFF, and `inverse` swaps the two colours (so
    `Black.inverse()` is White). `Colors.InverseFlipsBits`, `Graphics.ClearReadsAs` and
    `Graphics.FirstPixelOfFreshBwPlane` rest on White's byte being 0xFF.
  - Drawing `BinaryColor::On` is ink: black on the black/white plane, red on the red plane.
- A transfer that the bus reports as failed delivers nothing the controller can rely on. The
  controller model ignores it.
- The Linux `cfg!` switch between chunked and whole writes is the interface's `chunked` flag.

## Notes on the source

- `init` waits for idle after the software reset (`src/driver.rs:52-54`) and once more at the
  end (`src/driver.rs:73`). It does not wait between the hardware reset and the software
  reset.
- `reset` pulses the reset line once: low, a delay, high, a delay (`src/interface.rs:100-105`).
- The driver has no partial-window update and no partial refresh operation.
- Pin errors never become transport errors:
  - `cmd`, `data`, `write` and `reset` `unwrap` their pin results, so a pin error panics
    (`src/interface.rs:51`, `60`, `101-103`, `110`, `124`);
  - `data_x_times` ignores an error of the data/command pin (`src/interface.rs:86`);
  - `wait_until_idle` treats an error reading the busy pin as busy (`src/interface.rs:96`).
- `clear_buffer(c)` fills an inverted plane with `c.inverse()`'s byte
  (`src/graphics.rs:35-39`). So `clear_buffer(White)` on the black/white plane leaves every
  pixel reading as ink, exactly as the `buffer_clear` test asserts (`Graphics.ClearReadsAs`).

## Model

| member | source | states |
|---|---|---|
| `Bytes.AsByte` | src/driver.rs:147-162 | an `as u8` cast keeps the value modulo 256 |
| `Bytes.LittleEndianSplit` | src/driver.rs:153-161 | for any value below 2^16, the low and high bytes read back little-endian give the value again |
| `Cmd.OpcodesDistinct` | src/lib.rs:37-53 | there are thirteen opcodes and no two share a byte value |
| `Flag.FlagValues` | src/lib.rs:55-61 | the two border flags are bit-disjoint and OR to 0x05; the data-entry flag is 0b11, the temperature-sensor flag 0x80, the display mode 0xF7 |
| `Panel.PlaneLength` | src/lib.rs:63-67 | `WIDTH/8*HEIGHT`, `(WIDTH+7)/8*HEIGHT` and `WIDTH*HEIGHT/8` (the buffer array's declared size) are all 5000 |
| `Panel.LastLineFitsByte` | src/lib.rs:63-64 | `HEIGHT - 1` on a `u8` does not wrap: it is 199 |
| `Colors.InverseFlipsBits` | src/graphics.rs:238-250 | inverting a colour flips every bit of its byte value; inversion is an involution without fixed points |
| `Graphics.BytesPerRow` | src/graphics.rs:223-228 | the row length is the least number of bytes that hold `width` bits |
| `Graphics.BufferLen` | src/graphics.rs:223-228 | a plane is whole bytes per row times the number of rows |
| `Graphics.OutsideDisplay` | src/graphics.rs:168-172 | a point with a negative coordinate is outside under every rotation |
| `Graphics.InsideIffOnPanel` | src/graphics.rs:169-211 | a point is inside iff it is non-negative, its rotation does not underflow, and the rotated pixel lies on the `width` x `height` panel (both directions) |
| `Graphics.SquareBoundsIgnoreRotation` | src/graphics.rs:174-186 | on a square panel the bounds check gives the same answer under every rotation |
| `Graphics.FindRotation` | src/graphics.rs:189-211 | the rotated point lands on the panel iff the logical point is inside the rotation's bounds (width and height swapped for the quarter turns); `UnrotateUndoesRotation` and `RotationCoversPanel` below show it is a bijection |
| `Graphics.UnrotateUndoesRotation` | src/graphics.rs:189-211 | for every inside point, `find_rotation` does not underflow, lands on the panel and is undone by the inverse rotation |
| `Graphics.RotationCoversPanel` | src/graphics.rs:189-211 | every panel pixel is the rotated image of some inside point, under every rotation |
| `Graphics.MaskMsbFirst` | src/graphics.rs:219 | the mask `0x80 >> k` has exactly one bit set, and it is bit `7 - k` (column 0 is the most significant bit) |
| `Graphics.MasksDisjoint` | src/graphics.rs:219 | masks of different columns of a byte share no bit |
| `Graphics.RowMajorUnique` | src/graphics.rs:218 | the byte index `column + bytesPerRow * row` determines the byte column and the row |
| `Graphics.RowMajorInBounds` | src/graphics.rs:218 | the byte index of a panel pixel is below `buffer_len(width, height)` |
| `Graphics.FindPosition` | src/graphics.rs:215-221 | the returned mask has exactly one bit set; `PositionInBuffer`, `PositionsDistinct` and `MaskMsbFirst` give its bounds, injectivity and bit order |
| `Graphics.PositionInBuffer` | src/graphics.rs:215-221 | for every inside point and rotation, `find_position` does not underflow, its index is below `buffer_len` and its mask is a single bit (the bound that the `rotation_overflow` test checks, lines 263-276) |
| `Graphics.PositionsDistinct` | src/graphics.rs:215-221 | two different inside points get different bytes or disjoint masks |
| `Graphics.Draw` | src/graphics.rs:64-103 | plotting a pixel keeps the plane's length (what it changes is stated by the next rows) |
| `Graphics.DrawChangesOneBit` | src/graphics.rs:64-103 | an outside pixel leaves the plane unchanged; an inside one changes only the masked bit of one in-range byte, which becomes 1 iff the colour is `On` on a plain plane or `Off` on an inverted one |
| `Graphics.PaintKeepsOtherBits` | src/graphics.rs:84-101 | clearing or setting the masked bits leaves every bit outside the mask as it was |
| `Graphics.DrawReadBack` | src/graphics.rs:64-103 | after a plot, the plotted point reads the ink bit and every other inside point reads what it read before |
| `Graphics.ClearReadsAs` | src/graphics.rs:34-44 | after `clear_buffer(c)`, every inside pixel reads as drawn `On` when `c` is White and as drawn `Off` when `c` is Black, on either plane |
| `Graphics.DrawAll` | src/graphics.rs:282-284 | plotting a run of pixels keeps the plane's length |
| `Graphics.FirstPixelOfFreshBwPlane` | src/graphics.rs:279-293 | inking (0, 0) on a fresh black/white plane clears bit 0x80 of byte 0 and nothing else |
| `Graphics.FirstRowPosition` | src/graphics.rs:215-221 | unrotated, pixel (k, 0) of the 200x200 panel is byte 0 with mask `0x80 >> k` |
| `Graphics.InkFirstRowPixel` | src/graphics.rs:282-288 | inking pixel (k, 0) of an inverted unrotated 200x200 plane clears exactly bit `7 - k` of byte 0 |
| `Graphics.BlackRunOnFreshBwPlane` | src/graphics.rs:279-293 | the `graphics_rotation_0` test: inking (0, 0) through (7, 0) on a fresh black/white plane makes byte 0 Black's byte and leaves every other byte White's |
| `Graphics.Display1in54.Bw` | src/graphics.rs:114-121 | a fresh plane of `buffer_len(200, 200)` bytes, all White's, inverted, unrotated |
| `Graphics.Display1in54.Red` | src/graphics.rs:123-131 | a fresh plane of `buffer_len(200, 200)` bytes, all `White.inverse()`'s, not inverted, unrotated |
| `Graphics.Display1in54.SetRotation` | src/graphics.rs:155-157 | only the rotation changes |
| `Graphics.Display1in54.ClearBuffer` | src/graphics.rs:34-44 | every byte becomes `c.inverse()`'s byte on an inverted plane and `c`'s byte otherwise |
| `Graphics.Display1in54.DrawHelper` | src/graphics.rs:64-103 | the plane is updated in place to exactly `Draw` of its old contents, whose properties are the lemmas above |
| `Graphics.Display1in54.PaintPixelByte` | src/graphics.rs:84-101 | the four colour/polarity branches clear the bit exactly when the ink bit is 0 and set it otherwise |
| `Graphics.Display1in54.DrawPixel` | src/graphics.rs:137-139 | plotting on the 200x200 panel is `draw_helper` with the panel's dimensions |
| `Wire.ExecAppend` | src/interface.rs:67-75 | running two plans in a row runs the second only if the first succeeded (the `?` early return) |
| `Wire.RanStop` | src/driver.rs:92-100 | a failure in a prefix of an operation's plan ends the whole operation: nothing after the failed transfer happens |
| `Wire.ExecSucceeds` | src/interface.rs:108-127 | a run succeeds iff none of its transfers is faulty, and then it performs exactly the plan and uses one transfer number per transfer |
| `Wire.ExecStops` | src/interface.rs:116-120 | a failed run performs the plan up to the failing transfer, records that transfer as failed and stops |
| `Interface.Chunks` | src/interface.rs:116 | `chunks(4096)` yields `ceil(len / 4096)` pieces, each holding 1 to 4096 bytes (`ChunksPartition` adds that they concatenate back to the data) |
| `Interface.ChunksPartition` | src/interface.rs:115-118 | `chunks(4096)` pieces concatenate back to the data; each holds 1 to 4096 bytes, all but the last exactly 4096, and there are `ceil(len / 4096)` of them |
| `Interface.DisplayInterface.constructor` | src/interface.rs:38-46 | nothing has happened on the lines yet |
| `Interface.DisplayInterface.SpiWrite` | src/interface.rs:116-120 | one transfer, recorded as failed iff its number is a fault |
| `Interface.DisplayInterface.Write` | src/interface.rs:108-127 | performs chip select low, the transfers (one per chunk on the chunked path), chip select high, and returns right after a failed transfer |
| `Interface.DisplayInterface.Cmd` | src/interface.rs:49-55 | performs data/command low, then a write of `[command]` |
| `Interface.DisplayInterface.Data` | src/interface.rs:58-64 | performs data/command high, then a write of the data |
| `Interface.DisplayInterface.CmdWithData` | src/interface.rs:67-75 | performs `cmd`, then, only if it succeeded, `data` |
| `Interface.DisplayInterface.DataXTimes` | src/interface.rs:79-92 | performs data/command high, then `repetitions` writes of `[value]`, stopping at the first failed one |
| `Interface.DisplayInterface.WaitUntilIdle` | src/interface.rs:95-97 | records one wait for idle |
| `Interface.DisplayInterface.Reset` | src/interface.rs:100-105 | performs reset low, a 10 ms delay, reset high, a 10 ms delay |
| `Interface.CmdIsOneByteWrite` | src/interface.rs:49-55 | `cmd` is data/command low and one chip-select-framed transfer of exactly `[command]`, on either path |
| `Interface.DataXTimesTransfers` | src/interface.rs:79-92 | each repetition is a chip-select-framed transfer of `[value]`, and there are exactly `repetitions` transfers (none for 0) |
| `Interface.ChunkedWriteCarriesData` | src/interface.rs:113-121 | on the chunked path, the transfers between chip select low and high carry the chunks in order, each at most 4096 bytes, and together the data |
| `Interface.DecodeChunkWrites` | src/interface.rs:115-118 | chunked transfers in data mode extend the open command by the whole data |
| `Interface.DecodeDataWrite` | src/interface.rs:108-127 | a write in data mode appends its bytes to the open command's payload and leaves the controller deselected |
| `Interface.CmdDelivers` | src/interface.rs:49-55 | the controller receives `cmd(c)` as the command `c` with an empty payload |
| `Interface.DataDelivers` | src/interface.rs:58-64 | the controller receives `data(d)` as `d` appended to the payload of the open command |
| `Interface.CmdWithDataDelivers` | src/interface.rs:67-75 | the controller receives exactly one command carrying exactly `data`, on either path |
| `Interface.DataXTimesDelivers` | src/interface.rs:79-92 | after a command, the controller receives exactly `n` copies of the byte as its payload |
| `Interface.ResetDelivers` | src/interface.rs:100-105 | the controller sees exactly one reset pulse |
| `Interface.WaitDelivers` | src/interface.rs:95-97 | the controller log gains one wait for idle |
| `Interface.WriteBracketed` | src/interface.rs:108-127 | a write selects the controller before its transfers and deselects it after them |
| `Interface.TransactionsBracketed` | src/interface.rs:49-105 | `cmd`, `data`, `cmd_with_data` and `reset` are chip-select framed and never change data/command inside a selection |
| `Interface.TransactionsPlanned` | src/interface.rs:49-75 | `cmd` and `cmd_with_data` plan only transfers that have not failed yet, and never wait for the busy line |
| `Interface.DataXTimesBracketed` | src/interface.rs:79-92 | `data_x_times` is chip-select framed, one bracket per byte |
| `Interface.WriteFailureLeavesSelected` | src/interface.rs:108-127 | when a transfer of `write` fails, chip select stays low: the trace contains no chip-select high |
| `Driver.XAddress` | src/driver.rs:147-151 | for every column the X register byte is `(x >> 3) as u8`, the byte-granular column modulo 256; below column 2048 it is exactly `x / 8` |
| `Driver.YBytes` | src/driver.rs:153-161 | a row address is two payload bytes |
| `Driver.YBytesRoundTrip` | src/driver.rs:166-176 | for every row below 2^16, reading the two bytes little-endian gives the row back |
| `Driver.YBytesKeepLow16` | src/driver.rs:153-161 | for every `u32` row, the two bytes read back little-endian give the row modulo 2^16 |
| `Driver.YBytesWrap` | src/driver.rs:153-161 | rows 2^16 apart are encoded alike: the upper bits of a `u32` row are dropped |
| `Driver.Ssd1681.constructor` | src/driver.rs:40-41 | the driver owns the given interface |
| `Driver.Ssd1681.New` | src/driver.rs:29-44 | runs `init` and returns a driver iff it succeeded |
| `Driver.Ssd1681.Init` | src/driver.rs:47-75 | performs the `init` plan, stopping after the first failed transfer |
| `Driver.Ssd1681.UpdateBwFrame` | src/driver.rs:78-82 | performs the full-frame window, then `WRITE_BW_DATA` with the buffer |
| `Driver.Ssd1681.UpdateRedFrame` | src/driver.rs:85-89 | performs the full-frame window, then `WRITE_RED_DATA` with the buffer |
| `Driver.Ssd1681.UpdateFrame` | src/driver.rs:78-89 | the shared body: the full-frame window, then the plane's write command with the buffer, stopping after a failure |
| `Driver.Ssd1681.DisplayFrame` | src/driver.rs:92-100 | performs `UPDATE_DISPLAY_CTRL2 [0xF7]`, `MASTER_ACTIVATE` and a wait, stopping after a failure |
| `Driver.Ssd1681.ClearBwFrame` | src/driver.rs:103-113 | performs the full-frame window, `WRITE_BW_DATA`, then one frame of White's byte |
| `Driver.Ssd1681.ClearRedFrame` | src/driver.rs:116-126 | performs the full-frame window, `WRITE_RED_DATA`, then one frame of `White.inverse()`'s byte |
| `Driver.Ssd1681.ClearFrame` | src/driver.rs:103-126 | the shared body: window, write command, `WIDTH/8*HEIGHT` copies of the fill byte, stopping after a failure |
| `Driver.Ssd1681.UseFullFrame` | src/driver.rs:128-134 | performs `set_ram_area(0, 0, 199, 199)`, then, if it succeeded, `set_ram_counter(0, 0)` |
| `Driver.Ssd1681.SetRamArea` | src/driver.rs:136-164 | performs `SET_RAMXPOS` with the byte columns, then, if it succeeded, `SET_RAMYPOS` with both rows little-endian |
| `Driver.Ssd1681.SetRamCounter` | src/driver.rs:166-176 | performs `SET_RAMX_COUNTER` with the byte column, then, if it succeeded, `SET_RAMY_COUNTER` with the row little-endian |
| `Driver.RamAreaDelivers` | src/driver.rs:136-164 | for every window, the controller receives exactly two commands in that order, carrying `[startX/8, endX/8]` modulo 256 and `[startY, endY]` modulo 2^16 (so exactly the window for columns below 2048 and rows below 2^16) |
| `Driver.RamCounterDelivers` | src/driver.rs:166-176 | for every address, the controller receives exactly two commands in that order, carrying `x/8` modulo 256 and `y` modulo 2^16 |
| `Driver.FullFrameAddresses` | src/driver.rs:128-134 | the full panel's corners encode as X bytes 0 and 24, rows `[0, 0]` and `[199, 0]` |
| `Driver.FullFrameDelivers` | src/driver.rs:128-134 | `use_full_frame` delivers exactly X window `[0, 24]`, Y window `[0, 0, 199, 0]`, X counter `[0]`, Y counter `[0, 0]` |
| `Driver.FullFrameHoldsOnePlane` | src/driver.rs:103-113 | the full window holds 25 x 200 bytes, which is the `data_x_times` count and `buffer_len(200, 200)`, 5000 |
| `Driver.InitStartDelivers` | src/driver.rs:47-60 | `init` starts with a reset pulse, `SW_RESET`, a wait, `DRIVER_CONTROL [199, 0, 0]` and `DATA_ENTRY_MODE [0x03]` |
| `Driver.InitDelivers` | src/driver.rs:47-75 | the controller receives `init` as exactly this list: reset pulse, `SW_RESET`, wait, `DRIVER_CONTROL [199, 0, 0]`, `DATA_ENTRY_MODE [0x03]`, the four full-frame commands, `BORDER_WAVEFORM_CONTROL [0x05]`, `TEMP_CONTROL [0x80]`, wait |
| `Driver.UpdateFrameDelivers` | src/driver.rs:78-89 | after the full-frame commands, the controller receives the buffer unchanged as the payload of the plane's write command |
| `Driver.ClearFrameDelivers` | src/driver.rs:103-126 | after the full-frame commands, the plane's write command receives exactly 5000 copies of the fill byte |
| `Driver.ClearIsFreshUpload` | src/driver.rs:103-126 | clearing a plane delivers exactly what uploading a freshly built `bw()` or `red()` plane delivers |
| `Driver.DisplayFrameDelivers` | src/driver.rs:92-100 | the controller receives `UPDATE_DISPLAY_CTRL2 [0xF7]`, `MASTER_ACTIVATE` and a wait, in that order |
| `Driver.DisplayFrameWaitsOnlyOnSuccess` | src/driver.rs:92-100 | `display_frame` waits for idle iff both of its commands went through: after a failure, no later event is emitted |
| `Driver.DriverPlansBracketed` | src/driver.rs:47-134 | `init`, the frame updates, `display_frame` and the frame clears are chip-select framed throughout |

## Left out

- `Graphics.Display1in54.DrawHelper`: requires the plane to hold at least
  `buffer_len(width, height)` bytes. With a smaller plane the source may panic, once a plotted
  pixel's index is past the plane's end. Its only caller, `draw_pixel`, passes the panel's own dimensions.
- `Driver.Ssd1681.SetRamArea`: requires `start_x < end_x` and `start_y < end_y`. The source
  panics (`assert!`) otherwise, and a panic is not a value the model can return.
- `Graphics.FindRotation` and `Graphics.FindPosition` require that no `u32` subtraction
  underflows. In the source such a subtraction panics in debug builds and wraps in release
  builds. `draw_helper` never reaches it, because the bounds check comes first
  (`Graphics.InsideIffOnPanel`).
- `Graphics.FindPosition`: the index is an unbounded number. The `u32` overflow of
  `width + 7` and of the index for dimensions near 2^32 is not modelled.
  `PositionInBuffer`, `PositionsDistinct` and `RowMajorInBounds` are stated for every `u32`
  width and height, including those where the source's `width + 7` overflows (width
  2^32 - 7 or more). The only panel the model draws on is 200x200, where neither can happen.
- Busy-wait: `wait_until_idle` is one `Wait` event. Its termination is not modelled, nor
  is a busy-pin read error counting as busy (`src/interface.rs:96`).
- Pin errors: pin operations are infallible in the model; only SPI transfers fail. A pin
  error panics in `cmd`, `data`, `write` and `reset` (they `unwrap`), is ignored by
  `data_x_times` (`src/interface.rs:86`) and reads as busy in `wait_until_idle`; none of
  these outcomes is a transport error, so the model's results are unaffected.
- Delays are events only. The hardware timing is not modelled.
- `new`: the Rust constructor builds the interface from its pins. The model takes an
  interface that already exists.
- Embedded-graphics: the `DrawTarget` plumbing and the rasterisation of shapes, text and
  fonts are left out, because they are a foreign library. `Line::draw` in the
  `graphics_rotation_0` test is modelled as the eight pixels it plots.
- The getters `size`, `rotation`, `is_inverted` and `get_mut_buffer` are not modelled, since
  the model reads the fields directly. `buffer` is `Display1in54.Buffer`, without a
  contract.
- The `color` module is not part of this model. Its byte values are the assumption stated
  above.
- `src/cmd.rs` is not part of this model: it is an older opcode table, and the crate does
  not compile it.
- `i32` to `u32` point casts are not modelled separately: they happen only after negative
  coordinates are rejected, so they keep the value.
