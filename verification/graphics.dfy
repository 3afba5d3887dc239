/** The framebuffer addressing engine: a bit-packed monochrome plane per colour, a rotation
    and a polarity flag, and the arithmetic that turns a logical pixel into a byte index
    and a bit mask inside the plane. */
module Graphics {
  import opened Bytes
  import opened Colors
  import Panel

  /** Clockwise rotation of the logical drawing frame; the default is `Rotate0`. */
  datatype DisplayRotation = Rotate0 | Rotate90 | Rotate180 | Rotate270

  /** A point of the drawing library, with signed coordinates. */
  datatype Point = Point(x: I32, y: I32)

  /** One pixel handed over by the drawing library. */
  datatype Pixel = Pixel(point: Point, color: BinaryColor)

  // ---------------------------------------------------------------------------------------
  // Pure addressing arithmetic
  // ---------------------------------------------------------------------------------------

  /** Bytes of one pixel row: the least number of whole bytes that hold `width` bits. */
  function BytesPerRow(width: nat): (c: nat)
    ensures 8 * c >= width
    ensures c == 0 || 8 * (c - 1) < width
  {
    (width + 7) / 8
  }

  /** `buffer_len`: the length of a plane, a whole number of bytes per row times the rows. */
  function BufferLen(width: nat, height: nat): (n: nat)
    ensures n == BytesPerRow(width) * height
  {
    (width + 7) / 8 * height
  }

  /** `outside_display`: the bounds check of a logical point. A quarter turn swaps the
      roles of width and height; negative coordinates are always outside. */
  function OutsideDisplay(p: Point, width: U32, height: U32, rotation: DisplayRotation): (r: bool)
    ensures p.x < 0 || p.y < 0 ==> r
  {
    if p.x < 0 || p.y < 0 then true
    else match rotation
      case Rotate0 | Rotate180 => p.x >= width || p.y >= height
      case Rotate90 | Rotate270 => p.y >= width || p.x >= height
  }

  /** No unsigned subtraction in `find_rotation` underflows for these arguments. */
  predicate RotationDefined(x: U32, y: U32, width: U32, height: U32, rotation: DisplayRotation)
  {
    match rotation
    case Rotate0 => true
    case Rotate90 => y < width
    case Rotate180 => x < width && y < height
    case Rotate270 => x < height
  }

  /** `find_rotation`: the panel pixel `(nx, ny)` a logical point lands on. */
  function FindRotation(x: U32, y: U32, width: U32, height: U32, rotation: DisplayRotation): (r: (U32, U32))
    requires RotationDefined(x, y, width, height, rotation)
    ensures r.0 < width && r.1 < height <==>
      if rotation == Rotate0 || rotation == Rotate180 then x < width && y < height
      else y < width && x < height
  {
    match rotation
    case Rotate0 => (x, y)
    case Rotate90 => (width - 1 - y, x)
    case Rotate180 => (width - 1 - x, height - 1 - y)
    case Rotate270 => (y, height - 1 - x)
  }

  /** `find_position`: the byte index of the panel pixel and its bit mask, most significant
      bit first. */
  function FindPosition(x: U32, y: U32, width: U32, height: U32, rotation: DisplayRotation): (r: (nat, Byte))
    requires RotationDefined(x, y, width, height, rotation)
    ensures SingleBit(r.1)
  {
    var (nx, ny) := FindRotation(x, y, width, height, rotation);
    MaskMsbFirst(nx % 8);
    (nx / 8 + (width + 7) / 8 * ny, (0x80 as Byte) >> (nx % 8))
  }

  /** The logical point that the rotation sends to panel pixel `(nx, ny)`. */
  function Unrotate(nx: nat, ny: nat, width: nat, height: nat, rotation: DisplayRotation): (nat, nat)
    requires nx < width && ny < height
  {
    match rotation
    case Rotate0 => (nx, ny)
    case Rotate90 => (ny, width - 1 - nx)
    case Rotate180 => (width - 1 - nx, height - 1 - ny)
    case Rotate270 => (height - 1 - ny, nx)
  }

  function Pow2(k: nat): nat
  {
    if k == 0 then 1 else 2 * Pow2(k - 1)
  }

  /** A byte with exactly one bit set. */
  predicate SingleBit(m: Byte)
  {
    m != 0 && m & (m - 1) == 0
  }

  // ---------------------------------------------------------------------------------------
  // Properties of the addressing arithmetic
  // ---------------------------------------------------------------------------------------

  /** The bounds check accepts exactly the points whose rotated image is computed without
      underflow and is a pixel of the `width` x `height` panel. */
  lemma InsideIffOnPanel(p: Point, width: U32, height: U32, rotation: DisplayRotation)
    ensures !OutsideDisplay(p, width, height, rotation) <==>
      p.x >= 0 && p.y >= 0 && RotationDefined(p.x, p.y, width, height, rotation) &&
      FindRotation(p.x, p.y, width, height, rotation).0 < width &&
      FindRotation(p.x, p.y, width, height, rotation).1 < height
  {
  }

  /** On a square panel a point is inside under one rotation iff it is inside under every other. */
  lemma SquareBoundsIgnoreRotation(p: Point, side: U32, r1: DisplayRotation, r2: DisplayRotation)
    ensures OutsideDisplay(p, side, side, r1) == OutsideDisplay(p, side, side, r2)
  {
  }

  /** `Unrotate` undoes the rotation of every inside point. */
  lemma UnrotateUndoesRotation(p: Point, width: U32, height: U32, rotation: DisplayRotation)
    requires !OutsideDisplay(p, width, height, rotation)
    ensures RotationDefined(p.x, p.y, width, height, rotation)
    ensures var (nx, ny) := FindRotation(p.x, p.y, width, height, rotation);
      nx < width && ny < height && Unrotate(nx, ny, width, height, rotation) == (p.x as nat, p.y as nat)
  {
    InsideIffOnPanel(p, width, height, rotation);
  }

  /** Every panel pixel is the image of an inside point, under every rotation: the rotation
      moves the bounds rectangle, it does not lose pixels. */
  lemma RotationCoversPanel(nx: nat, ny: nat, width: U32, height: U32, rotation: DisplayRotation)
    requires nx < width && ny < height
    requires width <= 0x8000_0000 && height <= 0x8000_0000
    ensures var (x, y) := Unrotate(nx, ny, width, height, rotation);
      x < 0x8000_0000 && y < 0x8000_0000 &&
      !OutsideDisplay(Point(x, y), width, height, rotation) &&
      RotationDefined(x, y, width, height, rotation) &&
      FindRotation(x, y, width, height, rotation) == (nx, ny)
  {
  }

  /** The mask for bit column `k` of a byte is `2^(7-k)`: column 0 is the most significant bit. */
  lemma MaskMsbFirst(k: nat)
    requires k < 8
    ensures SingleBit((0x80 as Byte) >> k)
    ensures ((0x80 as Byte) >> k) as int * Pow2(k) == 0x80
  {
    if k == 0 {
    } else if k == 1 {
    } else if k == 2 {
    } else if k == 3 {
    } else if k == 4 {
    } else if k == 5 {
    } else if k == 6 {
    } else {
      assert k == 7;
    }
  }

  /** Masks of different bit columns share no bit. */
  lemma MasksDisjoint(k1: nat, k2: nat)
    requires k1 < 8 && k2 < 8 && k1 != k2
    ensures ((0x80 as Byte) >> k1) & ((0x80 as Byte) >> k2) == 0
  {
  }

  lemma MulMonotone(a: nat, b: nat, c: nat)
    requires b <= c
    ensures a * b <= a * c
  {
  }

  /** A row-major index `col + rowBytes * row` with `col < rowBytes` determines column and row. */
  lemma RowMajorUnique(c1: nat, r1: nat, c2: nat, r2: nat, rowBytes: nat)
    requires c1 < rowBytes && c2 < rowBytes
    requires c1 + rowBytes * r1 == c2 + rowBytes * r2
    ensures c1 == c2 && r1 == r2
  {
    if r1 < r2 {
      MulMonotone(rowBytes, r1 + 1, r2);
    } else if r2 < r1 {
      MulMonotone(rowBytes, r2 + 1, r1);
    }
  }

  /** For every inside point, under every rotation, `find_position` neither underflows nor
      leaves the plane, and its mask has exactly one bit set. */
  lemma PositionInBuffer(p: Point, width: U32, height: U32, rotation: DisplayRotation)
    requires !OutsideDisplay(p, width, height, rotation)
    ensures RotationDefined(p.x, p.y, width, height, rotation)
    ensures var (index, mask) := FindPosition(p.x, p.y, width, height, rotation);
      index < BufferLen(width, height) && SingleBit(mask)
  {
    InsideIffOnPanel(p, width, height, rotation);
    var panel := FindRotation(p.x, p.y, width, height, rotation);
    RowMajorInBounds(panel.0, panel.1, width, height);
    MaskMsbFirst(panel.0 % 8);
  }

  /** The row-major byte of a panel pixel lies inside the plane. */
  lemma RowMajorInBounds(nx: nat, ny: nat, width: nat, height: nat)
    requires nx < width && ny < height
    ensures nx / 8 + (width + 7) / 8 * ny < BufferLen(width, height)
  {
    var w8 := (width + 7) / 8;
    assert nx / 8 < w8;
    MulMonotone(w8, ny + 1, height);
    assert w8 * (ny + 1) == w8 * ny + w8;
  }

  /** Distinct inside points have distinct positions: no two pixels share a bit. */
  lemma PositionsDistinct(p: Point, q: Point, width: U32, height: U32, rotation: DisplayRotation)
    requires !OutsideDisplay(p, width, height, rotation) && !OutsideDisplay(q, width, height, rotation)
    requires p != q
    ensures RotationDefined(p.x, p.y, width, height, rotation) && RotationDefined(q.x, q.y, width, height, rotation)
    ensures var (i1, m1) := FindPosition(p.x, p.y, width, height, rotation);
      var (i2, m2) := FindPosition(q.x, q.y, width, height, rotation);
      i1 != i2 || m1 & m2 == 0
  {
    UnrotateUndoesRotation(p, width, height, rotation);
    UnrotateUndoesRotation(q, width, height, rotation);
    var (nx1, ny1) := FindRotation(p.x, p.y, width, height, rotation);
    var (nx2, ny2) := FindRotation(q.x, q.y, width, height, rotation);
    assert (nx1, ny1) != (nx2, ny2);
    var w8 := (width + 7) / 8;
    if nx1 % 8 != nx2 % 8 {
      MasksDisjoint(nx1 % 8, nx2 % 8);
    } else if nx1 / 8 + w8 * ny1 == nx2 / 8 + w8 * ny2 {
      RowMajorUnique(nx1 / 8, ny1, nx2 / 8, ny2, w8);
      assert false;
    }
  }

  // ---------------------------------------------------------------------------------------
  // Drawing into a plane, as functions on its bytes
  // ---------------------------------------------------------------------------------------

  /** Sets (`bit`) or clears (`!bit`) the masked bits of a byte. */
  function Paint(b: Byte, mask: Byte, bit: bool): Byte
  {
    if bit then b | mask else b & !mask
  }

  /** The raw controller bit that drawing `color` writes on a plane of this polarity:
      ink clears the bit on an inverted plane and sets it on a plain one. */
  function InkBit(color: BinaryColor, isInverted: bool): bool
  {
    match color
    case On => !isInverted
    case Off => isInverted
  }

  /** The plane after `draw_helper` plots one pixel. */
  function Draw(buffer: seq<Byte>, width: U32, height: U32, rotation: DisplayRotation,
                isInverted: bool, pixel: Pixel): (r: seq<Byte>)
    requires BufferLen(width, height) <= |buffer|
    ensures |r| == |buffer|
  {
    if OutsideDisplay(pixel.point, width, height, rotation) then buffer
    else
      PositionInBuffer(pixel.point, width, height, rotation);
      var (index, mask) := FindPosition(pixel.point.x, pixel.point.y, width, height, rotation);
      buffer[index := Paint(buffer[index], mask, InkBit(pixel.color, isInverted))]
  }

  /** Inside the display, `Draw` paints the ink bit into the addressed byte. */
  lemma DrawInside(buffer: seq<Byte>, width: U32, height: U32, rotation: DisplayRotation,
                   isInverted: bool, pixel: Pixel, index: nat, mask: Byte)
    requires BufferLen(width, height) <= |buffer|
    requires !OutsideDisplay(pixel.point, width, height, rotation)
    requires RotationDefined(pixel.point.x, pixel.point.y, width, height, rotation)
    requires (index, mask) == FindPosition(pixel.point.x, pixel.point.y, width, height, rotation)
    ensures index < |buffer|
    ensures Draw(buffer, width, height, rotation, isInverted, pixel) ==
      buffer[index := Paint(buffer[index], mask, InkBit(pixel.color, isInverted))]
  {
    PositionInBuffer(pixel.point, width, height, rotation);
  }

  /** The raw bit a plane holds for an inside logical point. */
  function PixelBit(buffer: seq<Byte>, width: U32, height: U32, rotation: DisplayRotation, p: Point): bool
    requires !OutsideDisplay(p, width, height, rotation) && BufferLen(width, height) <= |buffer|
  {
    PositionInBuffer(p, width, height, rotation);
    var (index, mask) := FindPosition(p.x, p.y, width, height, rotation);
    buffer[index] & mask != 0
  }

  /** The byte every cell of a plane holds after `clear_buffer(c)`. */
  function FillByte(c: Color, isInverted: bool): Byte
  {
    if isInverted then c.Inverse().ByteValue() else c.ByteValue()
  }

  /** Drawing a pixel outside the display leaves the plane as it was; drawing one inside
      changes only the masked bit of the addressed byte, which then holds the ink bit. */
  lemma DrawChangesOneBit(buffer: seq<Byte>, width: U32, height: U32, rotation: DisplayRotation,
                          isInverted: bool, pixel: Pixel)
    requires BufferLen(width, height) <= |buffer|
    ensures OutsideDisplay(pixel.point, width, height, rotation) ==>
      Draw(buffer, width, height, rotation, isInverted, pixel) == buffer
    ensures !OutsideDisplay(pixel.point, width, height, rotation) ==>
      RotationDefined(pixel.point.x, pixel.point.y, width, height, rotation) &&
      var (index, mask) := FindPosition(pixel.point.x, pixel.point.y, width, height, rotation);
      var r := Draw(buffer, width, height, rotation, isInverted, pixel);
      index < |buffer| &&
      (forall j :: 0 <= j < |buffer| && j != index ==> r[j] == buffer[j]) &&
      r[index] & !mask == buffer[index] & !mask &&
      (r[index] & mask != 0 <==> InkBit(pixel.color, isInverted))
  {
    if !OutsideDisplay(pixel.point, width, height, rotation) {
      PositionInBuffer(pixel.point, width, height, rotation);
    }
  }

  /** Painting some bits leaves every disjoint bit as it was. */
  lemma PaintKeepsOtherBits(b: Byte, mask: Byte, other: Byte, bit: bool)
    requires mask & other == 0
    ensures Paint(b, mask, bit) & other == b & other
  {
  }

  /** Read-back: after drawing a pixel, that point reads the ink bit of its colour under
      the plane's polarity, and every other inside point reads what it read before. */
  lemma DrawReadBack(buffer: seq<Byte>, width: U32, height: U32, rotation: DisplayRotation,
                     isInverted: bool, pixel: Pixel, q: Point)
    requires BufferLen(width, height) <= |buffer|
    requires !OutsideDisplay(q, width, height, rotation)
    ensures PixelBit(Draw(buffer, width, height, rotation, isInverted, pixel), width, height, rotation, q) ==
      if q == pixel.point then InkBit(pixel.color, isInverted)
      else PixelBit(buffer, width, height, rotation, q)
  {
    var r := Draw(buffer, width, height, rotation, isInverted, pixel);
    PositionInBuffer(q, width, height, rotation);
    if !OutsideDisplay(pixel.point, width, height, rotation) {
      PositionInBuffer(pixel.point, width, height, rotation);
      var (i, m) := FindPosition(pixel.point.x, pixel.point.y, width, height, rotation);
      var (j, m') := FindPosition(q.x, q.y, width, height, rotation);
      if q != pixel.point {
        PositionsDistinct(pixel.point, q, width, height, rotation);
        if i == j {
          PaintKeepsOtherBits(buffer[i], m, m', InkBit(pixel.color, isInverted));
        }
      }
    }
  }

  /** After `clear_buffer(c)` every inside pixel holds the raw bit that drawing `On` writes
      when `c` is White, and the bit that drawing `Off` writes when `c` is Black, on either
      plane. */
  lemma ClearReadsAs(c: Color, isInverted: bool, width: U32, height: U32, rotation: DisplayRotation,
                     n: nat, p: Point)
    requires BufferLen(width, height) <= n
    requires !OutsideDisplay(p, width, height, rotation)
    ensures PixelBit(Filled(FillByte(c, isInverted), n), width, height, rotation, p) ==
      InkBit(if c == White then On else Off, isInverted)
  {
    PositionInBuffer(p, width, height, rotation);
  }

  /** Plots a run of pixels one after another. */
  function DrawAll(buffer: seq<Byte>, width: U32, height: U32, rotation: DisplayRotation,
                   isInverted: bool, pixels: seq<Pixel>): (r: seq<Byte>)
    requires BufferLen(width, height) <= |buffer|
    ensures |r| == |buffer|
    decreases |pixels|
  {
    if pixels == [] then buffer
    else DrawAll(Draw(buffer, width, height, rotation, isInverted, pixels[0]),
                 width, height, rotation, isInverted, pixels[1..])
  }

  /** Plotting the ink pixel (0, 0) on a fresh black/white plane clears bit 0x80 of byte 0 only. */
  lemma FirstPixelOfFreshBwPlane()
    ensures Draw(Filled(White.ByteValue(), 5000), 200, 200, Rotate0, true, Pixel(Point(0, 0), On)) ==
      [0x7F] + Filled(White.ByteValue(), 4999)
  {
    var r := Draw(Filled(White.ByteValue(), 5000), 200, 200, Rotate0, true, Pixel(Point(0, 0), On));
    assert r == [0x7F] + Filled(White.ByteValue(), 4999);
  }

  /** Clearing the top bit of a run of `8 - k` low ones leaves a run of `7 - k`. */
  lemma ClearTopRemainingBit(k: nat)
    requires k < 8
    ensures ((0xFF as Byte) >> k) & !((0x80 as Byte) >> k) == (0xFF as Byte) >> (k + 1)
  {
    if k == 0 {} else if k == 1 {} else if k == 2 {} else if k == 3 {}
    else if k == 4 {} else if k == 5 {} else if k == 6 {} else {}
  }

  /** Inking pixel `(k, 0)` of an inverted, unrotated 200x200 plane clears bit `7 - k` of
      byte 0 and nothing else. */
  lemma InkFirstRowPixel(b: seq<Byte>, k: nat)
    requires |b| == 5000 && k < 8
    ensures Draw(b, 200, 200, Rotate0, true, Pixel(Point(k, 0), On)) ==
      b[0 := b[0] & !((0x80 as Byte) >> k)]
  {
    FirstRowPosition(k);
    DrawInside(b, 200, 200, Rotate0, true, Pixel(Point(k, 0), On), 0, (0x80 as Byte) >> k);
  }

  lemma FirstRowPosition(k: nat)
    requires k < 8
    ensures FindPosition(k, 0, 200, 200, Rotate0) == (0, (0x80 as Byte) >> k)
  {
    assert k / 8 == 0 && k % 8 == k;
  }

  /** Plotting the eight ink pixels (0, 0) .. (7, 0) on a fresh black/white plane turns byte 0
      into Black's byte and leaves every other byte White's. */
  lemma BlackRunOnFreshBwPlane()
    ensures DrawAll(Filled(White.ByteValue(), 5000), 200, 200, Rotate0, true,
                    seq(8, i requires 0 <= i < 8 => Pixel(Point(i, 0), On))) ==
      [Black.ByteValue()] + Filled(White.ByteValue(), 4999)
  {
    var pixels := seq(8, i requires 0 <= i < 8 => Pixel(Point(i, 0), On));
    var rest := Filled(White.ByteValue(), 4999);
    var b := Filled(White.ByteValue(), 5000);
    assert b == [(0xFF as Byte) >> 0] + rest;
    var k := 0;
    while k < 8
      invariant 0 <= k <= 8
      invariant b == [(0xFF as Byte) >> k] + rest
      invariant DrawAll(Filled(White.ByteValue(), 5000), 200, 200, Rotate0, true, pixels) ==
        DrawAll(b, 200, 200, Rotate0, true, pixels[k..])
    {
      assert pixels[k] == Pixel(Point(k, 0), On);
      assert pixels[k..][1..] == pixels[k + 1..];
      InkFirstRowPixel(b, k);
      ClearTopRemainingBit(k);
      assert b[0 := b[0] & !((0x80 as Byte) >> k)] == [(0xFF as Byte) >> (k + 1)] + rest;
      b := [(0xFF as Byte) >> (k + 1)] + rest;
      k := k + 1;
    }
    assert pixels[8..] == [];
  }

  // ---------------------------------------------------------------------------------------
  // The display buffer object
  // ---------------------------------------------------------------------------------------

  /** `Display1in54`: one plane of the 200x200 panel with its rotation and polarity. */
  class Display1in54 {
    const buffer: array<Byte>
    var rotation: DisplayRotation
    const isInverted: bool

    /** The plane has the length `buffer_len(WIDTH, HEIGHT)` fixed at construction. */
    ghost predicate Valid()
      reads this
    {
      buffer.Length == BufferLen(Panel.WIDTH as int, Panel.HEIGHT as int)
    }

    /** `bw`: a black/white plane, every byte White's, inverted, unrotated. */
    constructor Bw()
      ensures Valid() && fresh(buffer)
      ensures buffer[..] == Filled(White.ByteValue(), buffer.Length)
      ensures rotation == Rotate0 && isInverted
    {
      buffer := new Byte[BufferLen(Panel.WIDTH as int, Panel.HEIGHT as int)](_ => White.ByteValue());
      rotation := Rotate0;
      isInverted := true;
      new;
      assert buffer[..] == Filled(White.ByteValue(), buffer.Length);
    }

    /** `red`: a red plane, every byte White's inverse, not inverted, unrotated. */
    constructor Red()
      ensures Valid() && fresh(buffer)
      ensures buffer[..] == Filled(White.Inverse().ByteValue(), buffer.Length)
      ensures rotation == Rotate0 && !isInverted
    {
      buffer := new Byte[BufferLen(Panel.WIDTH as int, Panel.HEIGHT as int)](_ => White.Inverse().ByteValue());
      rotation := Rotate0;
      isInverted := false;
      new;
      assert buffer[..] == Filled(White.Inverse().ByteValue(), buffer.Length);
    }

    /** `buffer`: the plane's bytes as they are handed to the driver. */
    function Buffer(): seq<Byte>
      reads this, buffer
    {
      buffer[..]
    }

    /** `set_rotation`: only the rotation changes. */
    method SetRotation(rotation: DisplayRotation)
      modifies this
      ensures this.rotation == rotation
    {
      this.rotation := rotation;
    }

    /** `clear_buffer`: every byte becomes the polarity-corrected byte of the colour. */
    method ClearBuffer(backgroundColor: Color)
      modifies buffer
      ensures buffer[..] == Filled(FillByte(backgroundColor, isInverted), buffer.Length)
    {
      var fill := if isInverted then backgroundColor.Inverse().ByteValue() else backgroundColor.ByteValue();
      for i := 0 to buffer.Length
        invariant forall j :: 0 <= j < i ==> buffer[j] == fill
      {
        buffer[i] := fill;
      }
    }

    /** `draw_helper`: plots one pixel of a `width` x `height` frame, in place. */
    method DrawHelper(width: U32, height: U32, pixel: Pixel)
      requires BufferLen(width, height) <= buffer.Length
      modifies buffer
      ensures buffer[..] == Draw(old(buffer[..]), width, height, rotation, isInverted, pixel)
    {
      if OutsideDisplay(pixel.point, width, height, rotation) {
        return;
      }
      PositionInBuffer(pixel.point, width, height, rotation);
      var (index, bit) := FindPosition(pixel.point.x, pixel.point.y, width, height, rotation);
      DrawInside(buffer[..], width, height, rotation, isInverted, pixel, index, bit);
      buffer[index] := PaintPixelByte(buffer[index], bit, pixel.color, isInverted);
    }

    /** The `&= !bit` / `|= bit` step of `draw_helper`, chosen by colour and polarity. */
    static method PaintPixelByte(current: Byte, bit: Byte, color: BinaryColor, isInverted: bool)
      returns (updated: Byte)
      ensures updated == Paint(current, bit, InkBit(color, isInverted))
    {
      match color {
        case On =>
          if isInverted {
            updated := current & !bit;
          } else {
            updated := current | bit;
          }
        case Off =>
          if isInverted {
            updated := current | bit;
          } else {
            updated := current & !bit;
          }
      }
    }

    /** `draw_pixel`: plots one pixel of the 200x200 panel. */
    method DrawPixel(pixel: Pixel)
      requires Valid()
      modifies buffer
      ensures buffer[..] == Draw(old(buffer[..]), Panel.WIDTH as int, Panel.HEIGHT as int,
                                 rotation, isInverted, pixel)
    {
      DrawHelper(Panel.WIDTH as int, Panel.HEIGHT as int, pixel);
    }
  }
}
