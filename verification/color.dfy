/** The colours of the driver. The colour module of the original crate is not part of this
    model. The graphics tests fix two of its facts: Black's byte is 0x00 (`graphics_rotation_0`)
    and White's inverse has Black's byte (`buffer_clear`). The rest is assumed: White's byte
    is 0xFF and `inverse` swaps the two colours. */
module Colors {
  import opened Bytes

  /** A plane-wide fill colour (`color::Color`). */
  datatype Color = White | Black {
    /** `get_byte_value`: the byte that fills eight pixels of this colour. */
    function ByteValue(): Byte
    {
      if White? then 0xFF else 0x00
    }

    /** `inverse`: the other colour. */
    function Inverse(): Color
    {
      if White? then Black else White
    }
  }

  /** The colour of one pixel as the drawing library hands it over: `On` is ink
      (black on the black/white plane, red on the red plane), `Off` is background. */
  datatype BinaryColor = On | Off

  /** Inverting a colour flips every bit of its byte value, and inverting twice is the identity. */
  lemma InverseFlipsBits(c: Color)
    ensures c.Inverse().ByteValue() == !c.ByteValue()
    ensures c.Inverse() != c && c.Inverse().Inverse() == c
  {
  }
}
