/** IntelliBrite colours and the quantisation of a HomeKit hue and saturation to one of them. */
module Colors {
  /**
   * The IntelliBrite colours the bridge distinguishes. The `Color` table
   * that gives their hues and saturations is not part of this model. The
   * bridge's tests fix Red at hue 0 and Magenta at hue 300, both at
   * saturation 100; the other values below are the model's choice,
   * consistent with the colours the tests expect.
   */
  datatype Color = White | Red | Green | Blue | Magenta {
    /** The HomeKit hue in degrees. White's hue is not fixed by the bridge; the model never reads it. */
    function Hue(): real {
      match this
      case White => 0.0
      case Red => 0.0
      case Green => 120.0
      case Blue => 240.0
      case Magenta => 300.0
    }

    /** The HomeKit saturation in percent. */
    function Saturation(): real {
      if this == White then 0.0 else 100.0
    }
  }

  /**
   * `getIntelliBriteColor`: White unless the saturation is above half of
   * Red's; otherwise the colour whose hue range, bounded by the midpoints
   * between neighbouring colours, holds the hue.
   */
  function IntelliBriteColor(hue: real, saturation: real): (c: Color)
    ensures c == White <==> saturation <= 50.0
    ensures c == Red <==> saturation > 50.0 && hue < 60.0
    ensures c == Green <==> saturation > 50.0 && 60.0 <= hue < 180.0
    ensures c == Blue <==> saturation > 50.0 && 180.0 <= hue < 270.0
    ensures c == Magenta <==> saturation > 50.0 && 270.0 <= hue
  {
    if saturation > (Red.Saturation() - White.Saturation()) / 2.0 then
      if hue < (Green.Hue() - Red.Hue()) / 2.0 + Red.Hue() then Red
      else if hue < (Blue.Hue() - Green.Hue()) / 2.0 + Green.Hue() then Green
      else if hue < (Magenta.Hue() - Blue.Hue()) / 2.0 + Blue.Hue() then Blue
      else Magenta
    else White
  }

  /** The bridge's own test vectors: (hue, saturation) pairs and the colour each selects. */
  lemma IntelliBriteTestVectors()
    ensures IntelliBriteColor(0.0, 0.0) == White
    ensures IntelliBriteColor(100.0, 49.0) == White
    ensures IntelliBriteColor(300.0, 49.0) == White
    ensures IntelliBriteColor(0.0, 100.0) == Red
    ensures IntelliBriteColor(59.0, 51.0) == Red
    ensures IntelliBriteColor(120.0, 100.0) == Green
    ensures IntelliBriteColor(60.0, 100.0) == Green
    ensures IntelliBriteColor(179.0, 100.0) == Green
    ensures IntelliBriteColor(240.0, 100.0) == Blue
    ensures IntelliBriteColor(180.0, 100.0) == Blue
    ensures IntelliBriteColor(269.0, 100.0) == Blue
    ensures IntelliBriteColor(300.0, 100.0) == Magenta
    ensures IntelliBriteColor(270.0, 100.0) == Magenta
    ensures IntelliBriteColor(400.0, 100.0) == Magenta
  {
  }

  /** A colour's own hue and saturation select that colour again (White whatever its hue). */
  lemma IntelliBriteFixedPoints(c: Color)
    ensures IntelliBriteColor(c.Hue(), c.Saturation()) == c
  {
  }
}
