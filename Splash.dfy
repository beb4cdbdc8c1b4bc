/** The connection-quality display of the splash screen (showConnectionQuality):
    a colour band and a verdict text chosen by thresholds on the quality
    percentage, and the width of the filled part of a 160-pixel bar. */
module Splash {
  import opened Types

  datatype QualityColor = QualityGreen | QualityOrange | QualityRed

  /** Inner width of the bar: 160 pixels minus a 2-pixel frame on each side. */
  const BAR_INNER_WIDTH: int := 156

  function ColorOf(qualityPercent: u8): QualityColor
  {
    if qualityPercent >= 80 then QualityGreen
    else if qualityPercent >= 50 then QualityOrange
    else QualityRed
  }

  function TextOf(qualityPercent: u8): string
  {
    if qualityPercent >= 80 then "Sehr gut"
    else if qualityPercent >= 50 then "Mittel"
    else if qualityPercent > 0 then "Schlecht"
    else "Keine Verbindung"
  }

  /** A value reduced to the 16-bit two's-complement range of the target's `int`. */
  function Int16(x: int): (r: int)
    ensures -0x8000 <= r < 0x8000
    ensures -0x8000 <= x < 0x8000 ==> r == x
    ensures (x - r) % 0x1_0000 == 0
  {
    (x + 0x8000) % 0x1_0000 - 0x8000
  }

  /** C's `/`, which truncates toward zero. */
  function CDiv(a: int, b: int): (q: int)
    requires b > 0
    ensures a >= 0 ==> q == a / b
    ensures a < 0 ==> q <= 0
  {
    if a >= 0 then a / b else -((-a) / b)
  }

  /** `(barWidth - 4) * qualityPercent / 100`, evaluated in 16-bit `int`. */
  function FillWidth(qualityPercent: u8): int
  {
    CDiv(Int16(BAR_INNER_WIDTH * qualityPercent), 100)
  }

  /** The bar is filled only when the computed width is positive. */
  predicate BarFilled(qualityPercent: u8)
  {
    FillWidth(qualityPercent) > 0
  }

  // ---------------------------------------------------------------------
  // Properties
  // ---------------------------------------------------------------------

  /** Colour bands: green from 80 %, orange from 50 %, red below. */
  lemma ColorBands(p: u8)
    ensures ColorOf(p) == QualityGreen <==> p >= 80
    ensures ColorOf(p) == QualityOrange <==> 50 <= p < 80
    ensures ColorOf(p) == QualityRed <==> p < 50
  {
  }

  /** Verdict bands: "Keine Verbindung" exactly at 0 %. */
  lemma TextBands(p: u8)
    ensures TextOf(p) == "Sehr gut" <==> p >= 80
    ensures TextOf(p) == "Mittel" <==> 50 <= p < 80
    ensures TextOf(p) == "Schlecht" <==> 1 <= p < 50
    ensures TextOf(p) == "Keine Verbindung" <==> p == 0
  {
  }

  /** The red colour band is exactly where the text says "Schlecht" or "Keine Verbindung". */
  lemma RedMeansBadText(p: u8)
    ensures ColorOf(p) == QualityRed <==> TextOf(p) == "Schlecht" || TextOf(p) == "Keine Verbindung"
  {
    TextBands(p);
  }

  /** For percentages the display promises (0..100) the fill fits inside the frame,
      and the bar is filled exactly when the quality is above zero. */
  lemma FillWithinBar(p: u8)
    requires p <= 100
    ensures 0 <= FillWidth(p) <= BAR_INNER_WIDTH
    ensures FillWidth(p) == BAR_INNER_WIDTH <==> p == 100
    ensures BarFilled(p) <==> p > 0
  {
  }

  /** The product fits in 16 bits up to 210 %, so the width is the exact floor there;
      above it the product wraps negative and no fill is drawn. */
  lemma FillOverflow(p: u8)
    ensures p <= 210 ==> FillWidth(p) == BAR_INNER_WIDTH * p / 100
    ensures p > 210 ==> FillWidth(p) <= 0 && !BarFilled(p)
  {
  }

  /** Wider fill for more quality, within the promised range. */
  lemma FillMonotone(p: u8, q: u8)
    requires p <= q <= 100
    ensures FillWidth(p) <= FillWidth(q)
  {
  }
}
