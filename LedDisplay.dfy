/** The receiver's LED renderer (DisplayManager): two 16-LED group bars and three
    7-segment digits of 6 LEDs per segment on one WS2812B strip, painted in place
    with range fills. */
module LedDisplay {
  import opened Types
  import opened ReceiverConfig

  datatype Color = Color(r: u8, g: u8, b: u8)

  const Black := Color(0, 0, 0)

  /** The 7-segment patterns of the digits 0-9, one bit per segment; the most
      significant of the seven bits is segment 0. Segment order: B, A, F, G, C, D, E. */
  const SegmentMap: seq<bv8> :=
    [0x77, 0x44, 0x6B, 0x6E, 0x5C, 0x3E, 0x3F, 0x64, 0x7F, 0x7E]

  /** A digit above 9 is drawn as 0. */
  function Pattern(digit: u8): bv8
  {
    SegmentMap[if digit > 9 then 0 else digit]
  }

  /** Bit `6 - seg` of the pattern. */
  predicate SegmentOn(pattern: bv8, seg: int)
    requires 0 <= seg < SEGMENTS_PER_DIGIT as int
  {
    (pattern >> (6 - seg)) & 1 == 1
  }

  function SegmentColor(digit: u8, seg: int, color: Color): Color
    requires 0 <= seg < SEGMENTS_PER_DIGIT as int
  {
    if SegmentOn(Pattern(digit), seg) then color else Black
  }

  /** fill_solid on a window of the strip. */
  function Filled(s: seq<Color>, start: int, n: int, c: Color): (r: seq<Color>)
    requires 0 <= start && 0 <= n && start + n <= |s|
    ensures |r| == |s|
  {
    s[..start] + seq(n, _ => c) + s[start + n..]
  }

  /** The fill sets exactly the LEDs of its window. */
  lemma FilledAt(s: seq<Color>, start: int, n: int, c: Color, i: int)
    requires 0 <= start && 0 <= n && start + n <= |s| && 0 <= i < |s|
    ensures Filled(s, start, n, c)[i] == (if start <= i < start + n then c else s[i])
  {
  }

  /** The first k segments of a digit painted. */
  function DigitSegments(s: seq<Color>, start: int, digit: u8, color: Color, k: int): (r: seq<Color>)
    requires 0 <= start && start + LEDS_PER_DIGIT as int <= |s|
    requires 0 <= k <= SEGMENTS_PER_DIGIT as int
    ensures |r| == |s|
  {
    if k == 0 then s
    else Filled(DigitSegments(s, start, digit, color, k - 1), start + 6 * (k - 1), 6,
                SegmentColor(digit, k - 1, color))
  }

  /** displayDigit(): the 42-LED window from `start` shows the digit's segments. */
  function DigitLeds(s: seq<Color>, start: int, digit: u8, color: Color): seq<Color>
    requires 0 <= start && start + LEDS_PER_DIGIT as int <= |s|
  {
    DigitSegments(s, start, digit, color, SEGMENTS_PER_DIGIT as int)
  }

  /** The number as shown: the smaller of the number and 999. */
  function Clamp(number: u16): (n: int)
    ensures n <= 999 && n <= number as int
    ensures n == number as int || n == 999
  {
    if number > 999 then 999 else number
  }

  /** Hundreds, tens and ones of the clamped number. */
  function Digits(number: u16): (d: (u8, u8, u8))
  {
    var n := Clamp(number);
    (n / 100, (n / 10) % 10, n % 10)
  }

  /** displayNumber(): hundreds and tens are blanked unless leading zeros are wanted or
      the number is large enough; the ones digit is always shown. */
  function NumberLeds(s: seq<Color>, number: u16, color: Color, showLeadingZeros: bool): (r: seq<Color>)
    requires |s| == TOTAL_LEDS as int
    ensures |r| == |s|
  {
    var n := Clamp(number);
    var (d100, d10, d1) := Digits(number);
    var s1 := if showLeadingZeros || n >= 100 then DigitLeds(s, DIGIT_100_START as int, d100, color)
              else DigitLeds(s, DIGIT_100_START as int, 0, Black);
    var s2 := if showLeadingZeros || n >= 10 then DigitLeds(s1, DIGIT_10_START as int, d10, color)
              else DigitLeds(s1, DIGIT_10_START as int, 0, Black);
    DigitLeds(s2, DIGIT_1_START as int, d1, color)
  }

  function GroupAB(s: seq<Color>, c: Color): seq<Color>
    requires |s| == TOTAL_LEDS as int
  {
    Filled(s, GROUP_AB_START as int, GROUP_AB_LEDS as int, c)
  }

  function GroupCD(s: seq<Color>, c: Color): seq<Color>
    requires |s| == TOTAL_LEDS as int
  {
    Filled(s, GROUP_CD_START as int, GROUP_CD_LEDS as int, c)
  }

  /** setGroup(): 0 lights the A/B bar, 1 the C/D bar, anything else neither. */
  function GroupLeds(s: seq<Color>, group: u8, c: Color): (r: seq<Color>)
    requires |s| == TOTAL_LEDS as int
  {
    if group == 0 then GroupCD(GroupAB(s, c), Black)
    else if group == 1 then GroupCD(GroupAB(s, Black), c)
    else GroupCD(GroupAB(s, Black), Black)
  }

  // ---------------------------------------------------------------------
  // The object
  // ---------------------------------------------------------------------

  class DisplayManager {
    const leds: array<Color>

    ghost predicate Valid()
      reads this
    {
      leds.Length == TOTAL_LEDS as int
    }

    constructor (ledArray: array<Color>)
      ensures leds == ledArray
    {
      leds := ledArray;
    }

    /** fill_solid(leds + start, n, c). */
    method FillSolid(start: int, n: int, c: Color)
      requires 0 <= start && 0 <= n && start + n <= leds.Length
      modifies leds
      ensures leds[..] == Filled(old(leds[..]), start, n, c)
    {
      forall i | start <= i < start + n {
        leds[i] := c;
      }
      forall i | 0 <= i < leds.Length
        ensures leds[i] == Filled(old(leds[..]), start, n, c)[i]
      {
        FilledAt(old(leds[..]), start, n, c, i);
      }
    }

    method SetGroupAB(c: Color)
      requires Valid()
      modifies leds
      ensures leds[..] == GroupAB(old(leds[..]), c)
    {
      FillSolid(GROUP_AB_START as int, GROUP_AB_LEDS as int, c);
    }

    method SetGroupCD(c: Color)
      requires Valid()
      modifies leds
      ensures leds[..] == GroupCD(old(leds[..]), c)
    {
      FillSolid(GROUP_CD_START as int, GROUP_CD_LEDS as int, c);
    }

    method ClearGroups()
      requires Valid()
      modifies leds
      ensures leds[..] == GroupCD(GroupAB(old(leds[..]), Black), Black)
    {
      SetGroupAB(Black);
      SetGroupCD(Black);
    }

    method SetGroup(group: u8, c: Color)
      requires Valid()
      modifies leds
      ensures leds[..] == GroupLeds(old(leds[..]), group, c)
    {
      if group == 0 {
        SetGroupAB(c);
        SetGroupCD(Black);
      } else if group == 1 {
        SetGroupAB(Black);
        SetGroupCD(c);
      } else {
        ClearGroups();
      }
    }

    /** displayDigit(): one segment of six LEDs per iteration. */
    method DisplayDigit(start: int, digit: u8, c: Color)
      requires Valid() && 0 <= start && start + LEDS_PER_DIGIT as int <= TOTAL_LEDS as int
      modifies leds
      ensures leds[..] == DigitLeds(old(leds[..]), start, digit, c)
    {
      var d := if digit > 9 then 0 else digit;
      var pattern := SegmentMap[d];
      for seg := 0 to SEGMENTS_PER_DIGIT as int
        invariant leds[..] == DigitSegments(old(leds[..]), start, digit, c, seg)
      {
        var segmentColor := if SegmentOn(pattern, seg) then c else Black;
        FillSolid(start + seg * LEDS_PER_SEGMENT as int, LEDS_PER_SEGMENT as int, segmentColor);
      }
    }

    method DisplayNumber(number: u16, c: Color, showLeadingZeros: bool)
      requires Valid()
      modifies leds
      ensures leds[..] == NumberLeds(old(leds[..]), number, c, showLeadingZeros)
    {
      var n := if number > 999 then 999 else number;
      var digit100 := n / 100;
      var digit10 := (n / 10) % 10;
      var digit1 := n % 10;
      if showLeadingZeros || n >= 100 {
        DisplayDigit(DIGIT_100_START as int, digit100, c);
      } else {
        DisplayDigit(DIGIT_100_START as int, 0, Black);
      }
      if showLeadingZeros || n >= 10 {
        DisplayDigit(DIGIT_10_START as int, digit10, c);
      } else {
        DisplayDigit(DIGIT_10_START as int, 0, Black);
      }
      DisplayDigit(DIGIT_1_START as int, digit1, c);
    }

    method DisplayTimer(seconds: u16, c: Color, showLeadingZeros: bool)
      requires Valid()
      modifies leds
      ensures leds[..] == NumberLeds(old(leds[..]), seconds, c, showLeadingZeros)
    {
      DisplayNumber(seconds, c, showLeadingZeros);
    }
  }

  // ---------------------------------------------------------------------
  // Properties
  // ---------------------------------------------------------------------

  /** The digits recompose the clamped number and each is a decimal digit. */
  lemma DigitsRecompose(number: u16)
    ensures var (d100, d10, d1) := Digits(number);
      && d100 <= 9 && d10 <= 9 && d1 <= 9
      && 100 * d100 + 10 * d10 + d1 == (if number > 999 then 999 else number as int)
  {
  }

  /** Painting the first k segments touches only the first 6k LEDs of the window, and
      LED i of them shows the segment i / 6 belongs to. */
  lemma {:induction false} DigitSegmentsShape(s: seq<Color>, start: int, digit: u8, color: Color, k: int, i: int)
    requires 0 <= start && start + LEDS_PER_DIGIT as int <= |s|
    requires 0 <= k <= SEGMENTS_PER_DIGIT as int && 0 <= i < |s|
    ensures DigitSegments(s, start, digit, color, k)[i] ==
      if start <= i < start + 6 * k then SegmentColor(digit, (i - start) / 6, color) else s[i]
    decreases k
  {
    if k > 0 {
      DigitSegmentsShape(s, start, digit, color, k - 1, i);
      FilledAt(DigitSegments(s, start, digit, color, k - 1), start + 6 * (k - 1), 6,
               SegmentColor(digit, k - 1, color), i);
      if start + 6 * (k - 1) <= i < start + 6 * k {
        assert (i - start) / 6 == k - 1;
      }
    }
  }

  /** displayDigit writes only its 42-LED window; there segment `seg` is lit iff bit
      `6 - seg` of the digit's pattern is set, and black otherwise. */
  lemma DigitWindow(s: seq<Color>, start: int, digit: u8, color: Color, i: int)
    requires 0 <= start && start + LEDS_PER_DIGIT as int <= |s| && 0 <= i < |s|
    ensures !(start <= i < start + 42) ==> DigitLeds(s, start, digit, color)[i] == s[i]
    ensures start <= i < start + 42 ==>
      DigitLeds(s, start, digit, color)[i] ==
        (if SegmentOn(Pattern(digit), (i - start) / 6) then color else Black)
  {
    DigitSegmentsShape(s, start, digit, color, 7, i);
  }

  /** 8 lights every segment; 1 lights only B and C (segments 0 and 4). */
  lemma EightAndOne(seg: int)
    requires 0 <= seg < 7
    ensures SegmentOn(Pattern(8), seg)
    ensures SegmentOn(Pattern(1), seg) <==> seg == 0 || seg == 4
  {
  }

  /** An out-of-range digit looks like 0. */
  lemma InvalidDigitIsZero(digit: u8)
    requires digit > 9
    ensures Pattern(digit) == Pattern(0)
  {
  }

  /** The seven segments identify the digit: two digits that light the same segments
      are the same digit, so every digit is readable. */
  lemma SegmentsIdentifyDigit(d: u8, e: u8)
    requires d <= 9 && e <= 9
    requires forall seg :: 0 <= seg < 7 ==> SegmentOn(Pattern(d), seg) == SegmentOn(Pattern(e), seg)
    ensures d == e
  {
    assert SegmentOn(Pattern(d), 0) == SegmentOn(Pattern(e), 0);
    assert SegmentOn(Pattern(d), 1) == SegmentOn(Pattern(e), 1);
    assert SegmentOn(Pattern(d), 2) == SegmentOn(Pattern(e), 2);
    assert SegmentOn(Pattern(d), 3) == SegmentOn(Pattern(e), 3);
    assert SegmentOn(Pattern(d), 4) == SegmentOn(Pattern(e), 4);
    assert SegmentOn(Pattern(d), 5) == SegmentOn(Pattern(e), 5);
    assert SegmentOn(Pattern(d), 6) == SegmentOn(Pattern(e), 6);
  }

  /** A blanked digit, drawn in black, leaves its whole window black. */
  lemma BlankDigitIsDark(s: seq<Color>, start: int, i: int)
    requires 0 <= start && start + LEDS_PER_DIGIT as int <= |s| && start <= i < start + 42
    ensures DigitLeds(s, start, 0, Black)[i] == Black
  {
    DigitWindow(s, start, 0, Black, i);
  }

  /** displayNumber leaves the group bars alone, always shows the ones digit, and
      shows the hundreds digit exactly when leading zeros are wanted or n >= 100
      (otherwise its window is dark). */
  lemma NumberLayout(s: seq<Color>, number: u16, color: Color, lz: bool, i: int)
    requires |s| == TOTAL_LEDS as int && 0 <= i < |s|
    ensures i < DIGIT_START as int ==> NumberLeds(s, number, color, lz)[i] == s[i]
    ensures DIGIT_1_START as int <= i < DIGIT_10_START as int ==>
      NumberLeds(s, number, color, lz)[i] == SegmentColor(Digits(number).2, (i - 32) / 6, color)
    ensures DIGIT_100_START as int <= i && !(lz || Clamp(number) >= 100) ==>
      NumberLeds(s, number, color, lz)[i] == Black
    ensures DIGIT_100_START as int <= i && (lz || Clamp(number) >= 100) ==>
      NumberLeds(s, number, color, lz)[i] == SegmentColor(Digits(number).0, (i - 116) / 6, color)
  {
    var n := Clamp(number);
    var (d100, d10, d1) := Digits(number);
    var s1 := if lz || n >= 100 then DigitLeds(s, 116, d100, color) else DigitLeds(s, 116, 0, Black);
    var s2 := if lz || n >= 10 then DigitLeds(s1, 74, d10, color) else DigitLeds(s1, 74, 0, Black);
    DigitWindow(s, 116, if lz || n >= 100 then d100 else 0, if lz || n >= 100 then color else Black, i);
    DigitWindow(s1, 74, if lz || n >= 10 then d10 else 0, if lz || n >= 10 then color else Black, i);
    DigitWindow(s2, 32, d1, color, i);
  }

  /** The tens digit is shown exactly when leading zeros are wanted or n >= 10. */
  lemma TensLayout(s: seq<Color>, number: u16, color: Color, lz: bool, i: int)
    requires |s| == TOTAL_LEDS as int && DIGIT_10_START as int <= i < DIGIT_100_START as int
    ensures !(lz || Clamp(number) >= 10) ==> NumberLeds(s, number, color, lz)[i] == Black
    ensures lz || Clamp(number) >= 10 ==>
      NumberLeds(s, number, color, lz)[i] == SegmentColor(Digits(number).1, (i - 74) / 6, color)
  {
    var n := Clamp(number);
    var (d100, d10, d1) := Digits(number);
    var s1 := if lz || n >= 100 then DigitLeds(s, 116, d100, color) else DigitLeds(s, 116, 0, Black);
    var s2 := if lz || n >= 10 then DigitLeds(s1, 74, d10, color) else DigitLeds(s1, 74, 0, Black);
    DigitWindow(s1, 74, if lz || n >= 10 then d10 else 0, if lz || n >= 10 then color else Black, i);
    DigitWindow(s2, 32, d1, color, i);
  }

  /** setGroup lights the chosen bar, darkens the other, and leaves the digits alone. */
  lemma GroupLayout(s: seq<Color>, group: u8, c: Color, i: int)
    requires |s| == TOTAL_LEDS as int && 0 <= i < |s|
    ensures i < 16 ==> GroupLeds(s, group, c)[i] == (if group == 0 then c else Black)
    ensures 16 <= i < 32 ==> GroupLeds(s, group, c)[i] == (if group == 1 then c else Black)
    ensures i >= 32 ==> GroupLeds(s, group, c)[i] == s[i]
  {
  }
}
