/** The thirteen effects, pixel by pixel. Every effect is pointwise: the new
    colour of pixel i on strip k depends only on k, i, the pixel's previous
    colour and this tick's oscillator readings. The functions here are the
    specification the effect methods of Engine.Lights are proved against. */
module Effects {
  import opened Color
  import opened Modes

  /** Number of parallel strips (pix1 .. pix8). */
  const STRIPS: nat := 8

  /** Mode numbers as mode(i) dispatches them. */
  const ALL_GOLD: nat := 0
  const ALL_WHITE: nat := 1
  const RAINBOWS: nat := 2
  const HUE_SCROLL: nat := 3
  const ARROW_YELLOW: nat := 4
  const ARROW_COLOR: nat := 5
  const BIT_SIN: nat := 6
  const DUAL_SWORD: nat := 7
  const PHASE_SINE: nat := 8
  const PHASE_SINE_GOLD: nat := 9
  const FIRESHIP: nat := 10
  const BAR_GRAPH: nat := 11
  const TWINKLERS: nat := 12

  /** One tick's oscillator and random readings, one field per distinct
      call in the effects (calls with equal arguments read the same value).
      Their time source and waveforms are FastLED's; only their ranges are
      modelled, by Fits. */
  datatype Readings = Readings(
    beat20: byte,            // beat8(20): fireship palette start
    beat40: byte,            // beat8(40): hue_scroll and rainbows base hue
    beat60: byte,            // beat8(60): arrows, first beat
    sweepPos: int,           // beatsin8(20, 0, NUM-1): bitSinAKM dot
    rippleHue: byte,         // beatsin8(beatsin8(5, 1, 5, 0, 5), 0, 255, 0, 128): bitSinAKM hue
    chaserFade: byte,        // beatsin8(15, 4, 10): bitSinAKM fade amount
    yellowHue: byte,         // beatsin8(40, 28, 36): arrow_yellow hue
    swayHue: byte,           // beatsin8(10, 0, 255, 0, 0): arrow_color and dual_sword hue
    swayHueOpposite: byte,   // beatsin8(10, 0, 255, 0, 127): dual_sword second hue
    barPos: int,             // beatsin8(50, 0, NUM-1): bar_graph dot
    swordPos: int,           // beatsin8(40, 0, NUM-1, 0, 0): dual_sword first dot
    swordPosOpposite: int,   // beatsin8(40, 0, NUM-1, 0, 127): dual_sword second dot
    phasePos: seq<int>,      // beatsin8(25, 0, NUM-1, 0, 32 * k) for strip k: phase_sine dots
    twinklePos: seq<int>,    // random(0, NUM-1) for strip k: twinklers dot
    twinkleHue: seq<byte>    // random8() for strip k: twinklers palette position
  ) {
    /** beatsin8(bpm, lo, hi) lies in [lo, hi]; random(a, b) lies in [a, b). */
    predicate Fits(n: nat)
    {
      0 <= sweepPos < n && 4 <= chaserFade <= 10 && 28 <= yellowHue <= 36 &&
      0 <= barPos < n && 0 <= swordPos < n && 0 <= swordPosOpposite < n &&
      |phasePos| == STRIPS && (forall k :: 0 <= k < STRIPS ==> 0 <= phasePos[k] < n) &&
      |twinklePos| == STRIPS && (forall k :: 0 <= k < STRIPS ==> 0 <= twinklePos[k] < n - 1) &&
      |twinkleHue| == STRIPS
    }
  }

  /** The FastLED colour machinery the effects call, as opaque functions.
      hsv: CHSV(h, 255, 255) as RGB; rainbow: CHSV(h, 240, 255) as fill_rainbow
      writes it; fire: ColorFromPalette(fires, i, BRIGHTNESS, LINEARBLEND);
      stars: ColorFromPalette(starpal, i, 255, LINEARBLEND); map8: map8(x, 0,
      NUM-1); dim: the channel scaling of fadeToBlackBy. */
  datatype Lib = Lib(
    hsv: byte -> RGB,
    rainbow: byte -> RGB,
    fire: byte -> RGB,
    stars: byte -> RGB,
    map8: byte -> int,
    dim: Dimmer
  ) {
    /** map8(x, 0, NUM-1) lies in [0, NUM-1]; dim never brightens. */
    predicate Fits(n: nat)
    {
      IsDimmer(dim) && forall x: byte :: 0 <= map8(x) < n
    }
  }

  /** Truncation to uint8_t. */
  function Wrap8(x: int): byte
  {
    x % 256
  }

  /** Per-strip hue offsets of hue_scroll. */
  const HueOffsets: seq<byte> := [0, 32, 64, 95, 127, 159, 191, 223]

  /** Per-strip palette start offsets of fireship. */
  const FireOffsets: seq<byte> := [0, 20, 40, 60, 60, 40, 20, 0]

  /** Colour index of pixel i when fill_palette / fill_rainbow start at
      `start` and add `step` per pixel in uint8_t arithmetic. */
  function GradientIndex(start: byte, step: nat, i: nat): byte
  {
    Wrap8(start + i * step)
  }

  /** The beat each arrow strip is positioned by: beat1 .. beat4, each 20
      ahead of the one before, and strip 9 - k mirroring strip k. */
  function ArrowBeats(beat1: byte): (r: seq<byte>)
    ensures |r| == STRIPS && r[0] == beat1
    ensures forall j :: 1 <= j < 4 ==> r[j] == Wrap8(r[j - 1] as int + 20)
    ensures forall k :: 0 <= k < STRIPS ==> r[k] == r[STRIPS - 1 - k]
  {
    var beat2 := Wrap8(beat1 + 20);
    var beat3 := Wrap8(beat2 + 20);
    var beat4 := Wrap8(beat3 + 20);
    [beat1, beat2, beat3, beat4, beat4, beat3, beat2, beat1]
  }

  /** The effects that light single pixels and then fade whole strips. */
  predicate Fading(m: nat)
  {
    m == ARROW_YELLOW || m == ARROW_COLOR || m == BIT_SIN || m == DUAL_SWORD ||
    m == PHASE_SINE || m == PHASE_SINE_GOLD || m == BAR_GRAPH || m == TWINKLERS
  }

  /** The fadeToBlackBy amount each trailing effect uses. */
  function FadeAmount(m: nat, rd: Readings): (amt: byte)
    requires Fading(m)
    ensures 4 <= rd.chaserFade ==> 0 < amt
  {
    if m == ARROW_YELLOW then 6
    else if m == ARROW_COLOR then 7
    else if m == BIT_SIN then rd.chaserFade
    else if m == DUAL_SWORD then 15
    else if m == PHASE_SINE || m == PHASE_SINE_GOLD then 30
    else if m == BAR_GRAPH then 5
    else 8
  }

  /** Colour of pixel i on strip k after a trailing effect's single-pixel
      writes and before its fade. `sparkle` says whether the 20 ms guard of
      twinklers fired this tick. In dual_sword the second write wins where
      the two swords meet. */
  function Painted(m: nat, k: nat, i: int, prev: RGB, n: nat, rd: Readings, fx: Lib, sparkle: bool): RGB
    requires Fading(m) && k < STRIPS && rd.Fits(n) && fx.Fits(n)
  {
    if m == ARROW_YELLOW then
      if i == fx.map8(ArrowBeats(rd.beat60)[k]) then fx.hsv(rd.yellowHue) else prev
    else if m == ARROW_COLOR then
      if i == fx.map8(ArrowBeats(rd.beat60)[k]) then fx.hsv(rd.swayHue) else prev
    else if m == BIT_SIN then
      if i == rd.sweepPos then fx.hsv(rd.rippleHue) else prev
    else if m == DUAL_SWORD then
      if i == rd.swordPosOpposite then fx.hsv(rd.swayHueOpposite)
      else if i == rd.swordPos then fx.hsv(rd.swayHue)
      else prev
    else if m == PHASE_SINE then
      if i == rd.phasePos[k] then Ivory else prev
    else if m == PHASE_SINE_GOLD then
      if i == rd.phasePos[k] then Gold else prev
    else if m == BAR_GRAPH then
      if i == rd.barPos then WhiteSmoke else prev
    else
      if sparkle && i == rd.twinklePos[k] then fx.stars(rd.twinkleHue[k]) else prev
  }

  /** The pixels a trailing effect writes on strip k this tick. */
  function DotPositions(m: nat, k: nat, n: nat, rd: Readings, fx: Lib, sparkle: bool): (r: set<int>)
    requires Fading(m) && k < STRIPS && rd.Fits(n) && fx.Fits(n)
    ensures forall p :: p in r ==> 0 <= p < n
    ensures m == TWINKLERS ==> forall p :: p in r ==> p < n - 1
  {
    if m == ARROW_YELLOW || m == ARROW_COLOR then {fx.map8(ArrowBeats(rd.beat60)[k])}
    else if m == BIT_SIN then {rd.sweepPos}
    else if m == DUAL_SWORD then {rd.swordPos, rd.swordPosOpposite}
    else if m == PHASE_SINE || m == PHASE_SINE_GOLD then {rd.phasePos[k]}
    else if m == BAR_GRAPH then {rd.barPos}
    else if sparkle then {rd.twinklePos[k]}
    else {}
  }

  /** Colour of pixel i on strip k after one tick of mode m, given its
      colour before the tick. */
  function Shade(m: nat, k: nat, i: nat, prev: RGB, n: nat, rd: Readings, fx: Lib, sparkle: bool): RGB
    requires m < MODES && k < STRIPS && 0 < n && rd.Fits(n) && fx.Fits(n)
  {
    if m == ALL_GOLD then Gold
    else if m == ALL_WHITE then Ivory
    else if m == RAINBOWS then fx.rainbow(GradientIndex(rd.beat40, 255 / n, i))
    else if m == HUE_SCROLL then fx.hsv(Wrap8(rd.beat40 + HueOffsets[k]))
    else if m == FIRESHIP then fx.fire(GradientIndex(Wrap8(rd.beat20 + FireOffsets[k]), 256 / n, i))
    else Fade(fx.dim, Painted(m, k, i, prev, n, rd, fx, sparkle), FadeAmount(m, rd))
  }

  /** A trailing effect writes only at its dot positions, then fades every
      pixel of the strip: off the dots the pixel is its old colour faded. */
  lemma OffDotPixelsOnlyFade(m: nat, k: nat, i: nat, prev: RGB, n: nat, rd: Readings, fx: Lib, sparkle: bool)
    requires Fading(m) && k < STRIPS && 0 < n && rd.Fits(n) && fx.Fits(n)
    requires i !in DotPositions(m, k, n, rd, fx, sparkle)
    ensures Shade(m, k, i, prev, n, rd, fx, sparkle) == Fade(fx.dim, prev, FadeAmount(m, rd))
    ensures NoBrighter(Shade(m, k, i, prev, n, rd, fx, sparkle), prev)
  {
  }

  /** The modes whose strips k and 9 - k (1-based) show the same picture. */
  predicate MirrorMode(m: nat)
  {
    m < MODES && m != HUE_SCROLL && m != PHASE_SINE && m != PHASE_SINE_GOLD && m != TWINKLERS
  }

  /** Mirror symmetry: in these modes strip k and strip STRIPS - 1 - k get the
      same index or palette offset, so equal old pixels give equal new ones. */
  lemma MirrorSymmetry(m: nat, k: nat, i: nat, prev: RGB, n: nat, rd: Readings, fx: Lib, sparkle: bool)
    requires MirrorMode(m) && k < STRIPS && 0 < n && rd.Fits(n) && fx.Fits(n)
    ensures Shade(m, k, i, prev, n, rd, fx, sparkle) == Shade(m, STRIPS - 1 - k, i, prev, n, rd, fx, sparkle)
  {
  }

  datatype TickInput = TickInput(rd: Readings, sparkle: bool)

  /** A pixel's colour after mode m has rendered each of `ticks` in turn. */
  function ShadeRun(m: nat, k: nat, i: nat, prev: RGB, n: nat, fx: Lib, ticks: seq<TickInput>): RGB
    requires m < MODES && k < STRIPS && 0 < n && fx.Fits(n)
    requires forall t :: 0 <= t < |ticks| ==> ticks[t].rd.Fits(n)
    decreases |ticks|
  {
    if ticks == [] then prev
    else ShadeRun(m, k, i, Shade(m, k, i, prev, n, ticks[0].rd, fx, ticks[0].sparkle), n, fx, ticks[1..])
  }

  /** The fade amounts a trailing effect applies over `ticks`. */
  function Amounts(m: nat, ticks: seq<TickInput>): (amts: seq<byte>)
    requires Fading(m)
    ensures |amts| == |ticks|
    ensures forall t :: 0 <= t < |ticks| ==> amts[t] == FadeAmount(m, ticks[t].rd)
    decreases |ticks|
  {
    if ticks == [] then [] else [FadeAmount(m, ticks[0].rd)] + Amounts(m, ticks[1..])
  }

  /** A pixel no dot lands on only decays, tick after tick. */
  lemma {:induction false} UnlitPixelDecays(m: nat, k: nat, i: nat, prev: RGB, n: nat, fx: Lib, ticks: seq<TickInput>)
    requires Fading(m) && k < STRIPS && 0 < n && fx.Fits(n)
    requires forall t :: 0 <= t < |ticks| ==> ticks[t].rd.Fits(n)
    requires forall t :: 0 <= t < |ticks| ==> i !in DotPositions(m, k, n, ticks[t].rd, fx, ticks[t].sparkle)
    ensures ShadeRun(m, k, i, prev, n, fx, ticks) == FadeSeq(fx.dim, prev, Amounts(m, ticks))
    decreases |ticks|
  {
    if ticks != [] {
      OffDotPixelsOnlyFade(m, k, i, prev, n, ticks[0].rd, fx, ticks[0].sparkle);
      UnlitPixelDecays(m, k, i, Fade(fx.dim, prev, FadeAmount(m, ticks[0].rd)), n, fx, ticks[1..]);
    }
  }

  /** Trails fade out: with a dimmer that lowers every lit channel, a pixel
      that no dot lands on for 255 ticks of a trailing effect is black. */
  lemma UnlitPixelGoesBlack(m: nat, k: nat, i: nat, prev: RGB, n: nat, fx: Lib, ticks: seq<TickInput>)
    requires Fading(m) && k < STRIPS && 0 < n && fx.Fits(n) && DimsStrictly(fx.dim)
    requires |ticks| >= 255
    requires forall t :: 0 <= t < |ticks| ==> ticks[t].rd.Fits(n)
    requires forall t :: 0 <= t < |ticks| ==> i !in DotPositions(m, k, n, ticks[t].rd, fx, ticks[t].sparkle)
    ensures ShadeRun(m, k, i, prev, n, fx, ticks) == Black
  {
    UnlitPixelDecays(m, k, i, prev, n, fx, ticks);
    DecayReachesBlack(fx.dim, prev, Amounts(m, ticks));
  }
}
