/** Pixel colours and the per-tick decay ("fade to black") that every
    trailing effect applies to its strips. */
module Color {

  /** An 8-bit channel value, FastLED's uint8_t. */
  type byte = x: int | 0 <= x < 256

  /** One pixel: FastLED's CRGB. */
  datatype RGB = RGB(r: byte, g: byte, b: byte)

  /** The named colours the effects write (FastLED's HTML colour codes). */
  const Black := RGB(0, 0, 0)
  const Gold := RGB(255, 215, 0)
  const Ivory := RGB(255, 255, 240)
  const WhiteSmoke := RGB(245, 245, 245)

  /** The per-channel scaling behind fadeToBlackBy: channel value and fade
      amount in, new channel value out. Its arithmetic belongs to FastLED and
      is not modelled; only the properties below are assumed of it. */
  type Dimmer = (byte, byte) -> byte

  /** A dimmer never raises a channel (and so keeps 0 at 0). */
  predicate IsDimmer(dim: Dimmer)
  {
    forall c: byte, amt: byte :: dim(c, amt) <= c
  }

  /** A dimmer that lowers every lit channel when the amount is non-zero,
      as FastLED's 8-bit scaling does for any amount above 0. */
  predicate DimsStrictly(dim: Dimmer)
  {
    forall c: byte, amt: byte :: 0 < c && 0 < amt ==> dim(c, amt) < c
  }

  /** No channel of a is brighter than the same channel of b. */
  predicate NoBrighter(a: RGB, b: RGB)
  {
    a.r <= b.r && a.g <= b.g && a.b <= b.b
  }

  /** fadeToBlackBy applied to one pixel: the same scaling on each channel. */
  function Fade(dim: Dimmer, c: RGB, amt: byte): (r: RGB)
    requires IsDimmer(dim)
    ensures NoBrighter(r, c)
    ensures c == Black ==> r == Black
  {
    RGB(dim(c.r, amt), dim(c.g, amt), dim(c.b, amt))
  }

  /** A pixel faded once per tick by the amounts in amts, in order. */
  function FadeSeq(dim: Dimmer, c: RGB, amts: seq<byte>): RGB
    requires IsDimmer(dim)
    decreases |amts|
  {
    if amts == [] then c else FadeSeq(dim, Fade(dim, c, amts[0]), amts[1..])
  }

  /** Repeated decay never brightens a pixel and leaves black black. */
  lemma {:induction false} FadingNeverBrightens(dim: Dimmer, c: RGB, amts: seq<byte>)
    requires IsDimmer(dim)
    ensures NoBrighter(FadeSeq(dim, c, amts), c)
    ensures c == Black ==> FadeSeq(dim, c, amts) == Black
    decreases |amts|
  {
    if amts != [] {
      FadingNeverBrightens(dim, Fade(dim, c, amts[0]), amts[1..]);
    }
  }

  /** Under a strict dimmer every tick with a non-zero amount lowers each
      lit channel by at least one. */
  lemma {:induction false} DecayBound(dim: Dimmer, c: RGB, amts: seq<byte>)
    requires IsDimmer(dim) && DimsStrictly(dim)
    requires forall j :: 0 <= j < |amts| ==> 0 < amts[j]
    ensures var f := FadeSeq(dim, c, amts);
      (f.r == 0 || f.r + |amts| <= c.r) &&
      (f.g == 0 || f.g + |amts| <= c.g) &&
      (f.b == 0 || f.b + |amts| <= c.b)
    decreases |amts|
  {
    if amts != [] {
      var c' := Fade(dim, c, amts[0]);
      DecayBound(dim, c', amts[1..]);
    }
  }

  /** Decay converges: 255 ticks of non-zero fading turn any pixel black. */
  lemma DecayReachesBlack(dim: Dimmer, c: RGB, amts: seq<byte>)
    requires IsDimmer(dim) && DimsStrictly(dim)
    requires |amts| >= 255
    requires forall j :: 0 <= j < |amts| ==> 0 < amts[j]
    ensures FadeSeq(dim, c, amts) == Black
  {
    DecayBound(dim, c, amts);
  }
}
