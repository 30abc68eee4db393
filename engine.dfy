/** The light engine's global state and the code that changes it: the
    eight strip buffers, the mode index, the cycling and suspension flags,
    the two static EVERY_N timers, the web-route handlers' state updates,
    the effects and the render loop. */
module Engine {
  import opened Color
  import opened Modes
  import opened Timing
  import opened Effects
  import opened Cycling
  /** EVERY_N_MILLISECONDS(20) in twinklers. */
  const TWINKLE_MS: nat := 20

  /** What the /setMode route answers. */
  datatype SetModeReply = ModeChangedTo(index: nat) | ModeRemains

  class Lights {
    /** NUM: LEDs per strip. */
    const numLeds: nat
    /** pix1 .. pix8 as the rows 0 .. 7 of one buffer. */
    const pix: array2<RGB>
    /** m_index */
    var mIndex: nat
    /** changeModes: automatic cycling enabled. */
    var changeModes: bool
    /** otaInProgress: rendering suspended. */
    var otaInProgress: bool
    /** The static timer of EVERY_N_SECONDS(200) in loop, on a seconds clock. */
    var cycleTimer: Timer
    /** The static timer of EVERY_N_MILLISECONDS(20) in twinklers. */
    var twinkleTimer: Timer

    ghost predicate Valid()
      reads this
    {
      2 <= numLeds <= 256 &&
      pix.Length0 == STRIPS && pix.Length1 == numLeds &&
      mIndex < MODES
    }

    /** Every pixel of every strip has colour c. */
    ghost predicate AllPixels(c: RGB)
      reads this, pix
      requires Valid()
    {
      forall k, i :: 0 <= k < STRIPS && 0 <= i < numLeds ==> pix[k, i] == c
    }

    /** Strip k and strip STRIPS - 1 - k (pix1 and pix8, pix2 and pix7, ...)
        show the same picture. */
    ghost predicate Mirrored()
      reads this, pix
      requires Valid()
    {
      forall k, i :: 0 <= k < STRIPS && 0 <= i < numLeds ==> pix[k, i] == pix[STRIPS - 1 - k, i]
    }

    /** The globals as the program starts: zeroed buffers, mode 0, cycling
        on, rendering on, both timers not yet armed. */
    constructor (n: nat)
      requires 2 <= n <= 256
      ensures Valid() && fresh(pix) && numLeds == n
      ensures mIndex == 0 && changeModes && !otaInProgress
      ensures cycleTimer == Unarmed && twinkleTimer == Unarmed
      ensures AllPixels(Black)
    {
      numLeds := n;
      pix := new RGB[STRIPS, n]((k, i) => Black);
      mIndex := 0;
      changeModes := true;
      otaInProgress := false;
      cycleTimer := Unarmed;
      twinkleTimer := Unarmed;
    }

    /** modeChange: advance to the next mode, wrapping after the last. */
    method ModeChange()
      requires Valid()
      modifies this`mIndex
      ensures Valid() && mIndex == Next(old(mIndex))
    {
      mIndex := (mIndex + 1) % MODES;
    }

    /** The /next route: advance and report the new mode. */
    method HandleNext() returns (shown: nat)
      requires Valid()
      modifies this`mIndex
      ensures Valid() && mIndex == Next(old(mIndex)) && shown == mIndex
    {
      ModeChange();
      shown := mIndex;
    }

    /** The /setMode route, given the name of the request's first parameter
        and the integer its value converts to. Only a parameter named "m"
        with a value in range changes the mode; an out-of-range value is
        rejected and the mode stays. */
    method HandleSetMode(name: string, m: int) returns (reply: SetModeReply)
      requires Valid()
      modifies this`mIndex
      ensures Valid()
      ensures name == "m" && 0 <= m < MODES ==> mIndex == m && reply == ModeChangedTo(m)
      ensures name == "m" && !(0 <= m < MODES) ==> mIndex == old(mIndex) && reply == ModeRemains
      ensures name != "m" ==> mIndex == old(mIndex) && reply == ModeChangedTo(mIndex)
    {
      if name == "m" {
        if 0 <= m < MODES {
          mIndex := m;
        } else {
          return ModeRemains;
        }
      }
      reply := ModeChangedTo(mIndex);
    }

    /** The /cycle route: toggle automatic cycling and report it. */
    method HandleCycle() returns (cycling: bool)
      requires Valid()
      modifies this`changeModes
      ensures Valid() && changeModes == !old(changeModes) && cycling == changeModes
    {
      changeModes := !changeModes;
      cycling := changeModes;
    }

    /** The /prep route: toggle suspension and blank every strip, in both
        directions; reports whether the lights now run. */
    method HandlePrep() returns (running: bool)
      requires Valid()
      modifies this`otaInProgress, pix
      ensures Valid() && otaInProgress == !old(otaInProgress) && running == !otaInProgress
      ensures AllPixels(Black)
    {
      otaInProgress := !otaInProgress;
      AllBlack();
      running := !otaInProgress;
    }

    /** fill_solid on strip k. */
    method FillSolid(k: nat, c: RGB)
      requires Valid() && k < STRIPS
      modifies pix
      ensures forall i :: 0 <= i < numLeds ==> pix[k, i] == c
      ensures forall j, i :: 0 <= j < STRIPS && j != k && 0 <= i < numLeds ==> pix[j, i] == old(pix[j, i])
    {
      for i := 0 to numLeds
        invariant forall x :: 0 <= x < i ==> pix[k, x] == c
        invariant forall j, x :: 0 <= j < STRIPS && j != k && 0 <= x < numLeds ==> pix[j, x] == old(pix[j, x])
      {
        pix[k, i] := c;
      }
    }

    /** fill_palette / fill_rainbow on strip k: pixel i gets the colour at
        index start + i * step (uint8_t arithmetic). */
    method FillGradient(k: nat, start: byte, step: nat, colourAt: byte -> RGB)
      requires Valid() && k < STRIPS
      modifies pix
      ensures forall i :: 0 <= i < numLeds ==> pix[k, i] == colourAt(GradientIndex(start, step, i))
      ensures forall j, i :: 0 <= j < STRIPS && j != k && 0 <= i < numLeds ==> pix[j, i] == old(pix[j, i])
    {
      for i := 0 to numLeds
        invariant forall x :: 0 <= x < i ==> pix[k, x] == colourAt(GradientIndex(start, step, x))
        invariant forall j, x :: 0 <= j < STRIPS && j != k && 0 <= x < numLeds ==> pix[j, x] == old(pix[j, x])
      {
        pix[k, i] := colourAt(GradientIndex(start, step, i));
      }
    }

    /** fadeToBlackBy on strip k: every pixel of the strip is faded. */
    method FadeToBlackBy(k: nat, amt: byte, dim: Dimmer)
      requires Valid() && k < STRIPS && IsDimmer(dim)
      modifies pix
      ensures forall i :: 0 <= i < numLeds ==> pix[k, i] == Fade(dim, old(pix[k, i]), amt)
      ensures forall j, i :: 0 <= j < STRIPS && j != k && 0 <= i < numLeds ==> pix[j, i] == old(pix[j, i])
    {
      for i := 0 to numLeds
        invariant forall x :: 0 <= x < i ==> pix[k, x] == Fade(dim, old(pix[k, x]), amt)
        invariant forall x :: i <= x < numLeds ==> pix[k, x] == old(pix[k, x])
        invariant forall j, x :: 0 <= j < STRIPS && j != k && 0 <= x < numLeds ==> pix[j, x] == old(pix[j, x])
      {
        pix[k, i] := Fade(dim, pix[k, i], amt);
      }
    }

    /** Fill every strip with one colour. */
    method FillAll(c: RGB)
      requires Valid()
      modifies pix
      ensures AllPixels(c)
    {
      for k := 0 to STRIPS
        invariant forall j, i :: 0 <= j < k && 0 <= i < numLeds ==> pix[j, i] == c
      {
        FillSolid(k, c);
      }
    }

    /** all_gold */
    method AllGold()
      requires Valid()
      modifies pix
      ensures AllPixels(Gold)
    {
      FillAll(Gold);
    }

    /** all_white */
    method AllWhite()
      requires Valid()
      modifies pix
      ensures AllPixels(Ivory)
    {
      FillAll(Ivory);
    }

    /** all_black */
    method AllBlack()
      requires Valid()
      modifies pix
      ensures AllPixels(Black)
    {
      FillAll(Black);
    }

    /** hue_scroll: strip k is one solid hue, the shared beat plus the
        strip's offset. */
    method HueScroll(rd: Readings, fx: Lib)
      requires Valid() && rd.Fits(numLeds) && fx.Fits(numLeds)
      modifies pix
      ensures forall k, i :: 0 <= k < STRIPS && 0 <= i < numLeds ==>
        pix[k, i] == fx.hsv(Wrap8(rd.beat40 + HueOffsets[k]))
    {
      for k := 0 to STRIPS
        invariant forall j, i :: 0 <= j < k && 0 <= i < numLeds ==>
          pix[j, i] == fx.hsv(Wrap8(rd.beat40 + HueOffsets[j]))
      {
        FillSolid(k, fx.hsv(Wrap8(rd.beat40 + HueOffsets[k])));
      }
    }

    /** rainbows: the same rainbow gradient on every strip. */
    method Rainbows(rd: Readings, fx: Lib)
      requires Valid() && rd.Fits(numLeds) && fx.Fits(numLeds)
      modifies pix
      ensures forall k, i :: 0 <= k < STRIPS && 0 <= i < numLeds ==>
        pix[k, i] == fx.rainbow(GradientIndex(rd.beat40, 255 / numLeds, i))
    {
      for k := 0 to STRIPS
        invariant forall j, i :: 0 <= j < k && 0 <= i < numLeds ==>
          pix[j, i] == fx.rainbow(GradientIndex(rd.beat40, 255 / numLeds, i))
      {
        FillGradient(k, rd.beat40, 255 / numLeds, fx.rainbow);
      }
    }

    /** fireship: the fire palette from the shared beat plus a mirrored
        per-strip offset. */
    method Fireship(rd: Readings, fx: Lib)
      requires Valid() && rd.Fits(numLeds) && fx.Fits(numLeds)
      modifies pix
      ensures forall k, i :: 0 <= k < STRIPS && 0 <= i < numLeds ==>
        pix[k, i] == fx.fire(GradientIndex(Wrap8(rd.beat20 + FireOffsets[k]), 256 / numLeds, i))
    {
      for k := 0 to STRIPS
        invariant forall j, i :: 0 <= j < k && 0 <= i < numLeds ==>
          pix[j, i] == fx.fire(GradientIndex(Wrap8(rd.beat20 + FireOffsets[j]), 256 / numLeds, i))
      {
        FillGradient(k, Wrap8(rd.beat20 + FireOffsets[k]), 256 / numLeds, fx.fire);
      }
    }

    /** The shape shared by the trailing effects: on each strip, write the
        effect's single pixels, then fade the whole strip. */
    method PaintAndFade(m: nat, rd: Readings, fx: Lib, sparkle: bool)
      requires Valid() && Fading(m) && rd.Fits(numLeds) && fx.Fits(numLeds)
      modifies pix
      ensures forall k, i :: 0 <= k < STRIPS && 0 <= i < numLeds ==>
        pix[k, i] == Fade(fx.dim, Painted(m, k, i, old(pix[k, i]), numLeds, rd, fx, sparkle), FadeAmount(m, rd))
    {
      for k := 0 to STRIPS
        invariant forall j, i :: 0 <= j < k && 0 <= i < numLeds ==>
          pix[j, i] == Fade(fx.dim, Painted(m, j, i, old(pix[j, i]), numLeds, rd, fx, sparkle), FadeAmount(m, rd))
        invariant forall j, i :: k <= j < STRIPS && 0 <= i < numLeds ==> pix[j, i] == old(pix[j, i])
      {
        Paint(m, k, rd, fx, sparkle);
        FadeToBlackBy(k, FadeAmount(m, rd), fx.dim);
      }
    }

    /** The single-pixel writes of a trailing effect on strip k. */
    method Paint(m: nat, k: nat, rd: Readings, fx: Lib, sparkle: bool)
      requires Valid() && Fading(m) && k < STRIPS && rd.Fits(numLeds) && fx.Fits(numLeds)
      modifies pix
      ensures forall i :: 0 <= i < numLeds ==> pix[k, i] == Painted(m, k, i, old(pix[k, i]), numLeds, rd, fx, sparkle)
      ensures forall j, i :: 0 <= j < STRIPS && j != k && 0 <= i < numLeds ==> pix[j, i] == old(pix[j, i])
    {
      if m == ARROW_YELLOW {
        pix[k, fx.map8(ArrowBeats(rd.beat60)[k])] := fx.hsv(rd.yellowHue);
      } else if m == ARROW_COLOR {
        pix[k, fx.map8(ArrowBeats(rd.beat60)[k])] := fx.hsv(rd.swayHue);
      } else if m == BIT_SIN {
        pix[k, rd.sweepPos] := fx.hsv(rd.rippleHue);
      } else if m == DUAL_SWORD {
        pix[k, rd.swordPos] := fx.hsv(rd.swayHue);
        pix[k, rd.swordPosOpposite] := fx.hsv(rd.swayHueOpposite);
      } else if m == PHASE_SINE {
        pix[k, rd.phasePos[k]] := Ivory;
      } else if m == PHASE_SINE_GOLD {
        pix[k, rd.phasePos[k]] := Gold;
      } else if m == BAR_GRAPH {
        pix[k, rd.barPos] := WhiteSmoke;
      } else if sparkle {
        pix[k, rd.twinklePos[k]] := fx.stars(rd.twinkleHue[k]);
      }
    }
    /** arrow_yellow: four mirrored arrow dots, yellow to orange, fade 6. */
    method ArrowYellow(rd: Readings, fx: Lib)
      requires Valid() && rd.Fits(numLeds) && fx.Fits(numLeds)
      modifies pix
      ensures forall k, i :: 0 <= k < STRIPS && 0 <= i < numLeds ==>
        pix[k, i] == Fade(fx.dim, Painted(ARROW_YELLOW, k, i, old(pix[k, i]), numLeds, rd, fx, false), 6)
    {
      PaintAndFade(ARROW_YELLOW, rd, fx, false);
    }

    /** arrow_color: the same arrows in a swaying hue, fade 7. */
    method ArrowColor(rd: Readings, fx: Lib)
      requires Valid() && rd.Fits(numLeds) && fx.Fits(numLeds)
      modifies pix
      ensures forall k, i :: 0 <= k < STRIPS && 0 <= i < numLeds ==>
        pix[k, i] == Fade(fx.dim, Painted(ARROW_COLOR, k, i, old(pix[k, i]), numLeds, rd, fx, false), 7)
    {
      PaintAndFade(ARROW_COLOR, rd, fx, false);
    }

    /** bitSinAKM: one sweeping dot on every strip, fade by the chaser beat. */
    method BitSinAkm(rd: Readings, fx: Lib)
      requires Valid() && rd.Fits(numLeds) && fx.Fits(numLeds)
      modifies pix
      ensures forall k, i :: 0 <= k < STRIPS && 0 <= i < numLeds ==>
        pix[k, i] == Fade(fx.dim, Painted(BIT_SIN, k, i, old(pix[k, i]), numLeds, rd, fx, false), rd.chaserFade)
    {
      PaintAndFade(BIT_SIN, rd, fx, false);
    }

    /** dual_sword: two dots half a period apart on every strip, fade 15. */
    method DualSword(rd: Readings, fx: Lib)
      requires Valid() && rd.Fits(numLeds) && fx.Fits(numLeds)
      modifies pix
      ensures forall k, i :: 0 <= k < STRIPS && 0 <= i < numLeds ==>
        pix[k, i] == Fade(fx.dim, Painted(DUAL_SWORD, k, i, old(pix[k, i]), numLeds, rd, fx, false), 15)
    {
      PaintAndFade(DUAL_SWORD, rd, fx, false);
    }

    /** phase_sine: one ivory dot per strip at its own phase, fade 30. */
    method PhaseSine(rd: Readings, fx: Lib)
      requires Valid() && rd.Fits(numLeds) && fx.Fits(numLeds)
      modifies pix
      ensures forall k, i :: 0 <= k < STRIPS && 0 <= i < numLeds ==>
        pix[k, i] == Fade(fx.dim, Painted(PHASE_SINE, k, i, old(pix[k, i]), numLeds, rd, fx, false), 30)
    {
      PaintAndFade(PHASE_SINE, rd, fx, false);
    }

    /** phase_sine_gold: phase_sine in gold. */
    method PhaseSineGold(rd: Readings, fx: Lib)
      requires Valid() && rd.Fits(numLeds) && fx.Fits(numLeds)
      modifies pix
      ensures forall k, i :: 0 <= k < STRIPS && 0 <= i < numLeds ==>
        pix[k, i] == Fade(fx.dim, Painted(PHASE_SINE_GOLD, k, i, old(pix[k, i]), numLeds, rd, fx, false), 30)
    {
      PaintAndFade(PHASE_SINE_GOLD, rd, fx, false);
    }

    /** bar_graph: one white-smoke dot on every strip, fade 5. */
    method BarGraph(rd: Readings, fx: Lib)
      requires Valid() && rd.Fits(numLeds) && fx.Fits(numLeds)
      modifies pix
      ensures forall k, i :: 0 <= k < STRIPS && 0 <= i < numLeds ==>
        pix[k, i] == Fade(fx.dim, Painted(BAR_GRAPH, k, i, old(pix[k, i]), numLeds, rd, fx, false), 5)
    {
      PaintAndFade(BAR_GRAPH, rd, fx, false);
    }

    /** twinklers: when its 20 ms guard fires, one random pixel per strip
        takes a star-palette colour; every call fades every strip by 8.
        random(0, NUM-1) never reaches the last pixel, which only fades. */
    method Twinklers(now: nat, rd: Readings, fx: Lib)
      requires Valid() && rd.Fits(numLeds) && fx.Fits(numLeds) && NotAfter(twinkleTimer, now)
      modifies pix, this`twinkleTimer
      ensures Valid()
      ensures var p := PollTimer(old(twinkleTimer), now, TWINKLE_MS);
        twinkleTimer == p.timer &&
        forall k, i :: 0 <= k < STRIPS && 0 <= i < numLeds ==>
          pix[k, i] == Fade(fx.dim, Painted(TWINKLERS, k, i, old(pix[k, i]), numLeds, rd, fx, p.fired), 8)
      ensures forall k, i :: 0 <= k < STRIPS && numLeds - 1 <= i < numLeds ==>
        pix[k, i] == Fade(fx.dim, old(pix[k, i]), 8)
    {
      var p := PollTimer(twinkleTimer, now, TWINKLE_MS);
      twinkleTimer := p.timer;
      PaintAndFade(TWINKLERS, rd, fx, p.fired);
    }

    /** mode(i): run the effect numbered i; any other number does nothing. */
    method Mode(i: int, now: nat, rd: Readings, fx: Lib)
      requires Valid() && rd.Fits(numLeds) && fx.Fits(numLeds) && NotAfter(twinkleTimer, now)
      modifies pix, this`twinkleTimer
      ensures Valid()
      ensures var p := PollTimer(old(twinkleTimer), now, TWINKLE_MS);
        twinkleTimer == (if i == TWINKLERS then p.timer else old(twinkleTimer)) &&
        (0 <= i < MODES ==>
          forall k, x :: 0 <= k < STRIPS && 0 <= x < numLeds ==>
            pix[k, x] == Shade(i, k, x, old(pix[k, x]), numLeds, rd, fx, p.fired))
      ensures !(0 <= i < MODES) ==>
        forall k, x :: 0 <= k < STRIPS && 0 <= x < numLeds ==> pix[k, x] == old(pix[k, x])
      ensures 0 <= i && MirrorMode(i) && old(Mirrored()) ==> Mirrored()
    {
      if i == ALL_GOLD { AllGold(); }
      else if i == ALL_WHITE { AllWhite(); }
      else if i == RAINBOWS { Rainbows(rd, fx); }
      else if i == HUE_SCROLL { HueScroll(rd, fx); }
      else if i == ARROW_YELLOW { ArrowYellow(rd, fx); }
      else if i == ARROW_COLOR { ArrowColor(rd, fx); }
      else if i == BIT_SIN { BitSinAkm(rd, fx); }
      else if i == DUAL_SWORD { DualSword(rd, fx); }
      else if i == PHASE_SINE { PhaseSine(rd, fx); }
      else if i == PHASE_SINE_GOLD { PhaseSineGold(rd, fx); }
      else if i == FIRESHIP { Fireship(rd, fx); }
      else if i == BAR_GRAPH { BarGraph(rd, fx); }
      else if i == TWINKLERS { Twinklers(now, rd, fx); }
      if 0 <= i && MirrorMode(i) && old(Mirrored()) {
        var sparkle := PollTimer(old(twinkleTimer), now, TWINKLE_MS).fired;
        forall k, x | 0 <= k < STRIPS && 0 <= x < numLeds
          ensures pix[k, x] == pix[STRIPS - 1 - k, x]
        {
          MirrorSymmetry(i, k, x, old(pix[k, x]), numLeds, rd, fx, sparkle);
        }
      }
    }

    /** loop: one tick. Suspended, nothing is rendered and nothing advances.
        Otherwise the current mode renders, then the 200 s guard is polled;
        it restarts whenever it fires, and the mode advances only if
        cycling is on. The guard reads a seconds clock, millis() / 1000. */
    method Loop(now: nat, rd: Readings, fx: Lib)
      requires Valid() && rd.Fits(numLeds) && fx.Fits(numLeds)
      requires NotAfter(cycleTimer, now / 1000) && NotAfter(twinkleTimer, now)
      modifies this, pix
      ensures Valid()
      ensures changeModes == old(changeModes) && otaInProgress == old(otaInProgress)
      ensures old(otaInProgress) ==>
        mIndex == old(mIndex) && cycleTimer == old(cycleTimer) && twinkleTimer == old(twinkleTimer) &&
        forall k, x :: 0 <= k < STRIPS && 0 <= x < numLeds ==> pix[k, x] == old(pix[k, x])
      ensures !old(otaInProgress) ==>
        var cycle := PollTimer(old(cycleTimer), now / 1000, DWELL_SECONDS);
        var twinkle := PollTimer(old(twinkleTimer), now, TWINKLE_MS);
        cycleTimer == cycle.timer &&
        mIndex == (if cycle.fired && changeModes then Next(old(mIndex)) else old(mIndex)) &&
        CycleState(mIndex, cycleTimer) == CycleStep(CycleState(old(mIndex), old(cycleTimer)), now / 1000, changeModes) &&
        twinkleTimer == (if old(mIndex) == TWINKLERS then twinkle.timer else old(twinkleTimer)) &&
        forall k, x :: 0 <= k < STRIPS && 0 <= x < numLeds ==>
          pix[k, x] == Shade(old(mIndex), k, x, old(pix[k, x]), numLeds, rd, fx, twinkle.fired)
    {
      if !otaInProgress {
        Mode(mIndex, now, rd, fx);
        var cycle := PollTimer(cycleTimer, now / 1000, DWELL_SECONDS);
        cycleTimer := cycle.timer;
        if cycle.fired && changeModes {
          ModeChange();
        }
      }
    }
  }
}
