# Eight-strip LED effect engine, in Dafny

A model of the light engine of an ESP32 controller that drives eight
addressable LED strips (`src/main.cpp`). The engine keeps eight pixel
buffers (`pix1` .. `pix8`, each `NUM` pixels), the active mode index
`m_index` (0 .. 12), the cycling flag `changeModes` and the suspension flag
`otaInProgress`. Each pass of `loop` renders the selected effect unless
rendering is suspended, and every 200 seconds advances the mode when
cycling is on. Web routes change the same state: `/next` advances the mode,
`/setMode?m=<n>` selects one, `/cycle` toggles cycling and `/prep` toggles
suspension and blanks the strips.

Modules:

- `Color` (color.dfy): pixels, the named colours, and the decay that
  `fadeToBlackBy` applies. The channel scaling is a parameter (`Dimmer`). It
  is assumed never to raise a channel, and, for the convergence lemma only,
  to lower every lit channel when the amount is non-zero.
- `Modes` (modes.dfy): `modeChange` as a function, its iteration, and the
  fact that the cycle has length exactly 13.
- `Timing` (timing.dfy): FastLED's `EVERY_N_SECONDS` / `EVERY_N_MILLISECONDS`
  static timer, made explicit. It arms on its first evaluation, fires when a
  full period has elapsed, and restarts from the current time when it fires.
  Lemmas bound how often it fires over any run of evaluations.
- `Cycling` (cycling.dfy): the 200 s guard and the mode index together, one
  poll per rendered tick and over a run of ticks. The mode advances once per
  firing when cycling is on, so it moves at most once per 200 s.
- `Effects` (effects.dfy): the thirteen effects as a per-pixel function
  `Shade`. The oscillator and random values of a tick are a `Readings` value,
  and each carries its documented range (`beatsin8(.., lo, hi)` in
  `[lo, hi]`, `random(a, b)` in `[a, b)`). FastLED's colour conversion,
  palettes and `map8` are the opaque functions of a `Lib` value. Lemmas cover
  mirror symmetry, writes only at the dot positions (all in bounds), fading
  of everything else, and trails fading out.
- `Engine` (engine.dfy): class `Lights`. It holds the globals, with the
  eight buffers as the rows of one `array2`. Its methods are the route
  handlers' state updates, `modeChange`, the effects, `mode` and `loop`.
  Each is proved against the functions above.

What the code does, in the points that decide the model:

- `/setMode` rejects an out-of-range value and keeps the mode. A first
  parameter not named `m` changes nothing, and the route still answers
  "Mode Changed to" the current mode.
- While suspended, `loop` renders nothing and does not touch the buffers.
  They are blanked only by `/prep`, on both toggle directions.
- The 200 s timer is polled only while rendering runs, and it restarts
  whenever it fires, even when cycling is off.
- `hue_scroll`'s per-strip hue offsets are 0, 32, 64, 95, 127, 159, 191, 223.
- The arrows place their dots with `map8(beat, 0, NUM-1)`.
- `twinklers` draws its pixel with `random(0, NUM-1)`, so it never lights
  the last pixel of a strip. That pixel only fades.

## Model

| member | source | states |
|---|---|---|
| Color.Fade | src/main.cpp:318-325 | fadeToBlackBy on one pixel never brightens any channel and keeps black black |
| Color.FadingNeverBrightens | src/main.cpp:339-346 | any number of successive fades never brightens a pixel, and black stays black |
| Color.DecayBound | src/main.cpp:339-346 | with a strict dimmer, each tick of non-zero fading lowers every lit channel by at least one |
| Color.DecayReachesBlack | src/main.cpp:339-346 | with a strict dimmer, 255 ticks of non-zero fading turn any pixel black |
| Modes.Next | src/main.cpp:233-235 | modeChange keeps the index in [0, 13): it adds one and wraps from 12 to 0 |
| Modes.AdvanceBy | src/main.cpp:233-235 | any number of consecutive modeChange calls leaves the index in [0, 13) |
| Modes.AdvanceByIsAddition | src/main.cpp:233-235 | n consecutive modeChange calls move the index from m to (m + n) mod 13 |
| Modes.AdvanceByShift | src/main.cpp:233-235 | one modeChange followed by n more is the same as n + 1 modeChange calls |
| Modes.CycleCloses | src/main.cpp:233-235 | 13 consecutive modeChange calls restore the index, and no fewer do |
| Timing.PollTimer | src/main.cpp:178-181 | an EVERY_N guard's first evaluation arms it at the current time without firing; afterwards it fires only once a full period has passed since its last restart, and then restarts at the current time |
| Timing.Run | src/main.cpp:178-181 | over a run of evaluations the guard fires at most once per evaluation and its restart time never moves backwards |
| Timing.AtMostOncePerPeriod | src/main.cpp:178-181 | however often loop runs, the 200 s guard fires at most once per 200 s: firings times period never exceed the elapsed time |
| Timing.FiresEveryPeriod | src/main.cpp:178-181 | with evaluations at most gap apart, firings are at most period + gap apart, and the last one is less than a period before the end |
| Timing.FiresAtLeast | src/main.cpp:178-181 | with evaluations at most gap apart, the guard fires at least once for every period + gap of elapsed time |
| Cycling.CycleStep | src/main.cpp:178-181 | one rendered tick polls the 200 s guard; the timer restarts when it fires, and the mode advances to Next only if it fired while changeModes is on |
| Cycling.CycleRun | src/main.cpp:178-181 | over any run of rendered ticks the mode index stays in [0, 13) |
| Cycling.CycleRunAdvances | src/main.cpp:178-181 | over a run of rendered ticks the mode advances exactly once per firing of the guard when cycling is on, and not at all when it is off |
| Cycling.AtMostOneAdvancePerDwell | src/main.cpp:178-181 | however fast loop runs, the mode ends f advances on, with at least f * 200 seconds elapsed |
| Effects.ArrowBeats | src/main.cpp:349-362 | the arrow beats are beat1 and three more, each 20 ahead of the previous mod 256; strips (1,8), (2,7), (3,6) and (4,5) share a beat |
| Effects.FadeAmount | src/main.cpp:364-371 | every trailing effect fades by a non-zero amount (6, 7, the 4..10 chaser beat, 15, 30, 5 or 8) |
| Effects.DotPositions | src/main.cpp:304-316 | every single-pixel write of every effect is inside [0, NUM); twinklers' writes are inside [0, NUM-1) |
| Effects.OffDotPixelsOnlyFade | src/main.cpp:355-371 | the writes come before the fade: every pixel off the dots is just its old colour faded, never brighter |
| Effects.MirrorSymmetry | src/main.cpp:421-431 | in every mode except hue_scroll, phase_sine, phase_sine_gold and twinklers, strip k and strip 9-k turn equal old pixels into equal new pixels |
| Effects.UnlitPixelDecays | src/main.cpp:390-397 | a pixel that no dot lands on over a run of ticks is its start colour faded by each tick's amount in turn |
| Effects.UnlitPixelGoesBlack | src/main.cpp:411-418 | trails fade out: with a strict dimmer, a pixel that no dot lands on for 255 ticks of a trailing effect is black |
| Engine.Lights.constructor | src/main.cpp:18-34 | the program starts in mode 0 with cycling on, rendering on, black buffers and both static timers unarmed |
| Engine.Lights.ModeChange | src/main.cpp:233-235 | modeChange sets the index to Next of the old index and changes nothing else |
| Engine.Lights.HandleNext | src/main.cpp:113-116 | /next advances the mode exactly as modeChange does and reports the new index |
| Engine.Lights.HandleSetMode | src/main.cpp:119-139 | /setMode with m in [0, 13) selects mode m; an out-of-range m is rejected and the index kept; a first parameter not named m changes nothing |
| Engine.Lights.HandleCycle | src/main.cpp:152-156 | /cycle flips changeModes only; the index and the buffers are untouched |
| Engine.Lights.HandlePrep | src/main.cpp:142-149 | /prep flips otaInProgress and leaves every pixel of all eight strips black, in both directions; the index and cycling flag are untouched |
| Engine.Lights.AllGold | src/main.cpp:270-279 | every pixel of every strip becomes Gold |
| Engine.Lights.AllWhite | src/main.cpp:292-301 | every pixel of every strip becomes Ivory |
| Engine.Lights.AllBlack | src/main.cpp:281-290 | every pixel of every strip becomes Black |
| Engine.Lights.HueScroll | src/main.cpp:258-268 | strip k is filled uniformly with hue (beat + offset[k]) mod 256, offsets 0, 32, 64, 95, 127, 159, 191, 223 |
| Engine.Lights.Rainbows | src/main.cpp:433-443 | every strip gets the same rainbow: pixel i has hue (beat + i * (255 / NUM)) mod 256 |
| Engine.Lights.Fireship | src/main.cpp:421-431 | strip k shows the fire palette from (beat + offset[k]) mod 256 in steps of 256 / NUM, offsets 0, 20, 40, 60, 60, 40, 20, 0 |
| Engine.Lights.ArrowYellow | src/main.cpp:349-372 | each strip gets one dot at map8 of its arrow beat in a hue from 28 to 36, then every pixel is faded by 6 |
| Engine.Lights.ArrowColor | src/main.cpp:374-398 | each strip gets one dot at map8 of its arrow beat in the swaying hue, then every pixel is faded by 7 |
| Engine.Lights.BitSinAkm | src/main.cpp:303-326 | every strip gets the sweeping dot in the ripple hue, then every pixel is faded by the 4..10 chaser beat |
| Engine.Lights.DualSword | src/main.cpp:445-477 | every strip gets the first dot, then the opposite dot, which wins where they meet; then every pixel is faded by 15 |
| Engine.Lights.PhaseSine | src/main.cpp:479-506 | strip k gets an Ivory dot at its own phase position, then every pixel is faded by 30 |
| Engine.Lights.PhaseSineGold | src/main.cpp:508-535 | strip k gets a Gold dot at its own phase position, then every pixel is faded by 30 |
| Engine.Lights.BarGraph | src/main.cpp:400-419 | every strip gets a WhiteSmoke dot at the bar position, then every pixel is faded by 5 |
| Engine.Lights.Twinklers | src/main.cpp:328-347 | when the 20 ms guard fires, each strip gets a star-palette pixel below NUM-1; every call fades all pixels by 8; the last pixel only fades |
| Engine.Lights.Mode | src/main.cpp:188-230 | mode(i) renders effect i for i in 0..12 (pixel by pixel as Shade), changes nothing otherwise, and keeps mirror-symmetric strips mirror-symmetric in the mirrored modes |
| Engine.Lights.Loop | src/main.cpp:170-184 | suspended: no effect runs, no advance, no timer moves, buffers unchanged; otherwise the current mode renders, the 200 s guard restarts when it fires, and the mode advances only when it fires with cycling on, as one CycleStep |

## Left out

- WiFi provisioning, the DNS server, `server.begin`, the HTML reply texts and `String` formatting: network I/O and UI. The route handlers are modelled by their state updates and a reply value.
- The `/` status route only reads the state; it is not modelled.
- The OTA transport (`AsyncElegantOTA`), `Button2` tap and long-press handling, `ESP.restart`, `resetSettings`, `Serial` output and `delay`: hardware and I/O. The tap handler is `modeChange`, which is modelled.
- `FastLED.addLeds`, `setCorrection`, `setBrightness` and `FastLED.show`: the output driver and the global brightness, applied in hardware.
- The internals of `beat8`, `beatsin8`, `map8`, `random8` and `random`, and the millis time source: library code that is not shown. A tick's values are a `Readings` value with the documented ranges. `map8(x, 0, NUM-1)` is a function assumed to land in `[0, NUM)`. The random generator's state and its seeding are not modelled.
- CHSV to RGB conversion, `ColorFromPalette` and the `stars` and `fire` gradient palettes: library code. They are opaque functions in `Lib`. `fill_palette` and `fill_rainbow` are modelled only by their index progression, start + i * step in uint8_t arithmetic.
- The arithmetic of `fadeToBlackBy` (FastLED's `nscale8`): library code. Only "never brightens" is assumed, plus "lowers every lit channel for a non-zero amount" in the convergence lemmas.
- `NUM` comes from `config.h`, which is not part of this model. It is the constructor parameter, with 2 <= NUM <= 256.
- Engine.Lights.HandleSetMode: takes the integer that `String::toInt` produced, so the parsing of the query value (a non-numeric value reads as 0) is not modelled. The case of a request with no parameter at all (a null dereference) is not modelled either.
- Engine.Lights.Loop: does not model the `button.loop()` call at the end of `loop()`. That call runs even while suspended, and a tap there runs `modeChange`. So "suspended leaves the mode unchanged" holds for the rendering part of `loop()`, not for the button handling.
- Engine.Lights.Loop: the clocks are unbounded naturals. The wrap-around of `millis()` and of FastLED's 16-bit seconds counter is not modelled.
- The race between the asynchronous web handlers (for example `/prep` writing the buffers) and `loop`: concurrency, outside a sequential model.
- The index `m_index` is a `uint8_t`. Since it stays below 13, it is modelled as a natural number with no wrap-around.
