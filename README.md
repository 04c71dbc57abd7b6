# Weather session of a portfolio page script

A model of the stateful logic in `script.js`, the one script of a static
personal site. Under the page's DOM glue sit five small mechanisms, modelled
here as one weather session with explicit state:

- the **weather mode** (`both`, `rain`, `snow`), cycled by a toggle button;
- the **ambient sound** controller: the sound-enabled flag, the two looping
  tracks (rain, and the wind track that goes with snow), the stop-then-play
  sequence and the fallback when the browser rejects playback;
- the **theme**: dark or light, resolved at load from a stored preference or
  the system preference, and flipped and persisted by a button;
- the **particle counts**, scaled by viewport area against 1280×720, clamped
  to [0.5, 1.75] and rounded;
- the **particles** themselves: rain drops and snow flakes that are spawned,
  stepped each frame and recycled in place when they leave the viewport, and
  the **wind** that drifts toward an occasionally re-drawn target.

Modules: `MathRandom` (what a `Math.random()` draw is), `Modes`, `Ambient`,
`Theme`, `Counts`, `Wind`, `Particles` (pure definitions and lemmas), and
`Session`, whose class `WeatherSession` holds the script's mutable state as
fields (`mode`, `isSoundOn`, the sound glyph, the two tracks' playing state,
the dark class and its glyph, the stored preference, `wind`/`windTarget`, and
the two particle lists) and whose methods are the script's handlers. Each
method's `ensures` ties the new state to the pure function that specifies it,
and `Valid()` is the invariant every handler keeps: the wind stays in
[−0.4, 0.4], the sound glyph shows the flag and, while sound is on, exactly the
mode's tracks play, the weather caption names the mode, and every drop and
flake keeps its fixed size and speed ranges.

Host values are parameters. Each `Math.random()` draw is a real in [0, 1)
(`RainDraw`, `SnowDraw`, `WindDraw` group the draws of one call in call order);
`Math.sin` is a function parameter `sin`; `innerWidth`/`innerHeight` are the
natural numbers `w`/`h`; the stored preference is an `Option<string>`, and the
system preference an `Option<bool>` whose `None` is a browser without
`matchMedia`; the outcome of each track's `play()` is a boolean (`rainOk`,
`windOk`). Coordinates are reals and `Math.round(x)` is `Floor(x + 0.5)`.

The particle lists are `seq` fields: `initParticles` empties them and appends,
`updateRain`/`updateSnow` replace one element at a time. A particle is a value;
resetting it in place becomes replacing its slot (no particle is shared, so
nothing is lost).

Three behaviours of the script as written are proved rather than smoothed over:

- A snow flake's new height is computed from its radius *before* the radius is
  re-drawn, so a small flake re-drawn large can start partly below the top
  edge (`Particles.RespawnCanOverlapTopEdge`).
- In `both` mode, when the rain track starts and the wind track is rejected,
  the flag goes off and the glyph shows muted while the rain keeps playing
  (`Ambient.RejectedWindLeavesRainPlaying`); `Valid()` therefore only constrains
  the tracks while sound is on.
- Without a stored preference and without `matchMedia`, the theme resolves to
  `undefined`, with which the class toggle flips the page's class and the glyph
  shows the moon; a page that starts light turns dark with the light-mode glyph
  (`Theme.MissingMediaQueryFlips`).

## Model

| member | source | states |
|---|---|---|
| Modes.Next | script.js:197-199 | the toggle always changes the mode |
| Modes.CycleOfThree | script.js:197-199 | one or two clicks never restore the mode; three always do |
| Modes.ToggledModThree | script.js:197-199 | after n clicks the mode depends only on n mod 3 (proved by induction on n) |
| Modes.CycleOrder | script.js:197-199 | from the initial mode both, clicks go to rain, then snow, then back to both |
| Modes.EveryModeReached | script.js:197-199 | from any mode every mode is reached within at most two clicks |
| Modes.LabelsDistinct | script.js:194 | the captions `Modes.Label` gives the three modes (rain-cloud and snowflake glyphs) are pairwise different |
| Ambient.Tracks | script.js:102-109 | rain mode calls for the rain track only, snow for the wind track only, both for rain then wind |
| Ambient.StopAll | script.js:90-95 | after stopping, neither track plays and flag and glyph are untouched |
| Ambient.PlayWeatherSound | script.js:97-116 | both tracks are stopped first; with sound off nothing is requested; with sound on the requests are a non-empty prefix of the mode's tracks; the flag stays on iff every requested track is accepted, and then exactly the mode's tracks play with the speaker glyph; any rejection gives the muted glyph; a track plays only if it was requested and accepted; in both mode a rejected rain track ends the sequence before wind is requested |
| Ambient.ToggleSound | script.js:118-126 | turning sound off stops both tracks, shows muted and requests nothing; turning it on is exactly a play from the sound-on state, so both tracks are stopped first and only tracks requested by this call can play; it requests a prefix of the mode's tracks and stays on iff all are accepted |
| Ambient.SwitchSound | script.js:195 | with sound off a mode switch leaves the sound state untouched; with sound on it is exactly a play for the new mode, so both tracks are stopped first and only tracks requested by this call can play; it requests a prefix of the new mode's tracks, stays on iff all are accepted (then exactly those tracks play with the speaker glyph) and otherwise shows muted |
| Ambient.PlayKeepsCoherent | script.js:97-116 | after playing, the glyph shows the flag and, while on, exactly the mode's tracks play |
| Ambient.ToggleKeepsCoherent | script.js:118-126 | the sound button preserves that agreement |
| Ambient.SwitchKeepsCoherent | script.js:192-196 | a mode switch preserves that agreement for the new mode |
| Ambient.RejectionForcesOff | script.js:110-115 | a rejected play during a sound-on click leaves sound off and the muted glyph |
| Ambient.RainModeRequestsRainOnly | script.js:118-126 | turning sound on in rain mode issues exactly one rain request and no wind request |
| Ambient.SwitchToBothRequestsBoth | script.js:192-196 | switching to both with sound on requests rain and then wind; afterwards rain plays, wind plays iff accepted, and sound is on with the speaker glyph iff wind was accepted, muted otherwise |
| Ambient.RejectedWindLeavesRainPlaying | script.js:106-115 | in both mode an accepted rain track followed by a rejected wind track leaves sound off, muted, with the rain playing |
| Theme.ApplyDark | script.js:38-41 | a boolean argument sets the class to it and the glyph to match; an undefined argument flips the class and shows the moon |
| Theme.Resolve | script.js:43-45 | a stored value wins and means dark iff it is "true"; the result is undefined only without a stored value and without `matchMedia` |
| Theme.InitTheme | script.js:42-47 | at load a stored value decides (dark iff "true"), else the system preference, with a consistent glyph; with neither, the page's class flips and the moon shows |
| Theme.BoolString | script.js:51 | the stored string is "true" exactly for true |
| Theme.ToggleDark | script.js:48-52 | the click negates the class, keeps the glyph consistent and stores the string of the new value |
| Theme.StoredWins | script.js:42-47 | with a stored value the system preference is irrelevant, dark iff the value is "true", and the glyph is consistent |
| Theme.SystemPreferenceDecides | script.js:42-47 | without a stored value the system preference decides |
| Theme.ToggleSurvivesReload | script.js:42-52 | reloading after a toggle reproduces the toggled view, whatever the page showed and the system prefers |
| Theme.ToggleTwice | script.js:48-52 | two clicks restore the class and store its original value |
| Theme.MissingMediaQueryFlips | script.js:42-46 | without stored value or `matchMedia` the load flips the class and shows the moon, inconsistent for a page that starts light |
| Counts.Round | script.js:147 | `Math.round`: the result is within half of x, halves rounding up |
| Counts.RoundMonotone | script.js:147 | rounding is monotone |
| Counts.AreaFactor | script.js:146 | the area ratio to 1280×720 clamped to [0.5, 1.75]: equal to the ratio inside the range, to the bound outside it |
| Counts.AreaFactorMonotone | script.js:146 | a larger viewport never gets a smaller factor |
| Counts.ScaleCount | script.js:145-148 | the count is the base times the clamped factor, rounded to nearest |
| Counts.ScaleCountMonotone | script.js:145-148 | counts grow with viewport area |
| Counts.ScaleCountBounds | script.js:145-148 | a count lies between the rounded half and rounded 1.75-fold base |
| Counts.RainCount | script.js:181 | `scaleCount(110)`: 55 to 193 drops for every viewport |
| Counts.SnowCount | script.js:181 | `scaleCount(90)`: 45 to 158 flakes for every viewport |
| Counts.ReferenceCounts | script.js:181 | at 1280×720 the counts are 110 drops and 90 flakes |
| Counts.ExtremeCounts | script.js:181 | the range ends are reached; 192.5 and 157.5 round up to 193 and 158 |
| Wind.NewTarget | script.js:157 | a new target lies in [−0.4, 0.4) |
| Wind.Smooth | script.js:158 | the new wind lies between the old wind and the target and strictly closer to the target unless already there |
| Wind.Step | script.js:156-159 | a new target is drawn only under the 0.004 chance, else kept; the wind moves toward the target without overshooting |
| Wind.StepBounded | script.js:156-159 | one update keeps wind and target in [−0.4, 0.4] |
| Wind.StepJumpBound | script.js:156-159 | one update moves the wind by at most 0.006 × 0.8 |
| Wind.RunBounded | script.js:155-159 | any run of updates from a bounded state stays bounded (by induction on the run) |
| Wind.CalmStaysBounded | script.js:155-159 | starting from 0, \|wind\| ≤ 0.4 after any number of updates |
| Particles.ResetRain | script.js:164-170 | x in [0, W), y in (−140, −20], length in [12, 34), vertical speed in [3.5, 9), horizontal speed wind × 0.6 |
| Particles.ResetSnow | script.js:171-177 | x in [0, W), y in (−old r − 100, −old r], radius in [1.5, 4), speed in [0.4, 1.5), phase in [0, 2π) |
| Particles.RespawnCanOverlapTopEdge | script.js:171-174 | because y uses the old radius, a respawned flake can reach below the top edge |
| Particles.SpawnedAboveTop | script.js:164-177 | a reset drop, and a reset flake whose old radius was non-negative, start at or above the top edge |
| Particles.InitDrop | script.js:182-184 | an initial drop lies across the width and anywhere in [0, H) down, with the reset ranges |
| Particles.InitFlake | script.js:185-187 | an initial flake lies across the width and in [0, H) down, with the reset ranges |
| Particles.Fall | script.js:213 | a frame moves the drop down by its speed and sideways by wind × 0.6, which becomes its horizontal speed; length and speed are kept |
| Particles.Drift | script.js:229-231 | a frame advances the phase by at least 0.015, moves the flake down by its speed and sideways by its sway; radius and speed are kept |
| Particles.StepDrop | script.js:211-216 | after a step the drop passes the recycle test (y − len ≤ H, within 50 of the sides); a drop that left is freshly reset, one that stayed has just advanced; ranges are kept |
| Particles.StepFlake | script.js:227-234 | after a step a flake of non-negative radius passes the recycle test (y − r ≤ H, within 60 of the sides); a flake that left is freshly reset, one that stayed has just drifted; ranges are kept |
| Particles.StayingDropAdvances | script.js:213 | a staying drop moves by its vertical speed and the wind's share |
| Particles.LeavingDropRespawns | script.js:214 | a leaving drop comes back above the top edge, across the viewport |
| Particles.StayingFlakeAdvances | script.js:229-231 | a staying flake moves down by its speed and sideways by its sway, size and speed unchanged |
| Session.WeatherSession.constructor | script.js:42-162 | a session starts (theme resolution at lines 42-53, sound flag at line 81, mode at 132, wind at 155, lists at 161-162) in both mode, sound off and muted, calm wind, no particles, with the theme resolved at load |
| Session.WeatherSession.DarkToggle | script.js:48-52 | the theme click negates the class, keeps the glyph consistent and stores the new value |
| Session.WeatherSession.StopAllSounds | script.js:90-95 | both tracks stop, nothing else changes |
| Session.WeatherSession.PlayWeatherSound | script.js:97-116 | the new sound state and requests are those of `Ambient.PlayWeatherSound`, and the invariant holds |
| Session.WeatherSession.SoundToggle | script.js:118-126 | the new sound state and requests are those of `Ambient.ToggleSound`; the invariant is kept |
| Session.WeatherSession.SetWeather | script.js:192-196 | mode and caption become the new mode; sound follows `Ambient.SwitchSound`; the invariant is kept |
| Session.WeatherSession.WeatherToggle | script.js:197-199 | the mode advances one step of the cycle, with the sound switch of `SetWeather` |
| Session.WeatherSession.UpdateWind | script.js:156-159 | wind and target become one `Wind.Step` of the old ones and stay bounded |
| Session.WeatherSession.InitParticles | script.js:179-188 | both lists hold exactly the scaled counts, each element an initial particle from its draws |
| Session.WeatherSession.UpdateRain | script.js:211-216 | the list keeps its length, each drop is stepped from its old value, and every drop is afterwards inside the recycle bounds |
| Session.WeatherSession.UpdateSnow | script.js:227-234 | the list keeps its length, each flake is stepped from its old value, and every flake is afterwards inside the recycle bounds |

## Left out

- Canvas rendering and surface sizing (`drawRain`, `drawSnow`, `colors`, `sizeCanvas` with its device-pixel-ratio clamp): pixel output to a foreign drawing context.
- The frame loop and the resize debounce (`requestAnimationFrame`, `setTimeout`): host scheduling that never terminates; the empty `MutationObserver` does nothing. A frame's wind update and rain/snow steps are modelled one by one, not their scheduling.
- Actual audio I/O (`Audio`, `play`, `pause`, `currentTime`, volume, looping): only whether each play request is accepted is modelled, and a track is just playing or stopped. The asynchronous interleaving of a pending play with later clicks is not modelled; each handler runs to completion.
- `localStorage` and `matchMedia` are inputs, not services; the storage holds only the theme key.
- `Math.random`, `Math.sin` and `Math.PI` are parameters or a decimal constant; arithmetic is over the reals, not IEEE doubles, so exact float rounding is not claimed.
- Smooth scroll, the hamburger menu, click-outside closing, scroll reveal and the contact-form alert: DOM class toggling without further logic.
- The branch where the page has no canvas (the weather subsystem is then never set up) is not modelled; the session assumes a canvas.
- The initial captions of the sound and weather buttons come from the page's HTML, which is not part of this model; the session starts with the muted glyph and the caption of `both`.
- `applyDark` writes the theme button's text without a null guard, so on a page without that button `initTheme` throws at load and the rest of the script never runs; the model assumes the button exists.
- The warning logged to the console on a rejected play is not modelled.
- Session.WeatherSession.constructor: does not run `initParticles`; on the page it follows at load, here it is a separate `InitParticles` call.
