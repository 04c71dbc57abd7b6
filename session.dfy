/** The page's weather session: the mutable state the script keeps and the handlers that change it. */
module Session {
  import opened MathRandom
  import opened Modes
  import opened Ambient
  import opened Theme
  import opened Counts
  import opened Wind
  import opened Particles

  class WeatherSession {
    var mode: Mode
    var modeLabel: string
    var isSoundOn: bool
    var soundIndicator: Indicator
    var rainPlaying: bool
    var windPlaying: bool
    var dark: bool
    var themeIcon: Icon
    /** The storage entry under the key "prefers-dark-mode". */
    var stored: Option<string>
    var wind: real
    var windTarget: real
    var rainDrops: seq<Drop>
    var snowFlakes: seq<Flake>

    function Sound(): SoundState
      reads this
    {
      SoundState(isSoundOn, soundIndicator, rainPlaying, windPlaying)
    }

    function Look(): View
      reads this
    {
      View(dark, themeIcon)
    }

    function Air(): WindState
      reads this
    {
      WindState(wind, windTarget)
    }

    /**
     * The session invariant: the sound button and tracks agree with the flag and
     * the mode, and everything else holds too.
     */
    ghost predicate Valid()
      reads this
    {
      Steady() && Coherent(Sound(), mode)
    }

    /**
     * The invariant apart from the sound: the wind is bounded, the caption names
     * the mode, and every particle keeps its fixed size and speed ranges.
     */
    ghost predicate Steady()
      reads this
    {
      Bounded(Air()) &&
      modeLabel == Label(mode) &&
      (forall i :: 0 <= i < |rainDrops| ==> DropShape(rainDrops[i])) &&
      (forall i :: 0 <= i < |snowFlakes| ==> FlakeShape(snowFlakes[i]))
    }

    /**
     * Page load up to the particle setup: the theme is resolved from the stored
     * value and the system preference, sound is off, the mode is both, the wind is
     * calm and there are no particles yet.
     */
    constructor (pageDark: bool, saved: Option<string>, media: Option<bool>)
      ensures Valid()
      ensures Look() == InitTheme(View(pageDark, Moon), saved, media) && stored == saved
      ensures mode == Initial && Sound() == Silent && Air() == Calm
      ensures rainDrops == [] && snowFlakes == []
    {
      var v := InitTheme(View(pageDark, Moon), saved, media);
      dark, themeIcon := v.dark, v.icon;
      stored := saved;
      isSoundOn, soundIndicator, rainPlaying, windPlaying := false, Muted, false, false;
      mode := Both;
      modeLabel := Label(Both);
      wind, windTarget := 0.0, 0.0;
      rainDrops, snowFlakes := [], [];
    }

    /** A click on the theme button: flip the class and persist the new value. */
    method DarkToggle()
      modifies this`dark, this`themeIcon, this`stored
      ensures Look() == ToggleDark(old(Look())).view
      ensures stored == Some(ToggleDark(old(Look())).stored)
      ensures dark == !old(dark) && Consistent(Look())
    {
      var next := !dark;
      var v := ApplyDark(Look(), Some(next));
      dark, themeIcon := v.dark, v.icon;
      stored := Some(BoolString(next));
    }

    /** Pause and rewind both tracks. */
    method StopAllSounds()
      modifies this`rainPlaying, this`windPlaying
      ensures Sound() == StopAll(old(Sound()))
    {
      rainPlaying := false;
      windPlaying := false;
    }

    /** Stop everything, then start the mode's tracks when sound is on; returns the play requests issued. */
    method PlayWeatherSound(rainOk: bool, windOk: bool) returns (attempts: seq<Track>)
      requires Steady() && (isSoundOn || soundIndicator == Muted)
      modifies this`isSoundOn, this`soundIndicator, this`rainPlaying, this`windPlaying
      ensures Valid()
      ensures Sound() == Ambient.PlayWeatherSound(old(Sound()), mode, rainOk, windOk).after
      ensures attempts == Ambient.PlayWeatherSound(old(Sound()), mode, rainOk, windOk).attempts
    {
      PlayKeepsCoherent(Sound(), mode, rainOk, windOk);
      StopAllSounds();
      attempts := [];
      if !isSoundOn {
        return;
      }
      var ok := true;
      if mode == Rain {
        attempts, ok := [RainTrack], rainOk;
        if ok {
          rainPlaying := true;
        }
      } else if mode == Snow {
        attempts, ok := [WindTrack], windOk;
        if ok {
          windPlaying := true;
        }
      } else {
        attempts, ok := [RainTrack], rainOk;
        if ok {
          rainPlaying := true;
          attempts, ok := attempts + [WindTrack], windOk;
          if ok {
            windPlaying := true;
          }
        }
      }
      if ok {
        soundIndicator := Speaker;
      } else {
        isSoundOn := false;
        soundIndicator := Muted;
      }
    }

    /** A click on the sound button. */
    method SoundToggle(rainOk: bool, windOk: bool) returns (attempts: seq<Track>)
      requires Valid()
      modifies this`isSoundOn, this`soundIndicator, this`rainPlaying, this`windPlaying
      ensures Valid()
      ensures Sound() == ToggleSound(old(Sound()), mode, rainOk, windOk).after
      ensures attempts == ToggleSound(old(Sound()), mode, rainOk, windOk).attempts
    {
      isSoundOn := !isSoundOn;
      if isSoundOn {
        attempts := PlayWeatherSound(rainOk, windOk);
      } else {
        StopAllSounds();
        soundIndicator := Muted;
        attempts := [];
      }
    }

    /** `setWeather`: switch mode and caption, and replay the sound when it is on. */
    method SetWeather(next: Mode, rainOk: bool, windOk: bool) returns (attempts: seq<Track>)
      requires Valid()
      modifies this`mode, this`modeLabel, this`isSoundOn, this`soundIndicator, this`rainPlaying, this`windPlaying
      ensures Valid()
      ensures mode == next && modeLabel == Label(next)
      ensures Sound() == SwitchSound(old(Sound()), next, rainOk, windOk).after
      ensures attempts == SwitchSound(old(Sound()), next, rainOk, windOk).attempts
    {
      SwitchKeepsCoherent(Sound(), mode, next, rainOk, windOk);
      mode := next;
      modeLabel := Label(next);
      attempts := [];
      if isSoundOn {
        attempts := PlayWeatherSound(rainOk, windOk);
      }
    }

    /** A click on the weather button: advance the mode cycle. */
    method WeatherToggle(rainOk: bool, windOk: bool) returns (attempts: seq<Track>)
      requires Valid()
      modifies this`mode, this`modeLabel, this`isSoundOn, this`soundIndicator, this`rainPlaying, this`windPlaying
      ensures Valid()
      ensures mode == Next(old(mode))
      ensures Sound() == SwitchSound(old(Sound()), Next(old(mode)), rainOk, windOk).after
      ensures attempts == SwitchSound(old(Sound()), Next(old(mode)), rainOk, windOk).attempts
    {
      attempts := SetWeather(Next(mode), rainOk, windOk);
    }

    /** One `updateWind` call. */
    method UpdateWind(change: real, pick: real)
      requires Valid() && Unit(change) && Unit(pick)
      modifies this`wind, this`windTarget
      ensures Valid()
      ensures Air() == Step(old(Air()), WindDraw(change, pick))
    {
      if change < ChangeChance {
        windTarget := (pick - 0.5) * Span;
      }
      wind := wind + (windTarget - wind) * Smoothing;
      StepBounded(old(Air()), WindDraw(change, pick));
    }

    /**
     * `initParticles` for a `w` by `h` viewport: empty both lists, then push the
     * scaled number of drops and flakes, each reset and placed down the viewport.
     */
    method InitParticles(w: nat, h: nat, rainDraws: seq<RainDraw>, rainYs: seq<real>, snowDraws: seq<SnowDraw>, snowYs: seq<real>)
      requires Valid()
      requires |rainDraws| >= RainCount(w, h) && |rainYs| >= RainCount(w, h)
      requires |snowDraws| >= SnowCount(w, h) && |snowYs| >= SnowCount(w, h)
      requires forall i :: 0 <= i < |rainDraws| ==> rainDraws[i].Valid()
      requires forall i :: 0 <= i < |rainYs| ==> Unit(rainYs[i])
      requires forall i :: 0 <= i < |snowDraws| ==> snowDraws[i].Valid()
      requires forall i :: 0 <= i < |snowYs| ==> Unit(snowYs[i])
      modifies this`rainDrops, this`snowFlakes
      ensures Valid()
      ensures |rainDrops| == RainCount(w, h) && |snowFlakes| == SnowCount(w, h)
      ensures forall i :: 0 <= i < |rainDrops| ==> rainDrops[i] == InitDrop(rainDraws[i], rainYs[i], w as real, h as real, wind)
      ensures forall i :: 0 <= i < |snowFlakes| ==> snowFlakes[i] == InitFlake(snowDraws[i], snowYs[i], w as real, h as real)
    {
      rainDrops := [];
      snowFlakes := [];
      var rc := ScaleCount(RainBase, w, h);
      var sc := ScaleCount(SnowBase, w, h);
      for i := 0 to rc
        invariant |rainDrops| == i && snowFlakes == []
        invariant forall k :: 0 <= k < i ==> rainDrops[k] == InitDrop(rainDraws[k], rainYs[k], w as real, h as real, wind)
      {
        var d := ResetRain(rainDraws[i], w as real, wind);
        d := d.(y := rainYs[i] * h as real);
        rainDrops := rainDrops + [d];
      }
      for i := 0 to sc
        invariant |snowFlakes| == i && |rainDrops| == rc
        invariant forall k :: 0 <= k < rc ==> rainDrops[k] == InitDrop(rainDraws[k], rainYs[k], w as real, h as real, wind)
        invariant forall k :: 0 <= k < i ==> snowFlakes[k] == InitFlake(snowDraws[k], snowYs[k], w as real, h as real)
      {
        var f := Flake(0.0, 0.0, 2.0, 0.0, 0.0);
        f := ResetSnow(f, snowDraws[i], w as real);
        f := f.(y := snowYs[i] * h as real);
        snowFlakes := snowFlakes + [f];
      }
    }

    /** `updateRain`: step every drop in place, recycling those that left. */
    method UpdateRain(w: nat, h: nat, draws: seq<RainDraw>)
      requires Valid()
      requires |draws| >= |rainDrops|
      requires forall i :: 0 <= i < |draws| ==> draws[i].Valid()
      modifies this`rainDrops
      ensures Valid()
      ensures |rainDrops| == |old(rainDrops)|
      ensures forall i :: 0 <= i < |rainDrops| ==> rainDrops[i] == StepDrop(old(rainDrops)[i], draws[i], w as real, h as real, wind)
      ensures forall i :: 0 <= i < |rainDrops| ==> !RainGone(rainDrops[i], w as real, h as real)
    {
      var i := 0;
      while i < |rainDrops|
        invariant 0 <= i <= |rainDrops| == |old(rainDrops)|
        invariant forall k :: 0 <= k < i ==> rainDrops[k] == StepDrop(old(rainDrops)[k], draws[k], w as real, h as real, wind)
        invariant forall k :: i <= k < |rainDrops| ==> rainDrops[k] == old(rainDrops)[k]
      {
        rainDrops := rainDrops[i := StepDrop(rainDrops[i], draws[i], w as real, h as real, wind)];
        i := i + 1;
      }
    }

    /** `updateSnow`: sway and step every flake in place, recycling those that left; `sin` stands for `Math.sin`. */
    method UpdateSnow(w: nat, h: nat, sin: real -> real, draws: seq<SnowDraw>)
      requires Valid()
      requires |draws| >= |snowFlakes|
      requires forall i :: 0 <= i < |draws| ==> draws[i].Valid()
      modifies this`snowFlakes
      ensures Valid()
      ensures |snowFlakes| == |old(snowFlakes)|
      ensures forall i :: 0 <= i < |snowFlakes| ==> snowFlakes[i] == StepFlake(old(snowFlakes)[i], sin, draws[i], w as real, h as real, wind)
      ensures forall i :: 0 <= i < |snowFlakes| ==> !SnowGone(snowFlakes[i], w as real, h as real)
    {
      var i := 0;
      while i < |snowFlakes|
        invariant 0 <= i <= |snowFlakes| == |old(snowFlakes)|
        invariant forall k :: 0 <= k < i ==> snowFlakes[k] == StepFlake(old(snowFlakes)[k], sin, draws[k], w as real, h as real, wind)
        invariant forall k :: i <= k < |snowFlakes| ==> snowFlakes[k] == old(snowFlakes)[k]
      {
        snowFlakes := snowFlakes[i := StepFlake(snowFlakes[i], sin, draws[i], w as real, h as real, wind)];
        i := i + 1;
      }
    }
  }
}
