/** Ambient sound linked to the weather mode: which tracks play and what the sound button shows. */
module Ambient {
  import opened Modes

  /** The two looping tracks: rain, and the wind track that goes with snow. */
  datatype Track = RainTrack | WindTrack

  /** The sound button's glyph: a speaker, or a crossed-out speaker. */
  datatype Indicator = Speaker | Muted

  /** The sound-enabled flag, the button glyph and whether each track is playing. */
  datatype SoundState = SoundState(on: bool, indicator: Indicator, rainPlaying: bool, windPlaying: bool)

  /** The state after a sound operation and the play requests it issued, in order. */
  datatype Playback = Playback(after: SoundState, attempts: seq<Track>)

  /** The tracks a mode calls for, in the order they are started. */
  function Tracks(m: Mode): (ts: seq<Track>)
    ensures RainTrack in ts <==> m != Snow
    ensures WindTrack in ts <==> m != Rain
    ensures 1 <= |ts| <= 2 && (|ts| == 2 ==> ts == [RainTrack, WindTrack])
  {
    match m
    case Rain => [RainTrack]
    case Snow => [WindTrack]
    case Both => [RainTrack, WindTrack]
  }

  /** Every track the mode calls for would start. */
  predicate Accepted(m: Mode, rainOk: bool, windOk: bool)
  {
    (RainTrack in Tracks(m) ==> rainOk) && (WindTrack in Tracks(m) ==> windOk)
  }

  /** `stopAllSounds`: pause both tracks and rewind them. */
  function StopAll(s: SoundState): (r: SoundState)
    ensures !r.rainPlaying && !r.windPlaying
    ensures r.on == s.on && r.indicator == s.indicator
  {
    s.(rainPlaying := false, windPlaying := false)
  }

  /** A rejected play: sound is forced off and the button shows the muted glyph. */
  function Rejected(s: SoundState): SoundState
  {
    s.(on := false, indicator := Muted)
  }

  /**
   * `playWeatherSound`: stop both tracks, and if sound is on start the mode's
   * tracks one after another; `rainOk`/`windOk` say whether each track's play
   * request would resolve. The first rejection ends the sequence.
   */
  function PlayWeatherSound(s: SoundState, m: Mode, rainOk: bool, windOk: bool): (p: Playback)
    ensures !s.on ==> p.after == StopAll(s) && p.attempts == []
    ensures s.on ==> 1 <= |p.attempts| && p.attempts <= Tracks(m)
    ensures p.after.on <==> s.on && Accepted(m, rainOk, windOk)
    ensures p.after.on ==> p.attempts == Tracks(m) && p.after.indicator == Speaker
    ensures p.after.on ==> p.after.rainPlaying == (RainTrack in Tracks(m)) && p.after.windPlaying == (WindTrack in Tracks(m))
    ensures s.on && !p.after.on ==> p.after.indicator == Muted
    ensures p.after.rainPlaying ==> RainTrack in p.attempts && rainOk
    ensures p.after.windPlaying ==> WindTrack in p.attempts && windOk && p.after.on
    ensures s.on && m == Both && !rainOk ==> p.attempts == [RainTrack]
  {
    var stopped := StopAll(s);
    if !s.on then Playback(stopped, [])
    else match m
      case Rain =>
        if rainOk then Playback(stopped.(rainPlaying := true, indicator := Speaker), [RainTrack])
        else Playback(Rejected(stopped), [RainTrack])
      case Snow =>
        if windOk then Playback(stopped.(windPlaying := true, indicator := Speaker), [WindTrack])
        else Playback(Rejected(stopped), [WindTrack])
      case Both =>
        if !rainOk then Playback(Rejected(stopped), [RainTrack])
        else
          var raining := stopped.(rainPlaying := true);
          if windOk then Playback(raining.(windPlaying := true, indicator := Speaker), [RainTrack, WindTrack])
          else Playback(Rejected(raining), [RainTrack, WindTrack])
  }

  /** The sound button: flip the flag; play when it is now on, otherwise stop and show muted. */
  function ToggleSound(s: SoundState, m: Mode, rainOk: bool, windOk: bool): (p: Playback)
    ensures s.on ==> p == Playback(SoundState(false, Muted, false, false), [])
    ensures !s.on ==> 1 <= |p.attempts| && p.attempts <= Tracks(m)
    ensures !s.on ==> (p.after.on <==> Accepted(m, rainOk, windOk))
    ensures !s.on ==> p == PlayWeatherSound(s.(on := true), m, rainOk, windOk)
    ensures (p.after.rainPlaying ==> RainTrack in p.attempts) && (p.after.windPlaying ==> WindTrack in p.attempts)
  {
    var flipped := s.(on := !s.on);
    if flipped.on then PlayWeatherSound(flipped, m, rainOk, windOk)
    else Playback(StopAll(flipped).(indicator := Muted), [])
  }

  /** The sound part of `setWeather`: replay for the new mode only when sound is on. */
  function SwitchSound(s: SoundState, next: Mode, rainOk: bool, windOk: bool): (p: Playback)
    ensures !s.on ==> p == Playback(s, [])
    ensures s.on ==> 1 <= |p.attempts| && p.attempts <= Tracks(next)
    ensures s.on ==> (p.after.on <==> Accepted(next, rainOk, windOk))
    ensures s.on && p.after.on ==> p.attempts == Tracks(next) && p.after.indicator == Speaker
    ensures s.on && p.after.on ==> p.after.rainPlaying == (RainTrack in Tracks(next)) && p.after.windPlaying == (WindTrack in Tracks(next))
    ensures s.on && !p.after.on ==> p.after.indicator == Muted
    ensures s.on ==> (p.after.rainPlaying ==> rainOk) && (p.after.windPlaying ==> windOk)
    ensures s.on ==> p == PlayWeatherSound(s, next, rainOk, windOk)
    ensures s.on ==> (p.after.rainPlaying ==> RainTrack in p.attempts) && (p.after.windPlaying ==> WindTrack in p.attempts)
  {
    if s.on then PlayWeatherSound(s, next, rainOk, windOk) else Playback(s, [])
  }

  /**
   * The button glyph shows the flag, and while sound is on exactly the tracks of
   * the mode are playing.
   */
  predicate Coherent(s: SoundState, m: Mode)
  {
    (s.indicator == Speaker <==> s.on) &&
    (s.on ==> s.rainPlaying == (RainTrack in Tracks(m)) && s.windPlaying == (WindTrack in Tracks(m)))
  }

  /** The state at page load: sound off, muted glyph, nothing playing. */
  const Silent: SoundState := SoundState(false, Muted, false, false)

  lemma PlayKeepsCoherent(s: SoundState, m: Mode, rainOk: bool, windOk: bool)
    requires s.on || s.indicator == Muted
    ensures Coherent(PlayWeatherSound(s, m, rainOk, windOk).after, m)
  {
  }

  lemma ToggleKeepsCoherent(s: SoundState, m: Mode, rainOk: bool, windOk: bool)
    requires Coherent(s, m)
    ensures Coherent(ToggleSound(s, m, rainOk, windOk).after, m)
  {
  }

  lemma SwitchKeepsCoherent(s: SoundState, m: Mode, next: Mode, rainOk: bool, windOk: bool)
    requires Coherent(s, m)
    ensures Coherent(SwitchSound(s, next, rainOk, windOk).after, next)
  {
  }

  /** Any rejection during a sound-on toggle leaves sound off with the muted glyph. */
  lemma RejectionForcesOff(s: SoundState, m: Mode, rainOk: bool, windOk: bool)
    requires !s.on && !Accepted(m, rainOk, windOk)
    ensures !ToggleSound(s, m, rainOk, windOk).after.on
    ensures ToggleSound(s, m, rainOk, windOk).after.indicator == Muted
  {
  }

  /** Turning sound on in rain mode requests the rain track once and the wind track never. */
  lemma RainModeRequestsRainOnly(s: SoundState, rainOk: bool, windOk: bool)
    requires !s.on
    ensures ToggleSound(s, Rain, rainOk, windOk).attempts == [RainTrack]
  {
  }

  /** Switching to both with sound on stops everything, then requests rain and wind in that order. */
  lemma SwitchToBothRequestsBoth(s: SoundState, windOk: bool)
    requires s.on
    ensures SwitchSound(s, Both, true, windOk).attempts == [RainTrack, WindTrack]
    ensures SwitchSound(s, Both, true, windOk).after == SoundState(windOk, if windOk then Speaker else Muted, true, windOk)
  {
  }

  /**
   * In both mode a rejected wind track after an accepted rain track leaves the
   * rain playing while the flag is off and the button shows muted.
   */
  lemma RejectedWindLeavesRainPlaying(s: SoundState)
    requires s.on
    ensures PlayWeatherSound(s, Both, true, false).after == SoundState(false, Muted, true, false)
  {
  }
}
