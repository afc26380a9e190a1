/** The audio playback engine of controller/AudioPlaybackEngine.py: the same
    play/pause/reset state machine as the controller, plus the choice of
    which audio (the original or one filter's output) the player is given,
    and a fresh clock thread on every reload. */
module PlaybackEngine {
  import opened Wrappers
  import opened Clock
  import opened Playback

  /** What `load_song` copies from a song object: its original samples and
      rate, and each filter's output keyed by filter name. */
  datatype EngineSong = EngineSong(name: string, original: seq<real>, sampleRate: int, filters: map<string, seq<real>>)

  class AudioPlaybackEngine {
    var state: State
    var clock: TimeUpdateThread
    var song: Option<EngineSong>
    var loadedAudio: Option<seq<real>>
    var calls: seq<Command>

    /** The clock is consistent and a loaded song always has audio. */
    ghost predicate Sound()
      reads this, clock
    {
      clock.Valid() && (song.Some? ==> loadedAudio.Some?)
    }

    /** Sound, and the engine's state mirrors its clock's. */
    ghost predicate Valid()
      reads this, clock
    {
      Sound() && state == clock.state
    }

    constructor ()
      ensures Valid() && fresh(clock)
      ensures state == Stopped && clock.Snap() == Initial
      ensures song == None && loadedAudio == None && calls == []
    {
      state := Stopped;
      clock := new TimeUpdateThread();
      song := None;
      loadedAudio := None;
      calls := [];
    }

    /** `load_song`: the original samples become the loaded audio, then the
        player is reloaded. */
    method LoadSong(s: EngineSong, now: real)
      requires Valid()
      modifies this, clock
      ensures Valid() && fresh(clock)
      ensures song == Some(s) && loadedAudio == Some(s.original)
      ensures state == Stopped && clock.Snap() == Initial
      ensures calls == old(calls) + ReloadCalls(s.original)
    {
      song := Some(s);
      loadedAudio := Some(s.original);
      var outcome := ReloadAudio(now);
    }

    /** `reload_audio`: the player gets the loaded audio, a new clock thread
        replaces the old one, and `stop` then `reset` run on it. Before any
        song is loaded the sample rate it writes with does not exist. */
    method ReloadAudio(now: real) returns (outcome: Outcome)
      requires Valid()
      modifies this, clock
      ensures Valid()
      ensures song == old(song) && loadedAudio == old(loadedAudio)
      ensures old(song).None? ==> outcome == Raised(AttributeError) && calls == old(calls)
                                  && state == old(state) && clock == old(clock) && clock.Snap() == old(clock.Snap())
      ensures old(song).Some? ==>
                && outcome == Ok && fresh(clock)
                && state == Stopped && clock.Snap() == Initial
                && calls == old(calls) + ReloadCalls(old(loadedAudio).value)
    {
      if song.None? {
        return Raised(AttributeError);
      }
      calls := calls + [PlayerSetMrl(loadedAudio.value)];
      clock := new TimeUpdateThread();
      NoStartKeepsInitial(EngineStopCalls, now);
      Stop(now);
      NoStartKeepsInitial(ResetCalls(Stopped), now);
      Reset(now);
      outcome := Ok;
    }

    /** `load_filtered_data`: that filter's output becomes the loaded audio. */
    method LoadFilteredData(filterName: string, now: real) returns (outcome: Outcome)
      requires Valid()
      modifies this, clock
      ensures Valid()
      ensures song == old(song)
      ensures old(song).None? ==>
                outcome == Raised(AttributeError) && calls == old(calls) && loadedAudio == old(loadedAudio)
                && state == old(state) && clock == old(clock) && clock.Snap() == old(clock.Snap())
      ensures old(song).Some? && filterName !in old(song).value.filters ==>
                outcome == Raised(KeyError) && calls == old(calls) && loadedAudio == old(loadedAudio)
                && state == old(state) && clock == old(clock) && clock.Snap() == old(clock.Snap())
      ensures old(song).Some? && filterName in old(song).value.filters ==>
                && outcome == Ok
                && loadedAudio == Some(old(song).value.filters[filterName])
                && state == Stopped && clock.Snap() == Initial
                && calls == old(calls) + ReloadCalls(old(song).value.filters[filterName])
    {
      if song.None? {
        return Raised(AttributeError);
      }
      if filterName !in song.value.filters {
        return Raised(KeyError);
      }
      loadedAudio := Some(song.value.filters[filterName]);
      outcome := ReloadAudio(now);
    }

    /** `load_original_song_data`: back to the unfiltered samples. */
    method LoadOriginalSongData(now: real) returns (outcome: Outcome)
      requires Valid()
      modifies this, clock
      ensures Valid()
      ensures song == old(song)
      ensures old(song).None? ==>
                outcome == Raised(AttributeError) && calls == old(calls) && loadedAudio == old(loadedAudio)
                && state == old(state) && clock == old(clock) && clock.Snap() == old(clock.Snap())
      ensures old(song).Some? ==>
                && outcome == Ok
                && loadedAudio == Some(old(song).value.original)
                && state == Stopped && clock.Snap() == Initial
                && calls == old(calls) + ReloadCalls(old(song).value.original)
    {
      if song.None? {
        return Raised(AttributeError);
      }
      loadedAudio := Some(song.value.original);
      outcome := ReloadAudio(now);
    }

    method Play(now: real)
      requires Valid()
      modifies this, clock
      ensures Valid() && clock == old(clock)
      ensures song == old(song) && loadedAudio == old(loadedAudio)
      ensures state == NextState(old(state), PlayButton)
      ensures calls == old(calls) + ButtonCalls(old(state), PlayButton, true)
      ensures clock.Snap() == ApplyClock(old(clock.Snap()), ButtonCalls(old(state), PlayButton, true), now)
    {
      ghost var before := clock.Snap();
      if state == Stopped {
        ApplyClockTwo(before, PlayerPlay, ClockStart, now);
        calls := calls + [PlayerPlay];
        clock.StartClock(now);
        calls := calls + [ClockStart];
        state := Running;
      }
      if state == Paused {
        ApplyClockTwo(before, PlayerPlay, ClockResume, now);
        state := Running;
        calls := calls + [PlayerPlay];
        clock.ResumeClock(now);
        calls := calls + [ClockResume];
      }
    }

    method Pause(now: real)
      requires Valid()
      modifies this, clock
      ensures Valid() && clock == old(clock)
      ensures song == old(song) && loadedAudio == old(loadedAudio)
      ensures state == NextState(old(state), PauseButton)
      ensures calls == old(calls) + ButtonCalls(old(state), PauseButton, true)
      ensures clock.Snap() == ApplyClock(old(clock.Snap()), ButtonCalls(old(state), PauseButton, true), now)
    {
      if state == Running {
        ApplyClockTwo(clock.Snap(), PlayerPause, ClockPause, now);
        state := Paused;
        calls := calls + [PlayerPause];
        clock.PauseClock(now);
        calls := calls + [ClockPause];
      }
    }

    method Reset(now: real)
      requires Valid()
      modifies this, clock
      ensures Valid() && clock == old(clock)
      ensures song == old(song) && loadedAudio == old(loadedAudio)
      ensures state == old(state)
      ensures calls == old(calls) + ButtonCalls(old(state), ResetButton, true)
      ensures clock.Snap() == ApplyClock(old(clock.Snap()), ButtonCalls(old(state), ResetButton, true), now)
    {
      if state == Paused {
        ApplyClockTwo(clock.Snap(), ClockReset, PlayerStop, now);
        clock.ResetClock(now);
        calls := calls + [ClockReset, PlayerStop];
      } else if state == Running {
        ApplyClockThree(clock.Snap(), ClockReset, PlayerStop, PlayerPlay, now);
        clock.ResetClock(now);
        calls := calls + [ClockReset, PlayerStop, PlayerPlay];
      } else if state == Stopped {
        ApplyClockThree(clock.Snap(), ClockStop, ClockReset, PlayerStop, now);
        clock.StopClock();
        clock.ResetClock(now);
        calls := calls + [ClockStop, ClockReset, PlayerStop];
      }
    }

    /** `stop`: unconditionally STOPPED; the player and the clock are
        stopped and the clock thread terminated. */
    method Stop(now: real)
      requires Sound()
      modifies this, clock
      ensures Valid() && clock == old(clock)
      ensures song == old(song) && loadedAudio == old(loadedAudio)
      ensures state == Stopped
      ensures calls == old(calls) + ButtonCalls(old(state), StopButton, true)
      ensures clock.Snap() == ApplyClock(old(clock.Snap()), ButtonCalls(old(state), StopButton, true), now)
    {
      ApplyClockThree(clock.Snap(), PlayerStop, ClockStop, ClockTerminate, now);
      state := Stopped;
      calls := calls + [PlayerStop];
      clock.StopClock();
      calls := calls + [ClockStop, ClockTerminate];
    }
  }

  /** What a reload sends: the audio to the player, then the calls of `stop`
      and of `reset` from STOPPED. */
  function ReloadCalls(audio: seq<real>): (r: seq<Command>)
  {
    [PlayerSetMrl(audio)] + ButtonCalls(Stopped, StopButton, true) + ButtonCalls(Stopped, ResetButton, true)
  }

  /** A reload leaves a fresh clock exactly as constructed: stopped, nothing
      banked, no segment. */
  lemma ReloadLeavesInitialClock(audio: seq<real>, now: real)
    ensures ApplyClock(Initial, ReloadCalls(audio), now) == Initial
  {
    var r := ReloadCalls(audio);
    assert r == [PlayerSetMrl(audio), PlayerStop, ClockStop, ClockTerminate, ClockStop, ClockReset, PlayerStop];
    NoStartKeepsInitial(r, now);
  }
}
