/** Playback control (controller/AudioPlaybackController.py and the older
    copy in project.py): a state that mirrors the clock, and the ordered
    calls each button makes on the media player and on the clock. The
    player is a log of the commands it receives. */
module Playback {
  import opened Wrappers
  import opened Numerals
  import opened PyList
  import opened Clock
  import Session

  /** A call on the media player or on the clock thread. */
  datatype Command =
    | PlayerPlay | PlayerPause | PlayerStop | PlayerSetMedia(path: string) | PlayerSetMrl(audio: seq<real>)
    | ClockStart | ClockPause | ClockResume | ClockReset | ClockStop | ClockTerminate

  predicate IsClockCall(c: Command)
  {
    c.ClockStart? || c.ClockPause? || c.ClockResume? || c.ClockReset? || c.ClockStop? || c.ClockTerminate?
  }

  /** The buttons of the playback widget, and the engine's `stop`. */
  datatype Button = PlayButton | PauseButton | ResetButton | StopButton

  /** `play`: the STOPPED branch sets RUNNING, so the PAUSED branch that
      follows it is not taken in the same call. */
  function PlayCalls(s: State): seq<Command>
  {
    match s
    case Stopped => [PlayerPlay, ClockStart]
    case Paused => [PlayerPlay, ClockResume]
    case Running => []
  }

  function PauseCalls(s: State): seq<Command>
  {
    if s == Running then [PlayerPause, ClockPause] else []
  }

  /** `reset` in controller/AudioPlaybackController.py. */
  function ResetCalls(s: State): seq<Command>
  {
    match s
    case Paused => [ClockReset, PlayerStop]
    case Running => [ClockReset, PlayerStop, PlayerPlay]
    case Stopped => [ClockStop, ClockReset, PlayerStop]
  }

  /** `reset` in project.py: the same clock calls and no player call. */
  function ProjectResetCalls(s: State): seq<Command>
  {
    match s
    case Paused => [ClockReset]
    case Running => [ClockReset]
    case Stopped => [ClockStop, ClockReset]
  }

  /** The controller's `stop` stops only the clock. */
  const ControllerStopCalls: seq<Command> := [ClockStop]

  /** The engine's `stop` also stops the player and terminates the thread. */
  const EngineStopCalls: seq<Command> := [PlayerStop, ClockStop, ClockTerminate]

  /** Everything a button press sends, in order. */
  function ButtonCalls(s: State, b: Button, engine: bool): (r: seq<Command>)
  {
    match b
    case PlayButton => PlayCalls(s)
    case PauseButton => PauseCalls(s)
    case ResetButton => ResetCalls(s)
    case StopButton => if engine then EngineStopCalls else ControllerStopCalls
  }

  /** The controller's own state after a press: reset never changes it. */
  function NextState(s: State, b: Button): (r: State)
    ensures b == ResetButton ==> r == s
    ensures b == StopButton ==> r == Stopped
    ensures b == PlayButton ==> r == Running
    ensures b == PauseButton ==> r == (if s == Running then Paused else s)
  {
    match b
    case PlayButton => Running
    case PauseButton => if s == Running then Paused else s
    case ResetButton => s
    case StopButton => Stopped
  }

  /** What one command does to the clock; player commands and `terminate`
      leave its fields alone. */
  function ClockStep(c: Snapshot, cmd: Command, now: real): (r: Snapshot)
    requires Armed(c)
    ensures Armed(r)
    ensures !IsClockCall(cmd) || cmd.ClockTerminate? ==> r == c
  {
    match cmd
    case ClockStart => AfterStart(c, now)
    case ClockPause => AfterPause(c, now)
    case ClockResume => AfterResume(c, now)
    case ClockReset => AfterReset(c, now)
    case ClockStop => AfterStop(c)
    case _ => c
  }

  /** The clock's snapshot after receiving a command list in order. */
  function ApplyClock(c: Snapshot, cmds: seq<Command>, now: real): (r: Snapshot)
    requires Armed(c)
    ensures Armed(r)
    decreases |cmds|
  {
    if |cmds| == 0 then c else ApplyClock(ClockStep(c, cmds[0], now), cmds[1..], now)
  }

  lemma ApplyClockTwo(c: Snapshot, x: Command, y: Command, now: real)
    requires Armed(c)
    ensures ApplyClock(c, [x, y], now) == ClockStep(ClockStep(c, x, now), y, now)
  {
    var c1 := ClockStep(c, x, now);
    assert [x, y][1..] == [y];
    assert ApplyClock(c, [x, y], now) == ApplyClock(c1, [y], now);
    assert [y][1..] == [];
    assert ApplyClock(c1, [y], now) == ApplyClock(ClockStep(c1, y, now), [], now);
  }

  lemma ApplyClockThree(c: Snapshot, x: Command, y: Command, z: Command, now: real)
    requires Armed(c)
    ensures ApplyClock(c, [x, y, z], now) == ClockStep(ClockStep(ClockStep(c, x, now), y, now), z, now)
  {
    assert [x, y, z][1..] == [y, z];
    ApplyClockTwo(ClockStep(c, x, now), y, z, now);
  }

  /** A stopped, cleared clock stays so under any commands that neither
      start nor resume it. */
  lemma {:induction false} NoStartKeepsInitial(cmds: seq<Command>, now: real)
    requires forall i :: 0 <= i < |cmds| ==> !cmds[i].ClockStart? && !cmds[i].ClockResume?
    ensures ApplyClock(Initial, cmds, now) == Initial
    decreases |cmds|
  {
    if |cmds| > 0 {
      assert ClockStep(Initial, cmds[0], now) == Initial;
      NoStartKeepsInitial(cmds[1..], now);
    }
  }

  /** The commands of a list that go to the clock, in order. */
  function ClockOnly(cmds: seq<Command>): (r: seq<Command>)
    ensures |r| <= |cmds|
    ensures forall i :: 0 <= i < |r| ==> IsClockCall(r[i])
  {
    if |cmds| == 0 then []
    else (if IsClockCall(cmds[0]) then [cmds[0]] else []) + ClockOnly(cmds[1..])
  }

  /** project.py's reset is today's reset with its player calls removed. */
  lemma ProjectResetIsClockPart(s: State)
    ensures ProjectResetCalls(s) == ClockOnly(ResetCalls(s))
  {
    match s
    case Paused =>
      assert ClockOnly(ResetCalls(s)) == [ClockReset] + ClockOnly([PlayerStop]);
    case Running =>
      assert ClockOnly(ResetCalls(s)) == [ClockReset] + ClockOnly([PlayerStop, PlayerPlay]);
      assert ClockOnly([PlayerStop, PlayerPlay]) == ClockOnly([PlayerPlay]);
    case Stopped =>
      assert ClockOnly(ResetCalls(s)) == [ClockStop] + ClockOnly([ClockReset, PlayerStop]);
  }

  /** One press keeps the controller's state equal to the clock's, in both
      the controller and the engine. */
  lemma {:induction false} PressKeepsLockstep(c: Snapshot, b: Button, engine: bool, now: real)
    requires Armed(c)
    ensures ApplyClock(c, ButtonCalls(c.state, b, engine), now).state == NextState(c.state, b)
  {
    var cmds := ButtonCalls(c.state, b, engine);
    if |cmds| == 1 {
      assert ApplyClock(c, cmds, now) == ApplyClock(ClockStep(c, cmds[0], now), [], now);
    } else if |cmds| == 2 {
      ApplyClockTwo(c, cmds[0], cmds[1], now);
    } else if |cmds| == 3 {
      ApplyClockThree(c, cmds[0], cmds[1], cmds[2], now);
    }
  }

  /** A press with the time it happened at. */
  datatype Press = Press(button: Button, now: real)

  function States(s: State, presses: seq<Press>): State
    decreases |presses|
  {
    if |presses| == 0 then s else States(NextState(s, presses[0].button), presses[1..])
  }

  function Clocks(c: Snapshot, presses: seq<Press>, engine: bool): (r: Snapshot)
    requires Armed(c)
    ensures Armed(r)
    decreases |presses|
  {
    if |presses| == 0 then c
    else Clocks(ApplyClock(c, ButtonCalls(c.state, presses[0].button, engine), presses[0].now), presses[1..], engine)
  }

  /** Starting together, the controller and its clock agree on the state
      after any sequence of presses. */
  lemma {:induction false} Lockstep(c: Snapshot, presses: seq<Press>, engine: bool)
    requires Armed(c)
    ensures States(c.state, presses) == Clocks(c, presses, engine).state
    decreases |presses|
  {
    if |presses| > 0 {
      var p := presses[0];
      PressKeepsLockstep(c, p.button, engine, p.now);
      Lockstep(ApplyClock(c, ButtonCalls(c.state, p.button, engine), p.now), presses[1..], engine);
    }
  }

  /** `update_time_label`: "Frame: {n}/{frame_qty}". */
  function TimeLabel(frame: int, frameQty: int): string
  {
    "Frame: " + IntToString(frame) + "/" + IntToString(frameQty)
  }

  /** Reading a time label back: the text after "Frame: " split at its
      first '/'. */
  function ParseTimeLabel(text: string): Option<(int, int)>
  {
    if |text| < 7 || text[..7] != "Frame: " then None
    else
      var body := text[7..];
      match FirstIndex(body, '/')
      case None => None
      case Some(k) =>
        match (ParseInt(body[..k]), ParseInt(body[k + 1..]))
        case (Some(n), Some(q)) => Some((n, q))
        case _ => None
  }

  /** The label shows both numbers so that they can be read back. */
  lemma TimeLabelRoundTrip(frame: int, frameQty: int)
    ensures ParseTimeLabel(TimeLabel(frame, frameQty)) == Some((frame, frameQty))
  {
    var a, b := IntToString(frame), IntToString(frameQty);
    var text := TimeLabel(frame, frameQty);
    var body := a + "/" + b;
    assert text[..7] == "Frame: " && text[7..] == body;
    assert '/' !in a;
    assert body[|a|] == '/' && body[..|a|] == a;
    assert FirstIndex(body, '/') == Some(|a|);
    assert body[..|a|] == a && body[|a| + 1..] == b;
    ParseIntToString(frame);
    ParseIntToString(frameQty);
  }

  /** The label the controller shows for a frame: `self.model.loaded_song`
      is None when no song is loaded, and reading `frame_qty` from it
      raises; `None` stands for that. */
  function TimeLabelFor(frame: int, loaded: Session.SongLookup): (r: Option<string>)
    ensures r.Some? <==> loaded.LoadedSong?
    ensures r.Some? ==> ParseTimeLabel(r.value) == Some((frame, loaded.song.frameQty))
  {
    if loaded.LoadedSong? then
      TimeLabelRoundTrip(frame, loaded.song.frameQty);
      Some(TimeLabel(frame, loaded.song.frameQty))
    else None
  }

  /** The playback controller of controller/AudioPlaybackController.py. */
  class AudioPlaybackController {
    var state: State
    const clock: TimeUpdateThread
    var calls: seq<Command>

    ghost predicate Valid()
      reads this, clock
    {
      clock.Valid() && state == clock.state
    }

    constructor ()
      ensures Valid() && fresh(clock)
      ensures state == Stopped && clock.Snap() == Initial && calls == []
    {
      state := Stopped;
      clock := new TimeUpdateThread();
      calls := [];
    }

    /** `load_song`: hands the loaded song's path to the player; with no
        song loaded `loaded_song.name` raises on None. */
    method LoadSong(loaded: Session.SongLookup) returns (outcome: Outcome)
      modifies this
      ensures loaded.LoadedSong? ==> outcome == Ok && calls == old(calls) + [PlayerSetMedia(loaded.song.path)]
      ensures loaded.NoSongLoaded? ==> outcome == Raised(AttributeError) && calls == old(calls)
      ensures loaded.MissingSong? ==> outcome == Raised(KeyError) && calls == old(calls)
      ensures state == old(state)
    {
      match loaded
      case NoSongLoaded => return Raised(AttributeError);
      case MissingSong => return Raised(KeyError);
      case LoadedSong(song) =>
        calls := calls + [PlayerSetMedia(song.path)];
        outcome := Ok;
    }

    method Play(now: real)
      requires Valid()
      modifies this, clock
      ensures Valid()
      ensures state == NextState(old(state), PlayButton)
      ensures calls == old(calls) + ButtonCalls(old(state), PlayButton, false)
      ensures clock.Snap() == ApplyClock(old(clock.Snap()), ButtonCalls(old(state), PlayButton, false), now)
    {
      ghost var before := clock.Snap();
      if state == Stopped {
        ApplyClockTwo(before, PlayerPlay, ClockStart, now);
        calls := calls + [PlayerPlay];
        clock.StartClock(now);
        calls := calls + [ClockStart];
        state := Running;
      }
      if state == Paused {
        ApplyClockTwo(before, PlayerPlay, ClockResume, now);
        state := Running;
        calls := calls + [PlayerPlay];
        clock.ResumeClock(now);
        calls := calls + [ClockResume];
      }
    }

    method Pause(now: real)
      requires Valid()
      modifies this, clock
      ensures Valid()
      ensures state == NextState(old(state), PauseButton)
      ensures calls == old(calls) + ButtonCalls(old(state), PauseButton, false)
      ensures clock.Snap() == ApplyClock(old(clock.Snap()), ButtonCalls(old(state), PauseButton, false), now)
    {
      if state == Running {
        ApplyClockTwo(clock.Snap(), PlayerPause, ClockPause, now);
        state := Paused;
        calls := calls + [PlayerPause];
        clock.PauseClock(now);
        calls := calls + [ClockPause];
      }
    }

    method Reset(now: real)
      requires Valid()
      modifies this, clock
      ensures Valid()
      ensures state == old(state)
      ensures calls == old(calls) + ButtonCalls(old(state), ResetButton, false)
      ensures clock.Snap() == ApplyClock(old(clock.Snap()), ButtonCalls(old(state), ResetButton, false), now)
    {
      if state == Paused {
        ApplyClockTwo(clock.Snap(), ClockReset, PlayerStop, now);
        clock.ResetClock(now);
        calls := calls + [ClockReset, PlayerStop];
      } else if state == Running {
        ApplyClockThree(clock.Snap(), ClockReset, PlayerStop, PlayerPlay, now);
        clock.ResetClock(now);
        calls := calls + [ClockReset, PlayerStop, PlayerPlay];
      } else if state == Stopped {
        ApplyClockThree(clock.Snap(), ClockStop, ClockReset, PlayerStop, now);
        clock.StopClock();
        clock.ResetClock(now);
        calls := calls + [ClockStop, ClockReset, PlayerStop];
      }
    }

    method Stop(now: real)
      requires Valid()
      modifies this, clock
      ensures Valid()
      ensures state == Stopped
      ensures calls == old(calls) + ButtonCalls(old(state), StopButton, false)
      ensures clock.Snap() == ApplyClock(old(clock.Snap()), ButtonCalls(old(state), StopButton, false), now)
    {
      state := Stopped;
      clock.StopClock();
      calls := calls + [ClockStop];
    }
  }
}
