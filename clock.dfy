/** The playback clock of controller/TimeUpdateThread.py: a three-state
    machine over `elapsed_time` and `start_time`. Wall-clock readings
    (`time.perf_counter()`) are the explicit argument `now`. */
module Clock {
  import opened Wrappers
  import opened FrameMath

  datatype State = Stopped | Running | Paused

  /** The clock's fields: running time banked by earlier pauses, and when
      the current running segment began. */
  datatype Snapshot = Snapshot(state: State, elapsed: real, start: Option<real>)

  const Initial: Snapshot := Snapshot(Stopped, 0.0, None)

  /** A running clock always knows when its segment began, so a tick can be
      computed. */
  predicate Armed(c: Snapshot)
  {
    c.state == Running ==> c.start.Some?
  }

  /** `start_clock`: only from STOPPED; the banked time is kept. */
  function AfterStart(c: Snapshot, now: real): (r: Snapshot)
    ensures c.state == Stopped ==> r.state == Running && r.start == Some(now) && r.elapsed == c.elapsed
    ensures c.state != Stopped ==> r == c
  {
    if c.state == Stopped then c.(state := Running, start := Some(now)) else c
  }

  /** `pause_clock`: only from RUNNING; the current segment is added to the
      banked time. */
  function AfterPause(c: Snapshot, now: real): (r: Snapshot)
    requires Armed(c)
    ensures c.state == Running ==> r.state == Paused && r.start == c.start
                                   && r.elapsed == c.elapsed + (now - c.start.value)
    ensures c.state != Running ==> r == c
  {
    if c.state == Running then c.(state := Paused, elapsed := c.elapsed + (now - c.start.value)) else c
  }

  /** `resume_clock`: only from PAUSED; a new segment begins at `now`. */
  function AfterResume(c: Snapshot, now: real): (r: Snapshot)
    ensures c.state == Paused ==> r.state == Running && r.start == Some(now) && r.elapsed == c.elapsed
    ensures c.state != Paused ==> r == c
  {
    if c.state == Paused then c.(state := Running, start := Some(now)) else c
  }

  /** `reset_clock`: the banked time is cleared and the state kept; a
      running clock restarts its segment at `now`, any other forgets it. */
  function AfterReset(c: Snapshot, now: real): (r: Snapshot)
    ensures r.state == c.state && r.elapsed == 0.0
    ensures r.start == (if c.state == Running then Some(now) else None)
  {
    if c.state == Running then Snapshot(Running, 0.0, Some(now)) else c.(elapsed := 0.0, start := None)
  }

  /** `stop_clock`: RUNNING or PAUSED become STOPPED; no timing field moves. */
  function AfterStop(c: Snapshot): (r: Snapshot)
    ensures r.state == Stopped && r.elapsed == c.elapsed && r.start == c.start
  {
    c.(state := Stopped)
  }

  /** The running time `run` reads: banked time plus the current segment. */
  function AdjustedTime(c: Snapshot, now: real): real
    requires c.start.Some?
  {
    c.elapsed + (now - c.start.value)
  }

  /** The frame `run` emits at `now`: `int(adjusted_time * PROJECT_FPS)`,
      and nothing unless the clock is running. */
  function Tick(c: Snapshot, now: real): (r: Option<int>)
    ensures r.Some? <==> c.state == Running && c.start.Some?
    ensures r.Some? ==> r.value as real <= AdjustedTime(c, now) * ProjectFps as real || AdjustedTime(c, now) < 0.0
    ensures r.Some? && AdjustedTime(c, now) >= 0.0 ==>
              0 <= r.value && AdjustedTime(c, now) * ProjectFps as real < r.value as real + 1.0
  {
    if c.state == Running && c.start.Some? then Some(Trunc(AdjustedTime(c, now) * ProjectFps as real)) else None
  }

  /** Pausing at t1 and resuming at t2 leaves the running time at t2 equal
      to what it was at t1: time spent paused is not counted. */
  lemma PauseResumeContinuity(c: Snapshot, t1: real, t2: real)
    requires c.state == Running && c.start.Some?
    ensures AfterResume(AfterPause(c, t1), t2).state == Running
    ensures AdjustedTime(AfterResume(AfterPause(c, t1), t2), t2) == AdjustedTime(c, t1)
  {
  }

  /** Between two control calls, later ticks never show an earlier frame. */
  lemma TickMonotone(c: Snapshot, t1: real, t2: real)
    requires c.state == Running && c.start.Some? && t1 <= t2
    ensures Tick(c, t1).value <= Tick(c, t2).value
  {
    TruncMonotone(AdjustedTime(c, t1) * ProjectFps as real, AdjustedTime(c, t2) * ProjectFps as real);
  }

  /** A reset while running shows frame 0 at the moment of the reset. */
  lemma ResetWhileRunningShowsFrameZero(c: Snapshot, now: real)
    requires c.state == Running
    ensures Tick(AfterReset(c, now), now) == Some(0)
  {
  }

  /** One call on the clock, with the time it was made at. */
  datatype Call = StartAt(now: real) | PauseAt(now: real) | ResumeAt(now: real) | ResetAt(now: real) | Stop

  function Apply(c: Snapshot, call: Call): (r: Snapshot)
    requires Armed(c)
    ensures Armed(r)
  {
    match call
    case StartAt(now) => AfterStart(c, now)
    case PauseAt(now) => AfterPause(c, now)
    case ResumeAt(now) => AfterResume(c, now)
    case ResetAt(now) => AfterReset(c, now)
    case Stop => AfterStop(c)
  }

  function Run(c: Snapshot, calls: seq<Call>): (r: Snapshot)
    requires Armed(c)
    ensures Armed(r)
    decreases |calls|
  {
    if |calls| == 0 then c else Run(Apply(c, calls[0]), calls[1..])
  }

  /** When calls are made at non-decreasing times, the clock's fields stay
      sane: banked time is never negative and a segment never starts in the
      future. */
  ghost predicate SaneAt(c: Snapshot, now: real)
  {
    c.elapsed >= 0.0 && (c.start.Some? ==> c.start.value <= now)
  }

  function TimeOf(call: Call, previous: real): real
  {
    if call.Stop? then previous else call.now
  }

  ghost predicate InOrder(calls: seq<Call>, from: real)
  {
    |calls| > 0 ==> from <= TimeOf(calls[0], from) && InOrder(calls[1..], TimeOf(calls[0], from))
  }

  function EndTime(calls: seq<Call>, from: real): real
  {
    if |calls| == 0 then from else EndTime(calls[1..], TimeOf(calls[0], from))
  }

  lemma {:induction false} RunStaysSane(c: Snapshot, calls: seq<Call>, from: real)
    requires Armed(c) && SaneAt(c, from) && InOrder(calls, from)
    ensures SaneAt(Run(c, calls), EndTime(calls, from))
    ensures from <= EndTime(calls, from)
    decreases |calls|
  {
    if |calls| > 0 {
      var next := TimeOf(calls[0], from);
      assert SaneAt(Apply(c, calls[0]), next);
      RunStaysSane(Apply(c, calls[0]), calls[1..], next);
    }
  }

  /** Any tick of a clock driven from its initial state by calls in time
      order shows a frame of at least 0. */
  lemma TicksNeverNegative(calls: seq<Call>, from: real, now: real)
    requires InOrder(calls, from) && EndTime(calls, from) <= now
    requires Tick(Run(Initial, calls), now).Some?
    ensures Tick(Run(Initial, calls), now).value >= 0
  {
    RunStaysSane(Initial, calls, from);
  }

  /** Each pause banks its own segment: two running segments add up. */
  lemma SegmentsAccumulate(t0: real, t1: real, t2: real, t3: real)
    ensures Run(Initial, [StartAt(t0), PauseAt(t1), ResumeAt(t2), PauseAt(t3)]).elapsed == (t1 - t0) + (t3 - t2)
  {
    var s1 := AfterStart(Initial, t0);
    var s2 := AfterPause(s1, t1);
    var s3 := AfterResume(s2, t2);
    assert Run(Initial, [StartAt(t0), PauseAt(t1), ResumeAt(t2), PauseAt(t3)])
        == Run(s1, [PauseAt(t1), ResumeAt(t2), PauseAt(t3)]);
    assert Run(s1, [PauseAt(t1), ResumeAt(t2), PauseAt(t3)]) == Run(s2, [ResumeAt(t2), PauseAt(t3)]);
    assert Run(s2, [ResumeAt(t2), PauseAt(t3)]) == Run(s3, [PauseAt(t3)]);
  }

  /** `pause_clock` as written in project.py: it assigns the last segment
      instead of adding it to the banked time. */
  function AfterPauseAsWritten(c: Snapshot, now: real): (r: Snapshot)
    requires Armed(c)
  {
    if c.state == Running then c.(state := Paused, elapsed := now - c.start.value) else c
  }

  /** Start at 0, pause at 1, resume at 2, pause at 3: two seconds ran, but
      project.py's clock keeps one. */
  lemma PauseAsWrittenDropsEarlierSegments()
    ensures AfterPauseAsWritten(AfterResume(AfterPauseAsWritten(AfterStart(Initial, 0.0), 1.0), 2.0), 3.0).elapsed == 1.0
    ensures AfterPause(AfterResume(AfterPause(AfterStart(Initial, 0.0), 1.0), 2.0), 3.0).elapsed == 2.0
  {
  }

  /** The clock thread's control fields. */
  class TimeUpdateThread {
    var state: State
    var elapsedTime: real
    var startTime: Option<real>

    function Snap(): Snapshot
      reads this
    {
      Snapshot(state, elapsedTime, startTime)
    }

    ghost predicate Valid()
      reads this
    {
      Armed(Snap())
    }

    constructor ()
      ensures Valid() && Snap() == Initial
    {
      state := Stopped;
      elapsedTime := 0.0;
      startTime := None;
    }

    method StartClock(now: real)
      requires Valid()
      modifies this
      ensures Valid() && Snap() == AfterStart(old(Snap()), now)
    {
      if state == Stopped {
        startTime := Some(now);
        state := Running;
      }
    }

    method PauseClock(now: real)
      requires Valid()
      modifies this
      ensures Valid() && Snap() == AfterPause(old(Snap()), now)
    {
      if state == Running {
        var currentTime := now;
        elapsedTime := elapsedTime + (currentTime - startTime.value);
        state := Paused;
      }
    }

    method ResumeClock(now: real)
      requires Valid()
      modifies this
      ensures Valid() && Snap() == AfterResume(old(Snap()), now)
    {
      if state == Paused {
        startTime := Some(now);
        state := Running;
      }
    }

    /** From RUNNING the state passes through PAUSED and back while the
        fields are rewritten. */
    method ResetClock(now: real)
      requires Valid()
      modifies this
      ensures Valid() && Snap() == AfterReset(old(Snap()), now)
    {
      if state == Paused {
        elapsedTime := 0.0;
        startTime := None;
      } else if state == Running {
        state := Paused;
        elapsedTime := 0.0;
        startTime := Some(now);
        state := Running;
      } else if state == Stopped {
        state := Stopped;
        elapsedTime := 0.0;
        startTime := None;
      }
    }

    method StopClock()
      requires Valid()
      modifies this
      ensures Valid() && Snap() == AfterStop(old(Snap()))
    {
      if state == Running {
        state := Stopped;
      }
      if state == Paused {
        state := Stopped;
      }
    }

    /** One pass of `run` at time `now`: the emitted frame, if running. */
    method TickAt(now: real) returns (frame: Option<int>)
      requires Valid()
      ensures frame == Tick(Snap(), now)
      ensures state == Running <==> frame.Some?
    {
      if state != Running {
        return None;
      }
      var adjustedTime := elapsedTime + (now - startTime.value);
      frame := Some(Trunc(adjustedTime * ProjectFps as real));
    }
  }
}
