/**
 * The recording handlers seen as events on one UI thread, with the await in
 * startRecording made explicit. A click on the start button only begins a
 * request for the microphone; the session starts later, when the request is
 * granted. The start button is disabled only once isRecording is true, so a
 * second click can arrive while the first request is still pending.
 *
 * As written, every granted request installs a new one-second interval and
 * overwrites intervalRef with its handle, and stopRecording clears only the
 * handle in intervalRef. Two granted requests therefore leave an interval
 * that nothing clears, and the clock keeps counting after stop. The corrected
 * handler clears the interval in intervalRef before installing a new one.
 */
module StartRace {

  datatype Event =
    | ClickStart   // startRecording begins; getUserMedia is pending
    | Granted      // a pending getUserMedia resolves
    | Denied       // a pending getUserMedia rejects; the error is logged
    | ClickStop    // stopRecording
    | Tick         // one running interval fires

  /**
   * recording: isRecording; pending: startRecording calls waiting on the
   * microphone; current: the interval whose handle is in intervalRef still
   * runs; orphans: running intervals whose handle was overwritten;
   * time: recordingTime.
   */
  datatype Machine = Machine(recording: bool, pending: nat, current: bool, orphans: nat, time: nat)

  function Init(): Machine
  {
    Machine(false, 0, false, 0, 0)
  }

  /** Some interval is still installed, so the clock will advance. */
  predicate Ticking(m: Machine)
  {
    m.current || m.orphans > 0
  }

  /**
   * One event. An event the UI does not allow in the current state (a click
   * on a disabled button, a resolution with nothing pending, a tick with no
   * interval) leaves the state as it is. `fixed` selects the corrected start.
   * Only a grant as written can leave an interval behind, and at most one;
   * only a grant starts a recording, and it puts the clock back to 0.
   */
  function Step(m: Machine, e: Event, fixed: bool): (r: Machine)
    ensures r.orphans <= m.orphans + 1
    ensures (fixed || e != Granted) ==> r.orphans == m.orphans
    ensures r.recording && !m.recording ==> e == Granted && r.time == 0
  {
    match e
    case ClickStart =>
      if m.recording then m else m.(pending := m.pending + 1)
    case Granted =>
      if m.pending == 0 then m
      else
        var leaked := if !fixed && m.current then 1 else 0;
        m.(pending := m.pending - 1, recording := true, time := 0,
           current := true, orphans := m.orphans + leaked)
    case Denied =>
      if m.pending == 0 then m else m.(pending := m.pending - 1)
    case ClickStop =>
      if !m.recording then m else m.(recording := false, current := false)
    case Tick =>
      if Ticking(m) then m.(time := m.time + 1) else m
  }

  function Run(m: Machine, events: seq<Event>, fixed: bool): Machine
    decreases |events|
  {
    if events == [] then m else Run(Step(m, events[0], fixed), events[1..], fixed)
  }

  /** The double click: two pending starts, both granted, then stop. */
  const DoubleStart: seq<Event> := [ClickStart, ClickStart, Granted, Granted, ClickStop]

  /** As written, after the double click and stop the session is idle but the clock keeps counting. */
  lemma StopLeavesClockRunning()
    ensures var m := Run(Init(), DoubleStart, false);
      !m.recording && Ticking(m) && Run(m, [Tick, Tick], false).time == m.time + 2
  {
    var m0 := Init();
    var m1 := Step(m0, ClickStart, false);
    var m2 := Step(m1, ClickStart, false);
    var m3 := Step(m2, Granted, false);
    var m4 := Step(m3, Granted, false);
    var m5 := Step(m4, ClickStop, false);
    assert m5 == Machine(false, 0, false, 1, 0);
    assert Run(m5, [], false) == m5;
    assert Run(m4, [ClickStop], false) == m5;
    assert Run(m3, [Granted, ClickStop], false) == m5;
    assert Run(m2, [Granted, Granted, ClickStop], false) == m5;
    assert Run(m1, [ClickStart, Granted, Granted, ClickStop], false) == m5;
  }

  /** With the corrected start exactly one interval runs while recording and none while idle. */
  ghost predicate SingleTimer(m: Machine)
  {
    m.orphans == 0 && m.current == m.recording
  }

  lemma StepKeepsSingleTimer(m: Machine, e: Event)
    requires SingleTimer(m)
    ensures SingleTimer(Step(m, e, true))
  {
  }

  lemma {:induction false} RunKeepsSingleTimer(m: Machine, events: seq<Event>)
    requires SingleTimer(m)
    ensures SingleTimer(Run(m, events, true))
    decreases |events|
  {
    if events != [] {
      StepKeepsSingleTimer(m, events[0]);
      RunKeepsSingleTimer(Step(m, events[0], true), events[1..]);
    }
  }

  /** With the corrected start, whatever the clicks and grants, the clock runs only while recording. */
  lemma ClockOnlyRunsWhileRecording(events: seq<Event>)
    ensures var m := Run(Init(), events, true);
      Ticking(m) <==> m.recording
  {
    RunKeepsSingleTimer(Init(), events);
  }
}
