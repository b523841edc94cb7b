/**
 * The playback state machine of `src/components/MeditationPlayer.tsx`.
 *
 * Six fixed phases are timed by a one-second interval. The interval
 * callback is a closure: it sees the phase, the phase duration and the
 * session id that were current when the timer was started, not the live
 * ones. The model keeps those captured values as state of their own.
 *
 * The pure step functions over `PlayerState` are the specification; the
 * class `Player` updates its fields in place and each of its methods is
 * proved to take `State()` to the step function's result.
 */
module MeditationPlayer {
  import opened Wrappers
  import opened Text

  datatype Phase = Phase(name: string, duration: nat, color: string, accent: string)

  const Phases: seq<Phase> := [
    Phase("Awareness", 180, "bg-gradient-awareness", "awareness-bright"),
    Phase("Acceptance", 120, "bg-gradient-acceptance", "acceptance-bright"),
    Phase("Processing", 240, "bg-gradient-processing", "processing-bright"),
    Phase("Reframing", 180, "bg-gradient-reframing", "reframing-bright"),
    Phase("Integration", 120, "bg-gradient-integration", "integration-bright"),
    Phase("Maintenance", 120, "bg-gradient-maintenance", "maintenance-bright")
  ]

  const LastPhase: nat := |Phases| - 1

  function Duration(p: nat): nat
    requires p < |Phases|
  {
    Phases[p].duration
  }

  /** `phases.reduce((sum, phase) => sum + phase.duration, 0)`. */
  function SumDurations(ps: seq<Phase>): nat
  {
    if ps == [] then 0 else SumDurations(ps[..|ps| - 1]) + ps[|ps| - 1].duration
  }

  /** The session length written on completion. */
  function TotalSeconds(): nat
  {
    SumDurations(Phases)
  }

  /** The six durations are whole minutes, positive, and add up to 960 seconds (16 minutes). */
  lemma PhaseTable()
    ensures |Phases| == 6 && LastPhase == 5
    ensures forall p :: 0 <= p < |Phases| ==> Duration(p) > 0 && Duration(p) % 60 == 0
    ensures TotalSeconds() == 960
  {
    assert SumDurations(Phases[..1]) == 180 by { assert Phases[..1][..0] == []; }
    assert SumDurations(Phases[..2]) == 300 by { assert Phases[..2][..1] == Phases[..1]; }
    assert SumDurations(Phases[..3]) == 540 by { assert Phases[..3][..2] == Phases[..2]; }
    assert SumDurations(Phases[..4]) == 720 by { assert Phases[..4][..3] == Phases[..3]; }
    assert SumDurations(Phases[..5]) == 840 by { assert Phases[..5][..4] == Phases[..4]; }
    assert Phases[..6] == Phases;
  }

  /** The row inserted by `initializeSession` when the component mounts (phase 0). */
  datatype SessionInsert = SessionInsert(userId: string, moodInput: string, selectedPhase: string,
                                         sessionDuration: nat, completed: bool)

  function InitialSessionRow(userId: string, moodText: Option<string>): (row: SessionInsert)
    ensures row.moodInput != "" && row.selectedPhase == "Awareness"
    ensures row.sessionDuration == 0 && !row.completed
    ensures moodText.Some? && moodText.value != "" ==> row.moodInput == moodText.value
  {
    SessionInsert(userId, OrElse(moodText.GetOr(""), "Unknown"), Phases[0].name, 0, false)
  }

  /** The update sent to the session row by `completeSession`. */
  datatype SessionUpdate = SessionUpdate(sessionId: string, completed: bool, sessionDuration: nat)

  /**
   * The player's state: the React state variables, whether the interval
   * runs (`intervalRef.current` non-null), the values its callback captured,
   * and the completion updates issued so far.
   */
  datatype PlayerState = PlayerState(
    currentPhase: nat,
    isPlaying: bool,
    timeElapsed: nat,
    timerActive: bool,
    capturedPhase: nat,
    capturedDuration: nat,
    capturedSession: Option<string>,
    sessionId: Option<string>,
    updates: seq<SessionUpdate>)

  ghost predicate ValidState(s: PlayerState) {
    && s.currentPhase < |Phases|
    && s.capturedPhase < |Phases|
    && s.capturedDuration == Duration(s.capturedPhase)
    && s.isPlaying == s.timerActive
    && forall i :: 0 <= i < |s.updates| ==> s.updates[i].completed && s.updates[i].sessionDuration == 960
  }

  function Initial(): PlayerState {
    PlayerState(0, false, 0, false, 0, Duration(0), None, None, [])
  }

  /** `initializeSession` succeeded: the inserted row's id becomes `sessionId`. */
  function SessionCreatedStep(s: PlayerState, id: string): PlayerState {
    s.(sessionId := Some(id))
  }

  /** `startTimer`: (re)start the interval, capturing the current phase, its duration and the session id. */
  function StartTimerStep(s: PlayerState): PlayerState
    requires s.currentPhase < |Phases|
  {
    s.(timerActive := true, capturedPhase := s.currentPhase,
       capturedDuration := Duration(s.currentPhase), capturedSession := s.sessionId)
  }

  /** `stopTimer`. */
  function StopTimerStep(s: PlayerState): PlayerState {
    s.(timerActive := false)
  }

  function TogglePlayPauseStep(s: PlayerState): (r: PlayerState)
    requires s.currentPhase < |Phases|
    ensures r.isPlaying == r.timerActive
    ensures r.updates == s.updates && r.sessionId == s.sessionId
    ensures r.isPlaying ==> r.capturedPhase == s.currentPhase && r.capturedSession == s.sessionId
  {
    if s.isPlaying then StopTimerStep(s).(isPlaying := false)
    else StartTimerStep(s).(isPlaying := true)
  }

  /** The update `completeSession` sends when it sees session id `seen` (an empty id is falsy). */
  function CompletionUpdates(seen: Option<string>): seq<SessionUpdate> {
    if seen.Some? && seen.value != "" then [SessionUpdate(seen.value, true, TotalSeconds())] else []
  }

  /** `completeSession` as run by a closure that sees session id `seen`. */
  function CompleteStep(s: PlayerState, seen: Option<string>): (r: PlayerState)
    ensures !r.isPlaying && !r.timerActive
    ensures |s.updates| <= |r.updates| <= |s.updates| + 1 && r.updates[..|s.updates|] == s.updates
    ensures r.currentPhase == s.currentPhase && r.timeElapsed == s.timeElapsed && r.sessionId == s.sessionId
  {
    StopTimerStep(s.(isPlaying := false)).(updates := s.updates + CompletionUpdates(seen))
  }

  /** The stop button: `completeSession` with the live session id. */
  function StopPressedStep(s: PlayerState): PlayerState {
    CompleteStep(s, s.sessionId)
  }

  /** `resetMeditation`. */
  function ResetStep(s: PlayerState): (r: PlayerState)
    ensures r.isPlaying == r.timerActive
    ensures r.sessionId == s.sessionId && r.updates == s.updates
  {
    StopTimerStep(s).(isPlaying := false, timeElapsed := 0, currentPhase := 0)
  }

  /** One second passes: the interval callback runs if the interval is active, using its captured values. */
  function TickStep(s: PlayerState): (r: PlayerState)
    ensures r.capturedPhase == s.capturedPhase && r.capturedDuration == s.capturedDuration
    ensures r.capturedSession == s.capturedSession && r.sessionId == s.sessionId
    ensures r.updates == s.updates || (!r.timerActive && r.updates == s.updates + CompletionUpdates(s.capturedSession))
    ensures r.currentPhase == s.currentPhase || r.currentPhase == s.capturedPhase + 1
  {
    if !s.timerActive then s
    else if s.timeElapsed + 1 >= s.capturedDuration then
      if s.capturedPhase < LastPhase then s.(currentPhase := s.capturedPhase + 1, timeElapsed := 0)
      else CompleteStep(s, s.capturedSession).(timeElapsed := s.timeElapsed + 1)
    else s.(timeElapsed := s.timeElapsed + 1)
  }

  function Ticks(s: PlayerState, n: nat): PlayerState
    decreases n
  {
    if n == 0 then s else Ticks(TickStep(s), n - 1)
  }

  // ---------------------------------------------------------------------
  // Properties of the steps
  // ---------------------------------------------------------------------

  /** Every step keeps the phase within 0..5, playing in step with the timer, and each update a full completion. */
  lemma StepsPreserveValid(s: PlayerState, id: string)
    requires ValidState(s)
    ensures ValidState(Initial())
    ensures ValidState(SessionCreatedStep(s, id))
    ensures ValidState(TogglePlayPauseStep(s))
    ensures ValidState(StopPressedStep(s))
    ensures ValidState(ResetStep(s))
    ensures ValidState(TickStep(s))
  {
    PhaseTable();
  }

  /** A tick that stays below the captured duration adds exactly one second and keeps the phase. */
  lemma TickWithinPhase(s: PlayerState)
    requires ValidState(s) && s.isPlaying && s.timeElapsed + 1 < s.capturedDuration
    ensures TickStep(s).timeElapsed == s.timeElapsed + 1
    ensures TickStep(s).currentPhase == s.currentPhase && TickStep(s).isPlaying
    ensures TickStep(s).updates == s.updates
  {
  }

  /** A tick reaching the captured duration before the last phase moves to the phase after the captured one. */
  lemma TickAdvancesPhase(s: PlayerState)
    requires ValidState(s) && s.isPlaying && s.timeElapsed + 1 >= s.capturedDuration && s.capturedPhase < 5
    ensures TickStep(s).currentPhase == s.capturedPhase + 1 && TickStep(s).timeElapsed == 0
    ensures TickStep(s).isPlaying && TickStep(s).timerActive && TickStep(s).updates == s.updates
  {
  }

  /** A tick reaching the captured duration of the last phase completes the session with the captured id. */
  lemma TickCompletesSession(s: PlayerState)
    requires ValidState(s) && s.isPlaying && s.timeElapsed + 1 >= s.capturedDuration && s.capturedPhase == 5
    ensures TickStep(s).timeElapsed == s.timeElapsed + 1
    ensures !TickStep(s).isPlaying && !TickStep(s).timerActive
    ensures TickStep(s).currentPhase == s.currentPhase
    ensures TickStep(s).updates == s.updates + CompletionUpdates(s.capturedSession)
  {
  }

  /** Toggling flips `isPlaying` and the timer together, and leaves the phase and the elapsed time alone. */
  lemma ToggleFlips(s: PlayerState)
    requires ValidState(s)
    ensures TogglePlayPauseStep(s).isPlaying == !s.isPlaying
    ensures TogglePlayPauseStep(s).timerActive == !s.isPlaying
    ensures TogglePlayPauseStep(s).currentPhase == s.currentPhase
    ensures TogglePlayPauseStep(s).timeElapsed == s.timeElapsed
  {
  }

  /** While paused no tick changes anything, however many seconds pass. */
  lemma {:induction false} PausedTicksChangeNothing(s: PlayerState, n: nat)
    requires ValidState(s) && !s.isPlaying
    ensures Ticks(s, n) == s
  {
    if n > 0 {
      PausedTicksChangeNothing(TickStep(s), n - 1);
    }
  }

  /** Pausing, waiting any number of seconds and resuming neither loses nor gains time. */
  lemma PauseResumeKeepsTime(s: PlayerState, n: nat)
    requires ValidState(s) && s.isPlaying
    ensures Ticks(TogglePlayPauseStep(s), n) == TogglePlayPauseStep(s)
    ensures var paused := TogglePlayPauseStep(s);
            var resumed := TogglePlayPauseStep(Ticks(paused, n));
            resumed.isPlaying && resumed.timeElapsed == s.timeElapsed && resumed.currentPhase == s.currentPhase
  {
    PausedTicksChangeNothing(TogglePlayPauseStep(s), n);
  }

  /** Reset gives phase 0, no elapsed time, not playing and no timer, and issues no update. */
  lemma ResetClears(s: PlayerState)
    ensures ResetStep(s).currentPhase == 0 && ResetStep(s).timeElapsed == 0
    ensures !ResetStep(s).isPlaying && !ResetStep(s).timerActive
    ensures ResetStep(s).updates == s.updates
  {
  }

  /** Pressing reset a second time changes nothing. */
  lemma ResetIdempotent(s: PlayerState)
    ensures ResetStep(ResetStep(s)) == ResetStep(s)
  {
  }

  /**
   * Completion records the full 960 seconds whatever the phase and the
   * elapsed time, also from the stop button, and issues nothing without a
   * session id.
   */
  lemma CompletionRecordsFullLength(s: PlayerState, seen: Option<string>)
    ensures !CompleteStep(s, seen).isPlaying && !CompleteStep(s, seen).timerActive
    ensures seen.Some? && seen.value != "" ==>
      CompleteStep(s, seen).updates == s.updates + [SessionUpdate(seen.value, true, 960)]
    ensures seen.None? ==> CompleteStep(s, seen).updates == s.updates
    ensures StopPressedStep(s).updates == s.updates + CompletionUpdates(s.sessionId)
  {
    PhaseTable();
  }

  /** Nothing guards against a second completion: pressing stop twice sends the completion update twice. */
  lemma StopTwiceRecordsTwice(s: PlayerState, id: string)
    requires s.sessionId == Some(id) && id != ""
    ensures StopPressedStep(StopPressedStep(s)).updates ==
      s.updates + [SessionUpdate(id, true, 960), SessionUpdate(id, true, 960)]
  {
    PhaseTable();
  }

  // ---------------------------------------------------------------------
  // The captured phase: what a running timer does
  // ---------------------------------------------------------------------

  lemma {:induction false} TicksAdd(s: PlayerState, a: nat, b: nat)
    ensures Ticks(s, a + b) == Ticks(Ticks(s, a), b)
    decreases a
  {
    if a > 0 {
      TicksAdd(TickStep(s), a - 1, b);
    }
  }

  /** Ticks that stay below the captured duration only count seconds. */
  lemma {:induction false} TicksBelowCaptured(s: PlayerState, k: nat)
    requires s.timerActive && s.timeElapsed + k < s.capturedDuration
    ensures Ticks(s, k) == s.(timeElapsed := s.timeElapsed + k)
    decreases k
  {
    if k > 0 {
      TicksBelowCaptured(TickStep(s), k - 1);
    }
  }

  /**
   * As written, a timer that keeps running never moves past the phase after
   * the one it captured: on reaching the captured duration again it sets the
   * same next phase once more. It never completes the session.
   */
  lemma {:induction false} StaleTimerNeverPassesNextPhase(s: PlayerState, n: nat)
    requires ValidState(s) && s.timerActive && s.capturedPhase < 5
    requires s.currentPhase == s.capturedPhase || s.currentPhase == s.capturedPhase + 1
    ensures Ticks(s, n).timerActive && Ticks(s, n).isPlaying
    ensures Ticks(s, n).capturedPhase == s.capturedPhase
    ensures Ticks(s, n).currentPhase == s.capturedPhase || Ticks(s, n).currentPhase == s.capturedPhase + 1
    ensures Ticks(s, n).updates == s.updates
    decreases n
  {
    if n > 0 {
      StaleTimerNeverPassesNextPhase(TickStep(s), n - 1);
    }
  }

  /** The state right after pressing play on a fresh player. */
  function PlayFromStart(id: Option<string>): PlayerState {
    TogglePlayPauseStep(Initial().(sessionId := id))
  }

  /** Pressing play once and letting the timer run: the player never gets beyond phase 1 and never completes. */
  lemma PlayFromStartNeverCompletes(id: Option<string>, n: nat)
    ensures Ticks(PlayFromStart(id), n).currentPhase <= 1
    ensures Ticks(PlayFromStart(id), n).isPlaying
    ensures Ticks(PlayFromStart(id), n).updates == []
  {
    PhaseTable();
    StaleTimerNeverPassesNextPhase(PlayFromStart(id), n);
  }

  /** The label `formatTime(totalDuration - timeElapsed)` shown as the time remaining. */
  function RemainingLabel(s: PlayerState): string
    requires s.currentPhase < |Phases|
  {
    FormatTime(Duration(s.currentPhase) - s.timeElapsed)
  }

  /**
   * After 359 seconds of play the timer, still timing phase 0 (180 s), has
   * run 179 seconds into phase 1, which lasts only 120 s: the remaining time
   * shows as "-1:-59".
   */
  lemma ElapsedOvershootsLivePhase(id: Option<string>)
    ensures Ticks(PlayFromStart(id), 359).currentPhase == 1
    ensures Ticks(PlayFromStart(id), 359).timeElapsed == 179 > Duration(1)
    ensures RemainingLabel(Ticks(PlayFromStart(id), 359)) == "-1:-59"
  {
    StateAfter359(id);
    NegativeRemainder();
  }

  /** The state 359 seconds after pressing play: phase 1 shown, 179 seconds counted. */
  lemma StateAfter359(id: Option<string>)
    ensures Ticks(PlayFromStart(id), 359) == PlayFromStart(id).(currentPhase := 1, timeElapsed := 179)
  {
    var s := PlayFromStart(id);
    var b := s.(currentPhase := 1, timeElapsed := 0);
    FirstPhaseEnds(id);
    assert b.timerActive && b.capturedDuration == 180;
    TicksBelowCaptured(b, 179);
    TicksAdd(s, 180, 179);
  }

  /** After 180 seconds the captured phase 0 ends and phase 1 is shown. */
  lemma FirstPhaseEnds(id: Option<string>)
    ensures Ticks(PlayFromStart(id), 180) == PlayFromStart(id).(currentPhase := 1, timeElapsed := 0)
  {
    var s := PlayFromStart(id);
    assert s.timerActive && s.capturedPhase == 0 && s.capturedDuration == 180 && s.timeElapsed == 0;
    TicksAdd(s, 179, 1);
    TicksBelowCaptured(s, 179);
    var a := s.(timeElapsed := 179);
    assert Ticks(a, 1) == TickStep(a);
  }

  /** `formatTime(-59)`: JavaScript's floor and remainder give "-1:-59". */
  lemma NegativeRemainder()
    ensures FormatTime(120 - 179) == "-1:-59"
  {
    assert (120 - 179) / 60 == -1;
    assert JsRem(120 - 179, 60) == -59;
    assert IntToString(-1) == "-1";
    assert IntToString(-59) == "-59";
  }

  // ---------------------------------------------------------------------
  // The evidently intended timer: live phase and live duration
  // ---------------------------------------------------------------------

  /** One second of the intended timer, which reads the live phase, its duration and the live session id. */
  function IntendedTickStep(s: PlayerState): (r: PlayerState)
    requires s.currentPhase < |Phases|
    ensures r.currentPhase < |Phases|
  {
    if !s.timerActive then s
    else if s.timeElapsed + 1 >= Duration(s.currentPhase) then
      if s.currentPhase < LastPhase then s.(currentPhase := s.currentPhase + 1, timeElapsed := 0)
      else CompleteStep(s, s.sessionId).(timeElapsed := s.timeElapsed + 1)
    else s.(timeElapsed := s.timeElapsed + 1)
  }

  function IntendedTicks(s: PlayerState, n: nat): (r: PlayerState)
    requires s.currentPhase < |Phases|
    ensures r.currentPhase < |Phases|
    decreases n
  {
    if n == 0 then s else IntendedTicks(IntendedTickStep(s), n - 1)
  }

  /** With live values the elapsed time never passes the duration of the phase on screen. */
  lemma IntendedTickStaysWithinPhase(s: PlayerState)
    requires s.currentPhase < |Phases| && s.timeElapsed < Duration(s.currentPhase)
    ensures IntendedTickStep(s).timeElapsed <= Duration(IntendedTickStep(s).currentPhase)
    ensures IntendedTickStep(s).timerActive ==>
      IntendedTickStep(s).timeElapsed < Duration(IntendedTickStep(s).currentPhase)
  {
    PhaseTable();
  }

  lemma {:induction false} IntendedTicksAdd(s: PlayerState, a: nat, b: nat)
    requires s.currentPhase < |Phases|
    ensures IntendedTicks(s, a + b) == IntendedTicks(IntendedTicks(s, a), b)
    decreases a
  {
    if a > 0 {
      IntendedTicksAdd(IntendedTickStep(s), a - 1, b);
    }
  }

  lemma {:induction false} IntendedTicksBelow(s: PlayerState, k: nat)
    requires s.currentPhase < |Phases| && s.timerActive
    requires s.timeElapsed + k < Duration(s.currentPhase)
    ensures IntendedTicks(s, k) == s.(timeElapsed := s.timeElapsed + k)
    decreases k
  {
    if k > 0 {
      IntendedTicksBelow(IntendedTickStep(s), k - 1);
    }
  }

  /** Exactly D ticks in a phase of duration D advance exactly one phase, with the elapsed time back at 0. */
  lemma IntendedPhaseRun(s: PlayerState)
    requires s.currentPhase < LastPhase && s.timerActive && s.timeElapsed == 0
    ensures IntendedTicks(s, Duration(s.currentPhase)) == s.(currentPhase := s.currentPhase + 1)
  {
    DurationPositive(s.currentPhase);
    IntendedRun(s, Duration(s.currentPhase) - 1);
  }

  /** k ticks short of the end, then the tick that ends the phase. */
  lemma IntendedRun(s: PlayerState, k: nat)
    requires s.currentPhase < LastPhase && s.timerActive && s.timeElapsed == 0
    requires k + 1 == Duration(s.currentPhase)
    ensures IntendedTicks(s, k + 1) == s.(currentPhase := s.currentPhase + 1)
  {
    IntendedTicksBelow(s, k);
    var a := s.(timeElapsed := k);
    IntendedFinalTick(a);
    IntendedTicksAdd(s, k, 1);
  }

  lemma DurationPositive(p: nat)
    requires p < |Phases|
    ensures Duration(p) > 0
  {
  }

  /** The tick that reaches the live duration of a phase before the last one. */
  lemma IntendedFinalTick(a: PlayerState)
    requires a.currentPhase < LastPhase && a.timerActive && a.timeElapsed + 1 == Duration(a.currentPhase)
    ensures IntendedTicks(a, 1) == a.(currentPhase := a.currentPhase + 1, timeElapsed := 0)
  {
    assert IntendedTicks(a, 1) == IntendedTickStep(a);
  }

  /** The last phase's 120 ticks complete the session with the live id. */
  lemma IntendedLastPhase(s: PlayerState)
    requires s.currentPhase == LastPhase && s.timerActive && s.timeElapsed == 0
    ensures IntendedTicks(s, 120) == CompleteStep(s, s.sessionId).(timeElapsed := 120)
  {
    IntendedTicksBelow(s, 119);
    var a := s.(timeElapsed := 119);
    IntendedLastTick(a);
    IntendedTicksAdd(s, 119, 1);
  }

  /** The tick that ends the last phase completes the session. */
  lemma IntendedLastTick(a: PlayerState)
    requires a.currentPhase == LastPhase && a.timerActive && a.timeElapsed == 119
    ensures IntendedTicks(a, 1) == CompleteStep(a, a.sessionId).(timeElapsed := 120)
  {
    assert IntendedTicks(a, 1) == IntendedTickStep(a);
  }

  /** The seconds from the start of phase p to the start of the last phase. */
  function SecondsToLastPhase(p: nat): nat
    requires p <= LastPhase
    decreases LastPhase - p
  {
    if p == LastPhase then 0 else Duration(p) + SecondsToLastPhase(p + 1)
  }

  /** From the start of any phase, the intended timer reaches the start of the last phase after the phases in between. */
  lemma {:induction false} IntendedRunFrom(s: PlayerState)
    requires s.currentPhase <= LastPhase && s.timerActive && s.timeElapsed == 0
    ensures IntendedTicks(s, SecondsToLastPhase(s.currentPhase)) == s.(currentPhase := LastPhase)
    decreases LastPhase - s.currentPhase
  {
    if s.currentPhase < LastPhase {
      var next := s.(currentPhase := s.currentPhase + 1);
      var d, rest := Duration(s.currentPhase), SecondsToLastPhase(s.currentPhase + 1);
      assert SecondsToLastPhase(s.currentPhase) == d + rest;
      IntendedPhaseRun(s);
      IntendedRunFrom(next);
      IntendedTicksAdd(s, d, rest);
      assert IntendedTicks(s, d + rest) == IntendedTicks(next, rest);
      assert next.(currentPhase := LastPhase) == s.(currentPhase := LastPhase);
    }
  }

  /** The first five phases take 840 seconds and end at the start of the last phase. */
  lemma IntendedRunToLastPhase(s0: PlayerState)
    requires s0.currentPhase == 0 && s0.timerActive && s0.timeElapsed == 0
    ensures IntendedTicks(s0, 840) == s0.(currentPhase := LastPhase)
  {
    assert SecondsToLastPhase(0) == 840;
    IntendedRunFrom(s0);
  }

  /** With the intended timer one press of play runs all six phases and completes after exactly 960 seconds. */
  lemma IntendedSessionCompletes(id: string)
    requires id != ""
    ensures IntendedTicks(PlayFromStart(Some(id)), 960).currentPhase == LastPhase
    ensures !IntendedTicks(PlayFromStart(Some(id)), 960).isPlaying
    ensures IntendedTicks(PlayFromStart(Some(id)), 960).updates == [SessionUpdate(id, true, 960)]
  {
    var s0 := PlayFromStart(Some(id));
    assert s0.currentPhase == 0 && s0.timerActive && s0.timeElapsed == 0 && s0.updates == [];
    IntendedRunToLastPhase(s0);
    var s5 := s0.(currentPhase := LastPhase);
    IntendedLastPhase(s5);
    IntendedTicksAdd(s0, 840, 120);
    assert TotalSeconds() == 960 by { PhaseTable(); }
  }

  // ---------------------------------------------------------------------
  // formatTime
  // ---------------------------------------------------------------------

  /** A non-zero multiple of m is at least m away from 0. */
  lemma MulBounds(m: nat, k: int)
    ensures k >= 1 ==> m * k >= m
    ensures k <= -1 ==> m * k <= -(m as int)
  {
    if k >= 1 {
      assert m * k == m + m * (k - 1);
    } else if k <= -1 {
      assert m * k == -(m as int) + m * (k + 1);
    }
  }

  lemma MultipleHasNoRemainder(q: int, m: nat)
    requires m > 0
    ensures (q * m) % m == 0
  {
    var x := q * m;
    var k := q - x / m;
    assert x % m == m * k by {
      assert x == m * (x / m) + x % m;
      assert m * k == m * q - m * (x / m);
    }
    MulBounds(m, k);
  }

  /** What a remainder leaves behind is a multiple of the divisor, for both signs of the dividend. */
  lemma RemainderLeavesMultiple(a: int, m: nat)
    requires m > 0
    ensures a >= 0 ==> (a - a % m) % m == 0
    ensures a < 0 ==> (a + (-a) % m) % m == 0
  {
    if a >= 0 {
      assert a - a % m == (a / m) * m by { assert a == m * (a / m) + a % m; }
      MultipleHasNoRemainder(a / m, m);
    } else {
      var b := -a;
      assert a + b % m == (-(b / m)) * m by { assert b == m * (b / m) + b % m; }
      MultipleHasNoRemainder(-(b / m), m);
    }
  }

  /** JavaScript's `%`: the remainder truncated toward zero, taking the sign of the dividend. */
  function JsRem(a: int, m: nat): (r: int)
    requires m > 0
    ensures -(m as int) < r < m
    ensures a >= 0 ==> r >= 0
    ensures a < 0 ==> r <= 0
    ensures (a - r) % m == 0
  {
    RemainderLeavesMultiple(a, m);
    if a >= 0 then a % m else -((-a) % m)
  }
  /** `padStart(2, '0')`. */
  function PadStart2(s: string): (r: string)
    ensures |s| >= 2 ==> r == s
    ensures |s| < 2 ==> |r| == 2 && r[2 - |s|..] == s
    ensures |s| < 2 ==> forall i :: 0 <= i < 2 - |s| ==> r[i] == '0'
  {
    if |s| >= 2 then s else seq(2 - |s|, _ => '0') + s
  }

  /** `formatTime`: minutes (rounded down), a colon, and the JavaScript remainder padded to two characters. */
  function FormatTime(seconds: int): (r: string)
    ensures seconds >= 0 ==> |r| >= 4 && r[|r| - 3] == ':' && r[..|r| - 3] == NatToString(seconds / 60)
  {
    SecondsFieldWidth(seconds);
    IntToString(seconds / 60) + ":" + PadStart2(IntToString(JsRem(seconds, 60)))
  }

  /** For a non-negative time the seconds field is exactly two characters wide. */
  lemma SecondsFieldWidth(seconds: int)
    ensures seconds >= 0 ==> |PadStart2(IntToString(JsRem(seconds, 60)))| == 2
  {
    if seconds >= 0 {
      PaddedSeconds(seconds % 60);
    }
  }

  /** Reads "m:ss" back into minutes and seconds. */
  function ParseTime(t: string): Option<(nat, nat)>
  {
    var m := FirstToken(t, ':');
    if |m| == |t| then None
    else
      var sec := t[|m| + 1..];
      if (forall i :: 0 <= i < |m| ==> IsDigit(m[i])) && (forall i :: 0 <= i < |sec| ==> IsDigit(sec[i]))
      then Some((ParseNat(m), ParseNat(sec)))
      else None
  }

  /** The padded seconds field of a value below 60 is two digits that read back as the value. */
  lemma PaddedSeconds(x: nat)
    requires x < 60
    ensures |PadStart2(NatToString(x))| == 2
    ensures forall i :: 0 <= i < 2 ==> IsDigit(PadStart2(NatToString(x))[i])
    ensures ParseNat(PadStart2(NatToString(x))) == x
  {
    var d := NatToString(x);
    var sec := PadStart2(d);
    ParseNatToString(x);
    if x < 10 {
      assert sec == ['0', d[0]];
      assert ParseNat(sec) == ParseNat(['0']) * 10 + DigitValue(d[0]) by { assert sec[..1] == ['0']; }
      assert ParseNat(['0']) == 0 by { assert ['0'][..0] == []; }
      assert ParseNat(d) == DigitValue(d[0]) by { assert d[..0] == []; }
    }
  }

  /** For a non-negative time the minutes and the remainder are plain non-negative numbers. */
  lemma FormatTimeOfNat(n: nat)
    ensures FormatTime(n) == NatToString(n / 60) + ":" + PadStart2(NatToString(n % 60))
  {
    assert JsRem(n, 60) == n % 60;
    assert IntToString(n / 60) == NatToString(n / 60);
    assert IntToString(n % 60) == NatToString(n % 60);
  }

  /** Digits, a colon and digits read back as the two numbers. */
  lemma ParseTimeOfParts(m: string, sec: string)
    requires forall i :: 0 <= i < |m| ==> IsDigit(m[i])
    requires forall i :: 0 <= i < |sec| ==> IsDigit(sec[i])
    ensures ParseTime(m + ":" + sec) == Some((ParseNat(m), ParseNat(sec)))
  {
    var t := m + ":" + sec;
    FirstTokenOfPrefix(m, sec);
    assert FirstToken(t, ':') == m && |m| < |t|;
    assert t[|m| + 1..] == sec;
  }

  /** For a non-negative time, the two-digit seconds field and the round trip through "m:ss". */
  lemma FormatTimeRoundTrip(n: nat)
    ensures FormatTime(n) == NatToString(n / 60) + ":" + PadStart2(NatToString(n % 60))
    ensures |PadStart2(NatToString(n % 60))| == 2
    ensures ParseTime(FormatTime(n)).Some?
    ensures var (mins, secs) := ParseTime(FormatTime(n)).value; mins * 60 + secs == n && secs < 60
  {
    var m := NatToString(n / 60);
    var sec := PadStart2(NatToString(n % 60));
    FormatTimeOfNat(n);
    ParseNatToString(n / 60);
    PaddedSeconds(n % 60);
    ParseTimeOfParts(m, sec);
    assert ParseTime(FormatTime(n)) == Some((n / 60, n % 60));
  }

  lemma {:induction false} FirstTokenOfPrefix(m: string, rest: string)
    requires forall i :: 0 <= i < |m| ==> IsDigit(m[i])
    ensures FirstToken(m + ":" + rest, ':') == m
  {
    if m != [] {
      assert (m + ":" + rest)[1..] == m[1..] + ":" + rest;
      FirstTokenOfPrefix(m[1..], rest);
    }
  }

  // ---------------------------------------------------------------------
  // The component, with its state updated in place
  // ---------------------------------------------------------------------

  class Player {
    var currentPhase: nat
    var isPlaying: bool
    var timeElapsed: nat
    /** `intervalRef.current !== null`. */
    var timerActive: bool
    /** The phase, duration and session id the running interval callback closed over. */
    var capturedPhase: nat
    var capturedDuration: nat
    var capturedSession: Option<string>
    var sessionId: Option<string>
    /** Completion updates sent to the `meditation_sessions` table, in order. */
    var updates: seq<SessionUpdate>

    function State(): PlayerState
      reads this
    {
      PlayerState(currentPhase, isPlaying, timeElapsed, timerActive, capturedPhase,
                  capturedDuration, capturedSession, sessionId, updates)
    }

    ghost predicate Valid()
      reads this
    {
      ValidState(State())
    }

    constructor ()
      ensures Valid() && State() == Initial()
    {
      currentPhase, isPlaying, timeElapsed, timerActive := 0, false, 0, false;
      capturedPhase, capturedDuration, capturedSession := 0, Phases[0].duration, None;
      sessionId, updates := None, [];
    }

    /** The insert of `initializeSession` returned a row with id `id`. */
    method SessionCreated(id: string)
      requires Valid()
      modifies this
      ensures Valid() && State() == SessionCreatedStep(old(State()), id)
    {
      sessionId := Some(id);
    }

    method StartTimer()
      requires Valid()
      modifies this
      ensures State() == StartTimerStep(old(State()))
    {
      timerActive := true;
      capturedPhase := currentPhase;
      capturedDuration := Phases[currentPhase].duration;
      capturedSession := sessionId;
    }

    method StopTimer()
      modifies this
      ensures State() == StopTimerStep(old(State()))
    {
      timerActive := false;
    }

    method TogglePlayPause()
      requires Valid()
      modifies this
      ensures Valid() && State() == TogglePlayPauseStep(old(State()))
    {
      if isPlaying {
        StopTimer();
        isPlaying := false;
      } else {
        StartTimer();
        isPlaying := true;
      }
    }

    /** `completeSession`, run by a closure that sees session id `seen`. */
    method CompleteSession(seen: Option<string>)
      requires Valid()
      modifies this
      ensures Valid() && State() == CompleteStep(old(State()), seen)
    {
      isPlaying := false;
      StopTimer();
      if seen.Some? && seen.value != "" {
        updates := updates + [SessionUpdate(seen.value, true, SumDurations(Phases))];
      }
      PhaseTable();
    }

    /** The stop button. */
    method StopPressed()
      requires Valid()
      modifies this
      ensures Valid() && State() == StopPressedStep(old(State()))
    {
      CompleteSession(sessionId);
    }

    method ResetMeditation()
      requires Valid()
      modifies this
      ensures Valid() && State() == ResetStep(old(State()))
    {
      StopTimer();
      isPlaying := false;
      timeElapsed := 0;
      currentPhase := 0;
    }

    /** One second passes; the interval callback runs only while the interval is active. */
    method Tick()
      requires Valid()
      modifies this
      ensures Valid() && State() == TickStep(old(State()))
    {
      if timerActive {
        var newTime := timeElapsed + 1;
        if newTime >= capturedDuration {
          if capturedPhase < |Phases| - 1 {
            currentPhase := capturedPhase + 1;
            timeElapsed := 0;
          } else {
            CompleteSession(capturedSession);
            timeElapsed := newTime;
          }
        } else {
          timeElapsed := newTime;
        }
      }
    }
  }
}
