/** The realtime state machine (protocol_exec_rt_system and protocol_exec_rt_suspend in protocol.c)
    under every interleaving with the interrupts that raise its flags: the receive, limit and control
    pin interrupts, and the stepper interrupt, which reports the end of a motion.  Homing and parking
    motions are not modelled. */
module Realtime {

  datatype Mode = IDLE | ALARM | CHECK_MODE | CYCLE | HOLD | JOG | SAFETY_DOOR | SLEEP

  /** sys.suspend */
  datatype Suspend = Suspend(
    holdComplete: bool, restartRetract: bool, retractComplete: bool, initiateRestore: bool,
    restoreComplete: bool, doorAjar: bool, motionCancel: bool, jogCancel: bool)

  const RUNNING: Suspend := Suspend(false, false, false, false, false, false, false, false)

  /** sys_rt_exec_state, without the status report. */
  datatype Flags = Flags(
    cycleStart: bool, cycleStop: bool, feedHold: bool, reset: bool, safetyDoor: bool, motionCancel: bool, sleep: bool)

  const NONE: Flags := Flags(false, false, false, false, false, false, false)

  datatype Alarm = NO_ALARM | CRITICAL | OTHER

  /** Where the main program stands: outside protocol_exec_rt_system or before one of its parts, in
      its endless loop after a critical alarm, aborted, or restarting with the flags cleared; WAKE and
      JOG_WAKE: the state says that a motion runs, and st_wake_up is still to come. */
  datatype Point =
    | OUTSIDE | CALLED | CRITICAL_LOOP | SNAPSHOT | HOLDS | CLEAR_HOLDS | START | WAKE | CLEAR_START | STOP | CLEAR_STOP
    | ABORTED | RESTARTING | JOG_WAKE

  /** hold: STEP_CONTROL_EXECUTE_HOLD; seen: the copy of the flags a call works on; on: the stepper
      interrupt runs; queued: the planner has a block. */
  datatype State = State(
    mode: Mode, suspend: Suspend, hold: bool, softLimit: bool, spindleStop: bool, rt: Flags, alarm: Alarm,
    seen: Flags, at: Point, on: bool, queued: bool)

  const INIT: State :=
    State(IDLE, RUNNING, false, false, false, NONE, NO_ALARM, NONE, OUTSIDE, false, false)

  // ---- the parts of protocol_exec_rt_system --------------------------------------------------------

  function AlarmPart(s: State): State {
    if s.alarm == NO_ALARM then s.(at := SNAPSHOT)
    else if s.alarm == CRITICAL then s.(mode := ALARM, rt := s.rt.(reset := false), at := CRITICAL_LOOP)
    else s.(mode := ALARM, alarm := NO_ALARM, at := SNAPSHOT)
  }

  function SnapshotPart(s: State): State {
    if s.rt == NONE then s.(at := OUTSIDE)
    else if s.rt.reset then s.(seen := s.rt, at := ABORTED)
    else s.(seen := s.rt, at := HOLDS)
  }

  predicate AnyHold(f: Flags) {
    f.motionCancel || f.feedHold || f.safetyDoor || f.sleep
  }

  /** A motion in progress is told to decelerate, unless it is being cancelled already. */
  function Decelerate(s: State): State {
    if (s.mode == CYCLE || s.mode == JOG) && !(s.suspend.motionCancel || s.suspend.jogCancel) then
      s.(hold := true,
         suspend := if s.mode == JOG && !s.seen.sleep then s.suspend.(jogCancel := true) else s.suspend)
    else if s.mode == IDLE then s.(suspend := RUNNING.(holdComplete := true))
    else s
  }

  function CancelMotion(s: State): State {
    if s.seen.motionCancel && s.mode != JOG then s.(suspend := s.suspend.(motionCancel := true)) else s
  }

  function FeedHold(s: State): State {
    if s.seen.feedHold && s.mode != SAFETY_DOOR && s.mode != JOG && s.mode != SLEEP then s.(mode := HOLD) else s
  }

  /** The door opens again while power is being restored. */
  function Reopens(s: State): State {
    if s.mode == SAFETY_DOOR && s.suspend.initiateRestore then
      s.(suspend := s.suspend.(retractComplete := false, initiateRestore := false, restoreComplete := false,
                               restartRetract := true))
    else s
  }

  function EntersDoor(s: State): State {
    if s.mode != SLEEP then s.(mode := SAFETY_DOOR) else s
  }

  function DoorOpens(s: State): State {
    if !s.seen.safetyDoor then s
    else
      var t := if s.suspend.jogCancel then s else EntersDoor(Reopens(s));
      t.(suspend := t.suspend.(doorAjar := true))
  }

  function GoToSleep(s: State): State {
    if !s.seen.sleep then s
    else s.(mode := SLEEP,
            suspend := if s.mode == ALARM then s.suspend.(retractComplete := true, holdComplete := true) else s.suspend)
  }

  function HoldsPart(s: State): State {
    if !AnyHold(s.seen) then s.(at := START)
    else
      var t := if s.mode == ALARM || s.mode == CHECK_MODE then s
               else DoorOpens(FeedHold(CancelMotion(Decelerate(s))));
      GoToSleep(t).(at := CLEAR_HOLDS)
  }

  function ClearHoldsPart(s: State): State {
    s.(rt := s.rt.(motionCancel := false, feedHold := false, safetyDoor := false, sleep := false), at := START)
  }

  /** The safety door has closed and the operator asks to go on. */
  function LeaveDoor(s: State): State {
    if s.mode == SAFETY_DOOR && !s.suspend.doorAjar then
      if s.suspend.restoreComplete then s.(mode := IDLE)
      else if s.suspend.retractComplete then s.(suspend := s.suspend.(initiateRestore := true))
      else s
    else s
  }

  predicate MayStart(s: State) {
    s.mode == IDLE || (s.mode == HOLD && s.suspend.holdComplete)
  }

  /** With a block queued and no cancellation a motion begins. */
  predicate Startable(s: State) {
    MayStart(s) && !(s.mode == HOLD && s.spindleStop) && s.queued && !s.suspend.motionCancel
  }

  /** A cycle start takes effect. */
  function StartCycle(s: State): State {
    if s.mode == HOLD && s.spindleStop then s
    else s.(hold := false, suspend := RUNNING, mode := if s.queued && !s.suspend.motionCancel then CYCLE else IDLE)
  }

  function StartPart(s: State): State {
    if !s.seen.cycleStart then s.(at := STOP)
    else if AnyHold(s.seen.(sleep := false)) then s.(at := CLEAR_START)
    else
      var t := LeaveDoor(s);
      (if MayStart(t) then StartCycle(t) else t).(at := if Startable(t) then WAKE else CLEAR_START)
  }

  function WakePart(s: State): State {
    s.(on := true, at := if s.at == WAKE then CLEAR_START else OUTSIDE)
  }

  function ClearStartPart(s: State): State {
    s.(rt := s.rt.(cycleStart := false), at := STOP)
  }

  /** A cancelled jog has come to a stop: its buffers are flushed. */
  function FlushJog(s: State): State {
    if s.suspend.jogCancel then s.(hold := false, on := false, queued := false) else s
  }

  /** A motion is complete, or a cancelled one has come to a stop. */
  function MotionDone(s: State): State {
    if s.suspend.doorAjar then
      s.(suspend := s.suspend.(jogCancel := false, holdComplete := true), mode := SAFETY_DOOR)
    else s.(suspend := RUNNING, mode := IDLE)
  }

  /** The deceleration of a hold is complete. */
  function HoldDone(s: State): State {
    s.(suspend := if s.hold then s.suspend.(holdComplete := true) else s.suspend, hold := false)
  }

  predicate Holding(s: State) {
    (s.mode == HOLD || s.mode == SAFETY_DOOR || s.mode == SLEEP) && !s.softLimit && !s.suspend.jogCancel
  }

  /** The stepper interrupt has run out of segments. */
  function StopPart(s: State): State {
    if !s.seen.cycleStop then s.(at := OUTSIDE)
    else (if Holding(s) then HoldDone(s) else MotionDone(FlushJog(s))).(at := CLEAR_STOP)
  }

  function ClearStopPart(s: State): State {
    s.(rt := s.rt.(cycleStop := false), at := OUTSIDE)
  }

  // ---- interrupts and the rest of the main program ---------------------------------------------------

  /** mc_reset: the first reset stops the steppers if the state says that they may be moving. */
  function Reset(s: State): State {
    if s.rt.reset then s
    else
      var t := s.(rt := s.rt.(reset := true));
      if s.mode == CYCLE || s.mode == JOG || s.hold then t.(alarm := OTHER, on := false) else t
  }

  datatype Op =
    | Step                                      // the main program goes on by one part
    | Call                                      // it calls protocol_execute_realtime
    | StepperDone                               // the stepper interrupt finds no segment left
    | RaiseStart | RaiseHold | RaiseDoor | RaiseCancel
    | RaiseReset | HardLimit
    | Queue(more: bool) | SpindleStop(stop: bool)
    | Retract | DoorCloses | Restore            // the suspend manager
    | AskSleep | ToggleCheck | Unlock | JogStart | ProbeAlarm | SoftLimitHit | SoftLimitTrip

  /** Main program actions happen outside protocol_exec_rt_system, those of the suspend manager while
      suspended, the others while not. */
  predicate Enabled(s: State, op: Op) {
    match op
    case Step => s.at != OUTSIDE && (s.at == CRITICAL_LOOP ==> s.rt.reset)
    case Call => s.at == OUTSIDE
    case StepperDone => s.on
    case RaiseStart => true
    case RaiseHold => true
    case RaiseDoor => true
    case RaiseCancel => true
    case RaiseReset => true
    case HardLimit => s.mode != ALARM && s.alarm == NO_ALARM
    case Queue(more) => true
    case SpindleStop(stop) => true
    case Retract =>
      && s.at == OUTSIDE && s.suspend.holdComplete && (s.mode == SAFETY_DOOR || s.mode == SLEEP)
      && !s.suspend.retractComplete
    case DoorCloses => s.at == OUTSIDE && s.suspend.holdComplete && s.suspend.retractComplete && s.mode == SAFETY_DOOR
    case Restore =>
      && s.at == OUTSIDE && s.suspend.holdComplete && s.mode == SAFETY_DOOR && s.suspend.initiateRestore
      && !s.suspend.restartRetract
    case AskSleep => s.at == OUTSIDE && s.suspend == RUNNING && (s.mode == IDLE || s.mode == ALARM)
    case ToggleCheck => s.at == OUTSIDE && s.suspend == RUNNING && (s.mode == IDLE || s.mode == CHECK_MODE)
    case Unlock => s.at == OUTSIDE && s.suspend == RUNNING && s.mode == ALARM
    case JogStart => s.at == OUTSIDE && s.suspend == RUNNING && s.mode == IDLE && s.queued
    case ProbeAlarm => s.at == OUTSIDE && s.suspend == RUNNING && s.mode == IDLE && s.alarm == NO_ALARM
    case SoftLimitHit => s.at == OUTSIDE && s.suspend == RUNNING && (s.mode == IDLE || s.mode == CYCLE)
    case SoftLimitTrip => s.at == OUTSIDE && s.suspend == RUNNING && s.softLimit && s.mode == IDLE
  }

  function StepOn(s: State): State {
    match s.at
    case OUTSIDE => s
    case CALLED => AlarmPart(s)
    case CRITICAL_LOOP => s.(alarm := NO_ALARM, at := SNAPSHOT)
    case SNAPSHOT => SnapshotPart(s)
    case HOLDS => HoldsPart(s)
    case CLEAR_HOLDS => ClearHoldsPart(s)
    case START => StartPart(s)
    case WAKE => WakePart(s)
    case JOG_WAKE => WakePart(s)
    case CLEAR_START => ClearStartPart(s)
    case STOP => StopPart(s)
    case CLEAR_STOP => ClearStopPart(s)
    // main() clears sys and the flags first and resets the stepper later.
    case ABORTED =>
      INIT.(mode := s.mode, on := s.on, queued := s.queued, at := RESTARTING)
    case RESTARTING =>
      s.(on := false, queued := false, mode := if s.mode == ALARM || s.mode == SLEEP then ALARM else IDLE,
         at := OUTSIDE)
  }

  function Next(s: State, op: Op): State
    requires Enabled(s, op)
  {
    match op
    case Step => StepOn(s)
    case Call => s.(at := CALLED)
    case StepperDone => s.(on := false, rt := s.rt.(cycleStop := true))
    case RaiseStart => s.(rt := s.rt.(cycleStart := true))
    case RaiseHold => s.(rt := s.rt.(feedHold := true))
    case RaiseDoor => s.(rt := s.rt.(safetyDoor := true))
    case RaiseCancel => s.(rt := s.rt.(motionCancel := true))
    case RaiseReset => Reset(s)
    case HardLimit => Reset(s).(alarm := CRITICAL)
    case Queue(more) => s.(queued := more)
    case SpindleStop(stop) => s.(spindleStop := stop)
    case Retract => s.(suspend := s.suspend.(restartRetract := false, retractComplete := true))
    case DoorCloses => s.(suspend := s.suspend.(doorAjar := false))
    case Restore => s.(suspend := s.suspend.(restoreComplete := true), rt := s.rt.(cycleStart := true))
    case AskSleep => s.(rt := s.rt.(sleep := true))
    case ToggleCheck => if s.mode == CHECK_MODE then Reset(s) else s.(mode := CHECK_MODE)
    case Unlock => s.(mode := IDLE)
    case JogStart => s.(mode := JOG, at := JOG_WAKE)
    case ProbeAlarm => s.(alarm := OTHER, at := CALLED)
    case SoftLimitHit => s.(softLimit := true, rt := if s.mode == CYCLE then s.rt.(feedHold := true) else s.rt)
    case SoftLimitTrip => Reset(s).(alarm := CRITICAL, at := CALLED)
  }

  // ---- the invariant -------------------------------------------------------------------------------

  /** At rest: the stepper interrupt is off, and no end of motion is reported but the one that is just
      being dealt with. */
  predicate Quiet(s: State) {
    !s.on && (s.rt.cycleStop ==> s.at == CLEAR_STOP)
  }

  /** Before a part of a call that has seen no reset. */
  predicate InCall(s: State) {
    s.at in {HOLDS, CLEAR_HOLDS, START, WAKE, CLEAR_START, STOP, CLEAR_STOP}
  }

  predicate MotionOk(s: State) {
    && (s.rt.cycleStop ==> !s.on)
    && (s.mode == IDLE || s.suspend.holdComplete ==> Quiet(s))
    && (s.suspend.retractComplete || s.suspend.restoreComplete ==> s.suspend.holdComplete)
    && (s.on ==> s.mode == CYCLE || s.mode == JOG || s.hold || s.rt.reset || s.at == CRITICAL_LOOP)
    && (s.on && s.mode == CYCLE && s.suspend.motionCancel ==> s.hold)
    && (s.on && s.mode == JOG && s.suspend.jogCancel ==> s.hold)
    && (s.mode == CYCLE ==> !s.suspend.jogCancel)
    && (s.mode == JOG ==> !s.suspend.motionCancel)
  }

  /** An alarm comes with a reset, or from a probe at rest, and locks a machine at rest. */
  predicate AlarmOk(s: State) {
    && (s.alarm != NO_ALARM ==>
          || s.rt.reset
          || (s.at == CRITICAL_LOOP && s.alarm == CRITICAL)
          || (s.at == CALLED && Quiet(s) && s.mode == IDLE))
    && (s.mode == ALARM || s.mode == CHECK_MODE ==>
          Quiet(s) || s.at == CRITICAL_LOOP || s.at == ABORTED || (s.at == SNAPSHOT && s.rt.reset))
  }

  predicate CallOk(s: State) {
    && (InCall(s) && s.at != CLEAR_STOP && s.seen.cycleStop ==> s.rt.cycleStop)
    && (InCall(s) ==> !s.seen.reset)
    && (s.at == RESTARTING ==> !s.on && !s.rt.cycleStop)
    && (s.at == WAKE ==> Quiet(s) && s.mode == CYCLE && s.suspend == RUNNING)
    && (s.at == JOG_WAKE ==> Quiet(s) && s.mode == JOG && s.suspend == RUNNING)
  }

  predicate Inv(s: State) {
    MotionOk(s) && AlarmOk(s) && CallOk(s)
  }

  /** Restarting while the stepper interrupt still runs: the one step the invariant does not survive. */
  predicate Unsafe(s: State, op: Op) {
    op.Step? && s.at == ABORTED && s.on
  }

  lemma InitInv()
    ensures Inv(INIT)
  {
  }

  lemma AlarmInv(s: State)
    requires Inv(s) && s.at == CALLED
    ensures Inv(AlarmPart(s))
  {
    AlarmMotion(s);
    AlarmAlarm(s);
    AlarmCall(s);
    hide MotionOk, AlarmOk, CallOk;
  }

  lemma AlarmAlarm(s: State)
    requires MotionOk(s) && AlarmOk(s) && s.at == CALLED
    ensures AlarmOk(AlarmPart(s))
  {
  }

  lemma AlarmCall(s: State)
    requires CallOk(s) && s.at == CALLED
    ensures CallOk(AlarmPart(s))
  {
  }

  lemma AlarmMotion(s: State)
    requires MotionOk(s) && AlarmOk(s) && s.at == CALLED
    ensures MotionOk(AlarmPart(s))
  {
  }

  lemma SnapshotInv(s: State)
    requires Inv(s) && s.at == SNAPSHOT
    ensures Inv(SnapshotPart(s))
  {
    hide MotionOk, AlarmOk;
    assert MotionOk(SnapshotPart(s)) by { SnapshotMotion(s); }
    assert AlarmOk(SnapshotPart(s)) by { SnapshotAlarm(s); }
  }

  lemma SnapshotMotion(s: State)
    requires MotionOk(s) && s.at == SNAPSHOT
    ensures MotionOk(SnapshotPart(s))
  {
  }

  lemma SnapshotAlarm(s: State)
    requires AlarmOk(s) && s.at == SNAPSHOT
    ensures AlarmOk(SnapshotPart(s))
  {
  }

  /** A motion still running has been told to decelerate. */
  predicate Slowing(s: State) {
    s.on && (s.mode == CYCLE || s.mode == JOG) ==> s.hold
  }

  lemma DecelerateInv(s: State)
    requires Inv(s) && s.at == HOLDS
    ensures Inv(Decelerate(s)) && Slowing(Decelerate(s)) && Decelerate(s).at == HOLDS
  {
  }

  lemma CancelInv(s: State)
    requires Inv(s) && Slowing(s) && s.at == HOLDS
    ensures Inv(CancelMotion(s)) && Slowing(CancelMotion(s)) && CancelMotion(s).at == HOLDS
  {
  }

  lemma FeedHoldInv(s: State)
    requires Inv(s) && Slowing(s) && s.at == HOLDS && s.mode != ALARM && s.mode != CHECK_MODE
    ensures Inv(FeedHold(s)) && Slowing(FeedHold(s)) && FeedHold(s).at == HOLDS
  {
  }

  lemma ReopensInv(s: State)
    requires Inv(s) && Slowing(s) && s.at == HOLDS && s.mode != ALARM && s.mode != CHECK_MODE
    ensures Inv(Reopens(s)) && Slowing(Reopens(s)) && Reopens(s).at == HOLDS && Reopens(s).mode == s.mode
  {
  }

  lemma EntersDoorInv(s: State)
    requires Inv(s) && Slowing(s) && s.at == HOLDS && s.mode != ALARM && s.mode != CHECK_MODE
    ensures Inv(EntersDoor(s)) && Slowing(EntersDoor(s)) && EntersDoor(s).at == HOLDS
  {
  }

  lemma AjarInv(s: State)
    requires Inv(s) && Slowing(s) && s.at == HOLDS
    ensures Inv(s.(suspend := s.suspend.(doorAjar := true))) && Slowing(s.(suspend := s.suspend.(doorAjar := true)))
  {
  }

  lemma DoorInv(s: State)
    requires Inv(s) && Slowing(s) && s.at == HOLDS && s.mode != ALARM && s.mode != CHECK_MODE
    ensures Inv(DoorOpens(s)) && Slowing(DoorOpens(s)) && DoorOpens(s).at == HOLDS
  {
    hide Inv, Slowing, Reopens, EntersDoor;
    ReopensInv(s);
    EntersDoorInv(Reopens(s));
    AjarInv(s); AjarInv(EntersDoor(Reopens(s)));
  }

  lemma SleepInv(s: State)
    requires Inv(s) && s.at == HOLDS && (Slowing(s) || s.mode == ALARM || s.mode == CHECK_MODE)
    ensures Inv(GoToSleep(s)) && GoToSleep(s).at == HOLDS
  {
  }

  lemma HoldsInv(s: State)
    requires Inv(s) && s.at == HOLDS
    ensures Inv(HoldsPart(s))
  {
    hide Inv, Slowing, Decelerate, CancelMotion, FeedHold, DoorOpens, GoToSleep;
    if !AnyHold(s.seen) {
      PointOnly(s, START);
    } else {
      if s.mode == ALARM || s.mode == CHECK_MODE {
        SleepInv(s);
        PointOnly(GoToSleep(s), CLEAR_HOLDS);
      } else {
        var a := Decelerate(s); DecelerateInv(s); SameKind(s);
        var b := CancelMotion(a); CancelInv(a); SameKindCancel(a);
        var c := FeedHold(b); FeedHoldInv(b); SameKindHold(b);
        var d := DoorOpens(c); DoorInv(c);
        SleepInv(d);
        PointOnly(GoToSleep(d), CLEAR_HOLDS);
      }
    }
  }

  lemma SameKind(s: State)
    ensures Decelerate(s).mode == s.mode
  {
  }

  lemma SameKindCancel(s: State)
    ensures CancelMotion(s).mode == s.mode
  {
  }

  lemma SameKindHold(s: State)
    ensures FeedHold(s).mode == s.mode || FeedHold(s).mode == HOLD
  {
  }

  lemma PointOnly(s: State, at: Point)
    requires Inv(s) && s.at == HOLDS && (at == START || at == CLEAR_HOLDS)
    ensures Inv(s.(at := at))
  {
  }

  lemma LeaveDoorInv(s: State)
    requires Inv(s) && s.at == START
    ensures Inv(LeaveDoor(s)) && LeaveDoor(s).at == START && LeaveDoor(s).seen == s.seen
  {
    hide MotionOk;
    LeaveDoorMotion(s);
  }

  lemma LeaveDoorMotion(s: State)
    requires MotionOk(s) && s.at == START
    ensures MotionOk(LeaveDoor(s))
  {
  }

  /** A motion begins only at rest, with no end of an earlier one pending. */
  lemma StartCycleInv(s: State)
    requires Inv(s) && s.at == START && MayStart(s)
    ensures Quiet(s) && !s.rt.cycleStop && !s.seen.cycleStop
    ensures Inv(StartCycle(s).(at := if Startable(s) then WAKE else CLEAR_START))
  {
  }

  lemma StartInv(s: State)
    requires Inv(s) && s.at == START
    ensures Inv(StartPart(s))
  {
    hide Inv, StartCycle, LeaveDoor, Startable, AnyHold;
    LeaveDoorInv(s);
    var t := LeaveDoor(s);
    if MayStart(t) { StartCycleInv(t); } else { NotStartable(t); }
    AfterStart(s); AfterStart(t);
  }

  lemma NotStartable(s: State)
    requires !MayStart(s)
    ensures !Startable(s)
  {
  }

  lemma AfterStart(s: State)
    requires Inv(s) && s.at == START
    ensures Inv(s.(at := STOP)) && Inv(s.(at := CLEAR_START))
  {
  }

  lemma StopInv(s: State)
    requires Inv(s) && s.at == STOP
    ensures Inv(StopPart(s))
  {
    hide MotionOk, AlarmOk, StopPart;
    StopMotion(s);
    StopAlarm(s);
  }

  lemma StopMotion(s: State)
    requires Inv(s) && s.at == STOP
    ensures MotionOk(StopPart(s)) && CallOk(StopPart(s))
  {
    hide AlarmOk;
    if s.seen.cycleStop {
      assert !s.on && s.rt.cycleStop;
      if Holding(s) { StopsHold(s); } else { StopsMotion(s); }
    }
  }

  lemma StopsHold(s: State)
    requires MotionOk(s) && !s.on
    ensures MotionOk(HoldDone(s).(at := CLEAR_STOP))
  {
  }

  lemma StopsMotion(s: State)
    requires MotionOk(s) && !s.on
    ensures MotionOk(MotionDone(FlushJog(s)).(at := CLEAR_STOP))
  {
    FlushMotion(s);
    DoneMotion(FlushJog(s));
    hide MotionOk, MotionDone, FlushJog;
  }

  lemma FlushMotion(s: State)
    requires MotionOk(s) && !s.on
    ensures MotionOk(FlushJog(s)) && !FlushJog(s).on
  {
  }

  lemma DoneMotion(s: State)
    requires MotionOk(s) && !s.on
    ensures MotionOk(MotionDone(s).(at := CLEAR_STOP))
  {
  }

  lemma StopAlarm(s: State)
    requires Inv(s) && s.at == STOP
    ensures AlarmOk(StopPart(s))
  {
    hide HoldDone, MotionDone, FlushJog, Holding, MotionOk;
    FlushKeeps(s);
    DoneKeeps(s); DoneKeeps(FlushJog(s));
    if s.seen.cycleStop { StoppedQuiet(s); }
  }

  lemma StoppedQuiet(s: State)
    requires MotionOk(s) && CallOk(s) && s.at == STOP && s.seen.cycleStop
    ensures !s.on
  {
  }

  lemma ClearsInv(s: State)
    requires Inv(s) && s.at in {CLEAR_HOLDS, CLEAR_START, CLEAR_STOP}
    ensures Inv(StepOn(s))
  {
    hide AlarmPart, SnapshotPart, HoldsPart, StartPart, StopPart, WakePart;
  }

  lemma WakesInv(s: State)
    requires Inv(s) && s.at in {WAKE, JOG_WAKE}
    ensures Inv(StepOn(s))
  {
    hide AlarmPart, SnapshotPart, HoldsPart, StartPart, StopPart, ClearHoldsPart, ClearStartPart, ClearStopPart;
  }

  lemma LoopInv(s: State)
    requires Inv(s) && s.at == CRITICAL_LOOP && s.rt.reset
    ensures Inv(StepOn(s))
  {
    hide AlarmPart, SnapshotPart, HoldsPart, StartPart, StopPart, WakePart, ClearHoldsPart, ClearStartPart,
         ClearStopPart;
  }

  lemma RestartsInv(s: State)
    requires Inv(s) && s.at in {ABORTED, RESTARTING} && !Unsafe(s, Step)
    ensures Inv(StepOn(s))
  {
    hide AlarmPart, SnapshotPart, HoldsPart, StartPart, StopPart, WakePart, ClearHoldsPart, ClearStartPart,
         ClearStopPart;
  }

  lemma OtherPartsInv(s: State)
    requires Inv(s) && Enabled(s, Step) && !Unsafe(s, Step)
    requires s.at in {CRITICAL_LOOP, CLEAR_HOLDS, WAKE, JOG_WAKE, CLEAR_START, CLEAR_STOP, ABORTED, RESTARTING}
    ensures Inv(StepOn(s))
  {
    hide Inv, StepOn, Unsafe;
    if s.at in {CLEAR_HOLDS, CLEAR_START, CLEAR_STOP} { ClearsInv(s); }
    else if s.at in {WAKE, JOG_WAKE} { WakesInv(s); }
    else if s.at == CRITICAL_LOOP { LoopInv(s); }
    else { RestartsInv(s); }
  }

  lemma StepInv(s: State)
    requires Inv(s) && Enabled(s, Step) && !Unsafe(s, Step)
    ensures Inv(StepOn(s))
  {
    hide AlarmPart, SnapshotPart, HoldsPart, StartPart, StopPart, Inv;
    match s.at
    case CALLED => AlarmInv(s);
    case SNAPSHOT => SnapshotInv(s);
    case HOLDS => HoldsInv(s);
    case START => StartInv(s);
    case STOP => StopInv(s);
    case _ => OtherPartsInv(s);
  }

  lemma ResetInv(s: State)
    requires Inv(s)
    ensures Inv(Reset(s)) && Inv(Reset(s).(alarm := CRITICAL))
    ensures Reset(s).rt.reset && Reset(s).at == s.at && Reset(s).mode == s.mode
    ensures !s.rt.reset ==> Reset(s).on ==> s.at == CRITICAL_LOOP
  {
    ResetMotion(s);
    ResetAlarm(s);
    ResetCall(s);
    hide MotionOk, AlarmOk, CallOk;
  }

  lemma ResetMotion(s: State)
    requires MotionOk(s)
    ensures MotionOk(Reset(s)) && MotionOk(Reset(s).(alarm := CRITICAL)) && Reset(s).rt.reset
    ensures !s.rt.reset ==> Reset(s).on ==> s.at == CRITICAL_LOOP
  {
    ResetsMotion(s);
    AlarmApart(Reset(s));
    hide MotionOk, Reset;
  }

  lemma ResetsMotion(s: State)
    requires MotionOk(s)
    ensures MotionOk(Reset(s)) && Reset(s).rt.reset
    ensures !s.rt.reset ==> Reset(s).on ==> s.at == CRITICAL_LOOP
  {
    if !s.rt.reset {
      var t := s.(rt := s.rt.(reset := true));
      FlagMotion(s);
      HaltMotion(t);
      assert s.on ==> s.mode == CYCLE || s.mode == JOG || s.hold || s.at == CRITICAL_LOOP;
    }
    hide MotionOk;
  }

  lemma FlagMotion(s: State)
    requires MotionOk(s)
    ensures MotionOk(s.(rt := s.rt.(reset := true)))
  {
  }

  lemma HaltMotion(s: State)
    requires MotionOk(s)
    ensures MotionOk(s.(alarm := OTHER, on := false))
  {
  }

  lemma AlarmApart(s: State)
    ensures MotionOk(s.(alarm := CRITICAL)) == MotionOk(s)
  {
  }

  lemma ResetAlarm(s: State)
    requires AlarmOk(s)
    ensures AlarmOk(Reset(s)) && AlarmOk(Reset(s).(alarm := CRITICAL))
  {
  }

  lemma ResetCall(s: State)
    requires CallOk(s)
    ensures CallOk(Reset(s)) && CallOk(Reset(s).(alarm := CRITICAL))
  {
  }

  predicate Raises(op: Op) {
    || op.StepperDone? || op.RaiseStart? || op.RaiseHold? || op.RaiseDoor? || op.RaiseCancel? || op.Queue?
    || op.SpindleStop?
  }

  lemma RaiseInv(s: State, op: Op)
    requires Inv(s) && Enabled(s, op) && Raises(op)
    ensures Inv(Next(s, op))
  {
    hide Reset, StepOn;
  }

  lemma MainInv(s: State, op: Op)
    requires Inv(s) && Enabled(s, op) && !Raises(op) && !op.Step?
    requires !op.RaiseReset? && !op.HardLimit? && !op.ToggleCheck? && !op.SoftLimitTrip?
    ensures Inv(Next(s, op))
  {
    hide Reset, StepOn;
  }

  lemma ResetsInv(s: State, op: Op)
    requires Inv(s) && Enabled(s, op)
    requires op.RaiseReset? || op.HardLimit? || op.ToggleCheck? || op.SoftLimitTrip?
    ensures Inv(Next(s, op))
  {
    ResetInv(s);
    hide Reset, StepOn, Inv, Enabled;
    match op
    case ToggleCheck => if s.mode != CHECK_MODE { CheckInv(s); }
    case SoftLimitTrip => TripInv(s, Reset(s));
    case _ =>
  }

  lemma CheckInv(s: State)
    requires Inv(s) && Enabled(s, ToggleCheck) && s.mode != CHECK_MODE
    ensures Inv(s.(mode := CHECK_MODE))
  {
    hide MotionOk;
    CheckMotion(s);
  }

  lemma TripInv(s: State, t: State)
    requires Enabled(s, SoftLimitTrip) && Inv(t.(alarm := CRITICAL)) && t.rt.reset && t.at == s.at
    requires t.mode == s.mode
    ensures Inv(t.(alarm := CRITICAL, at := CALLED))
  {
    hide MotionOk;
    PointOut(t.(alarm := CRITICAL));
  }

  lemma CheckMotion(s: State)
    requires MotionOk(s) && s.mode == IDLE
    ensures MotionOk(s.(mode := CHECK_MODE)) && Quiet(s)
  {
  }

  lemma PointOut(s: State)
    requires MotionOk(s) && s.at == OUTSIDE
    ensures MotionOk(s.(at := CALLED))
  {
  }

  lemma NextInv(s: State, op: Op)
    requires Inv(s) && Enabled(s, op) && !Unsafe(s, op)
    ensures Inv(Next(s, op))
  {
    hide Inv, Enabled, StepOn, Reset;
    if op.Step? { StepInv(s); }
    else if Raises(op) { RaiseInv(s, op); }
    else if op.RaiseReset? || op.HardLimit? || op.ToggleCheck? || op.SoftLimitTrip? { ResetsInv(s, op); }
    else { MainInv(s, op); }
  }

  // ---- whole runs ----------------------------------------------------------------------------------

  predicate Can(s: State, ops: seq<Op>)
    decreases |ops|
  {
    ops == [] || (Enabled(s, ops[0]) && Can(Next(s, ops[0]), ops[1..]))
  }

  function Exec(s: State, ops: seq<Op>): State
    requires Can(s, ops)
    decreases |ops|
  {
    if ops == [] then s else Exec(Next(s, ops[0]), ops[1..])
  }

  /** A run in which no restart begins while the stepper interrupt is on. */
  predicate Safe(s: State, ops: seq<Op>)
    decreases |ops|
  {
    ops == [] || (Enabled(s, ops[0]) && !Unsafe(s, ops[0]) && Safe(Next(s, ops[0]), ops[1..]))
  }

  lemma {:induction false} SafeInv(s: State, ops: seq<Op>)
    requires Inv(s) && Safe(s, ops)
    ensures Can(s, ops) && Inv(Exec(s, ops))
    decreases |ops|
  {
    hide Inv, Next, Enabled, Unsafe;
    if ops != [] {
      NextInv(s, ops[0]);
      SafeInv(Next(s, ops[0]), ops[1..]);
    }
  }

  /** Idle, or with a hold complete, the machine is at rest: the stepper interrupt is off and no end
      of an earlier motion is still pending, for every interleaving. */
  predicate AtRest(s: State) {
    s.mode == IDLE || s.suspend.holdComplete ==> Quiet(s)
  }

  lemma IdleIsAtRest(ops: seq<Op>)
    requires Safe(INIT, ops)
    ensures Can(INIT, ops) && AtRest(Exec(INIT, ops))
  {
    InitInv();
    SafeInv(INIT, ops);
    hide Exec, Can, Safe;
  }

  /** Steps by which a motion begins. */
  predicate Begins(s: State, op: Op) {
    || op.JogStart?
    || (&& op.Step? && s.at == START && s.seen.cycleStart && !AnyHold(s.seen.(sleep := false))
        && Startable(LeaveDoor(s)))
  }

  /** Steps that wake the steppers up. */
  predicate WakesUp(s: State, op: Op) {
    op.Step? && (s.at == WAKE || s.at == JOG_WAKE)
  }

  lemma BeginsFromRest(s: State)
    requires Inv(s) && s.at == START
    ensures Begins(s, Step) ==> !s.on && !s.rt.cycleStop && !s.seen.cycleStop
    ensures Begins(s, Step) <==> StartPart(s).at == WAKE
    ensures StartPart(s).on == s.on
  {
    hide Inv, LeaveDoor, StartCycle, MayStart, Startable, AnyHold;
    var t := LeaveDoor(s);
    LeaveDoorInv(s);
    LeaveDoorKeeps(s);
    StartCycleKeeps(t);
    if MayStart(t) { StartCycleInv(t); } else { NotStartable(t); }
  }

  lemma LeaveDoorKeeps(s: State)
    ensures LeaveDoor(s).on == s.on && LeaveDoor(s).rt == s.rt && LeaveDoor(s).seen == s.seen
  {
  }

  lemma StartCycleKeeps(s: State)
    ensures StartCycle(s).on == s.on && StartCycle(s).rt == s.rt
  {
  }

  /** No other part wakes the steppers up or leads to the point before that. */
  lemma OtherParts(s: State)
    requires s.at != START && s.at != WAKE && s.at != JOG_WAKE
    ensures !s.on ==> !StepOn(s).on
    ensures StepOn(s).at != WAKE && StepOn(s).at != JOG_WAKE
  {
    hide HoldsPart, StartPart, StopPart, AlarmPart, SnapshotPart, WakePart;
    match s.at
    case CALLED => EarlyKeeps(s);
    case SNAPSHOT => EarlyKeeps(s);
    case HOLDS => HoldsDontWake(s);
    case STOP => StopKeeps(s);
    case _ =>
  }

  lemma EarlyKeeps(s: State)
    ensures AlarmPart(s).on == s.on && AlarmPart(s).at in {SNAPSHOT, CRITICAL_LOOP}
    ensures SnapshotPart(s).on == s.on && SnapshotPart(s).at in {OUTSIDE, ABORTED, HOLDS}
  {
  }

  lemma HoldsDontWake(s: State)
    ensures HoldsPart(s).on == s.on && HoldsPart(s).rt == s.rt && HoldsPart(s).at in {START, CLEAR_HOLDS}
  {
    hide Decelerate, CancelMotion, FeedHold, DoorOpens, GoToSleep;
    var a := Decelerate(s);
    var b := CancelMotion(a);
    var c := FeedHold(b);
    KeepOn(s); KeepOn(a); KeepOn(b); KeepOn(c); KeepOn(DoorOpens(c));
  }

  predicate SameRun(s: State, t: State) {
    t.on == s.on && t.rt == s.rt
  }

  /** The hold commands never touch the stepper interrupt or the flags. */
  lemma KeepOn(s: State)
    ensures SameRun(s, Decelerate(s)) && SameRun(s, CancelMotion(s)) && SameRun(s, FeedHold(s))
    ensures SameRun(s, DoorOpens(s)) && SameRun(s, GoToSleep(s))
  {
    DoorKeeps(s);
    hide DoorOpens;
  }

  lemma DoorKeeps(s: State)
    ensures SameRun(s, DoorOpens(s))
  {
  }

  /** A motion begins only at rest: a cycle start never resumes during a deceleration, and the end of
      an earlier motion is never taken for that of the new one, up to the moment the steppers wake up,
      which nothing else makes them do. */
  lemma WakesUpAtRest(ops: seq<Op>, op: Op)
    requires Safe(INIT, ops) && Can(INIT, ops) && Enabled(Exec(INIT, ops), op)
    ensures var s := Exec(INIT, ops);
            && (Begins(s, op) || WakesUp(s, op) ==>
                  !s.on && !s.rt.cycleStop && (op.Step? && s.at != JOG_WAKE ==> !s.seen.cycleStop))
            && (Begins(s, op) <==> Next(s, op).at in {WAKE, JOG_WAKE} && Next(s, op).at != s.at)
            && (WakesUp(s, op) <==> !s.on && Next(s, op).on)
  {
    InitInv();
    SafeInv(INIT, ops);
    var s := Exec(INIT, ops);
    hide Exec, Can, Safe, StepOn, StartPart, Begins;
    if op.Step? {
      if s.at == START {
        BeginsFromRest(s); StartIsStep(s);
        StartPoint(s);
      } else {
        NotStart(s);
        if s.at == WAKE || s.at == JOG_WAKE { Wakes(s); } else { OtherParts(s); }
      }
    } else {
      OthersWake(s, op);
    }
  }

  lemma StartIsStep(s: State)
    requires s.at == START
    ensures StepOn(s) == StartPart(s)
  {
    hide StartPart;
  }

  lemma StartPoint(s: State)
    ensures StartPart(s).at in {STOP, WAKE, CLEAR_START}
  {
    hide LeaveDoor, StartCycle, MayStart, Startable;
  }

  lemma NotStart(s: State)
    requires s.at != START
    ensures !Begins(s, Step)
  {
  }

  lemma Wakes(s: State)
    requires Inv(s) && (s.at == WAKE || s.at == JOG_WAKE)
    ensures !s.on && !s.rt.cycleStop && (s.at == WAKE ==> !s.seen.cycleStop)
    ensures StepOn(s).on && StepOn(s).at != WAKE && StepOn(s).at != JOG_WAKE
  {
  }

  lemma OthersWake(s: State, op: Op)
    requires Inv(s) && Enabled(s, op) && !op.Step?
    ensures Begins(s, op) <==> op.JogStart?
    ensures op.JogStart? ==> !s.on && !s.rt.cycleStop && Next(s, op).at == JOG_WAKE && s.at != JOG_WAKE
    ensures Next(s, op).at in {WAKE, JOG_WAKE} && Next(s, op).at != s.at ==> op.JogStart?
    ensures Next(s, op).on ==> s.on
  {
  }

  /** A reset, unless one is pending already, turns the steppers off, whatever was going on, except
      in the endless loop of a critical alarm. */
  lemma ResetStops(ops: seq<Op>)
    requires Safe(INIT, ops) && Can(INIT, ops)
    ensures var s := Exec(INIT, ops); !s.rt.reset && s.at != CRITICAL_LOOP ==> !Reset(s).on && Reset(s).rt.reset
  {
    InitInv();
    SafeInv(INIT, ops);
    var s := Exec(INIT, ops);
    hide Exec, Can, Safe;
    ResetInv(s);
  }

  /** Restarting is safe exactly when the stepper interrupt is off: main() clears the flags first and
      stops the steppers later, so an interrupt in between leaves the end of a motion pending that the
      next cycle will take for its own. */
  lemma RestartSafeIffOff(s: State)
    requires Inv(s) && s.at == ABORTED
    ensures !s.on <==> forall ops | Safe(StepOn(s), ops) :: Can(StepOn(s), ops) && AtRest(Exec(StepOn(s), ops))
  {
    if s.on { StaleStop(s); } else { OtherPartsInv(s); }
    hide Next, Inv, AtRest, Safe, Can, Exec;
    if !s.on {
      var t := StepOn(s);
      forall ops | Safe(t, ops) ensures Can(t, ops) && AtRest(Exec(t, ops)) {
        SafeInv(t, ops);
        InvAtRest(Exec(t, ops));
      }
    }
  }

  lemma InvAtRest(s: State)
    requires Inv(s)
    ensures AtRest(s)
  {
  }

  /** The stepper interrupt ends its motion between the two halves of a restart. */
  lemma StaleStop(s: State)
    requires s.at == ABORTED && s.on
    ensures exists ops :: Safe(StepOn(s), ops) && Can(StepOn(s), ops) && !AtRest(Exec(StepOn(s), ops))
  {
    var t := StepOn(s);
    StopsBetween(s);
    var v := Next(Next(t, StepperDone), Step);
    hide StepOn, Next, Enabled, Unsafe, AtRest;
    if v.mode == IDLE {
      Run2(t, StepperDone, Step);
      assert !AtRest(v);
    } else {
      Run3(t, StepperDone, Step, Unlock);
      assert !AtRest(Next(v, Unlock));
    }
  }

  lemma StopsBetween(s: State)
    requires s.at == ABORTED && s.on
    ensures var t := StepOn(s);
            && Enabled(t, StepperDone) && !Unsafe(t, StepperDone)
            && var u := Next(t, StepperDone);
               && Enabled(u, Step) && !Unsafe(u, Step)
               && var v := Next(u, Step);
                  && (v.mode == IDLE ==> !AtRest(v))
                  && (v.mode != IDLE ==> Enabled(v, Unlock) && !Unsafe(v, Unlock) && !AtRest(Next(v, Unlock)))
  {
  }

  lemma Run2(s: State, a: Op, b: Op)
    requires Enabled(s, a) && !Unsafe(s, a)
    requires var t := Next(s, a); Enabled(t, b) && !Unsafe(t, b)
    ensures Safe(s, [a, b]) && Can(s, [a, b]) && Exec(s, [a, b]) == Next(Next(s, a), b)
  {
    hide Next, Enabled, Unsafe;
    var t := Next(s, a);
    var u := Next(t, b);
    assert [a, b][1..] == [b] && [b][1..] == [];
    assert Safe(u, []) && Can(u, []) && Exec(u, []) == u;
    assert Safe(t, [b]) && Can(t, [b]) && Exec(t, [b]) == u;
  }

  lemma Run3(s: State, a: Op, b: Op, c: Op)
    requires Enabled(s, a) && !Unsafe(s, a)
    requires var t := Next(s, a); Enabled(t, b) && !Unsafe(t, b)
    requires var t := Next(Next(s, a), b); Enabled(t, c) && !Unsafe(t, c)
    ensures Safe(s, [a, b, c]) && Can(s, [a, b, c]) && Exec(s, [a, b, c]) == Next(Next(Next(s, a), b), c)
  {
    hide Next, Enabled, Unsafe;
    Run2(Next(s, a), b, c);
    assert [a, b, c][1..] == [b, c];
  }

  /** The steppers run, woken up while a reset was pending. */
  function Late(s: State, ops: seq<Op>, late: bool): bool
    requires Can(s, ops)
    decreases |ops|
  {
    if ops == [] then late
    else
      var t := Next(s, ops[0]);
      Late(t, ops[1..], t.on && (late || (WakesUp(s, ops[0]) && s.rt.reset)))
  }

  /** Unless they were woken up late, running steppers mean that no reset is pending. */
  predicate Timely(s: State, late: bool) {
    && (late ==> s.on)
    && (s.on && !late ==> !s.rt.reset && s.at != CRITICAL_LOOP && s.at != ABORTED)
  }

  lemma TimelyParts(s: State, late: bool)
    requires Inv(s) && Timely(s, late) && Enabled(s, Step) && !Unsafe(s, Step)
    ensures var t := StepOn(s); Timely(t, t.on && (late || (WakesUp(s, Step) && s.rt.reset)))
  {
    hide HoldsPart, StartPart, StopPart, Inv;
    if s.at == HOLDS { HoldsDontWake(s); }
    else if s.at == START { StartKeeps(s); StartPoint(s); }
    else if s.at == STOP { StopKeeps(s); }
    else { TimelyOtherParts(s, late); }
  }

  lemma TimelyOtherParts(s: State, late: bool)
    requires Inv(s) && Timely(s, late) && Enabled(s, Step) && !Unsafe(s, Step)
    requires s.at != HOLDS && s.at != START && s.at != STOP
    ensures var t := StepOn(s); Timely(t, t.on && (late || (WakesUp(s, Step) && s.rt.reset)))
  {
    hide HoldsPart, StartPart, StopPart, MotionOk, CallOk;
    if s.at == WAKE || s.at == JOG_WAKE { Wakes(s); }
  }

  lemma StartKeeps(s: State)
    ensures StartPart(s).rt == s.rt && StartPart(s).on == s.on
  {
    hide LeaveDoor, StartCycle, MayStart, Startable, AnyHold;
    LeaveDoorKeeps(s);
    StartCycleKeeps(LeaveDoor(s));
  }

  lemma StopKeeps(s: State)
    ensures StopPart(s).rt == s.rt && (StopPart(s).on ==> s.on) && StopPart(s).at in {OUTSIDE, CLEAR_STOP}
  {
    hide HoldDone, MotionDone, FlushJog, Holding;
    FlushKeeps(s);
    DoneKeeps(s); DoneKeeps(FlushJog(s));
  }

  predicate SameFlags(s: State, t: State) {
    t.rt == s.rt && t.alarm == s.alarm && t.at == s.at && (t.on ==> s.on)
  }

  lemma FlushKeeps(s: State)
    ensures SameFlags(s, FlushJog(s))
  {
  }

  lemma DoneKeeps(s: State)
    ensures SameFlags(s, MotionDone(s)) && (MotionDone(s).mode == IDLE || MotionDone(s).mode == SAFETY_DOOR)
    ensures SameFlags(s, HoldDone(s)) && HoldDone(s).mode == s.mode
  {
  }

  lemma TimelyResets(s: State, late: bool)
    requires Inv(s) && Timely(s, late)
    ensures Timely(Reset(s), Reset(s).on && late) && Reset(s).at == s.at
  {
    ResetInv(s);
  }

  lemma TimelyOthers(s: State, op: Op, late: bool)
    requires Inv(s) && Timely(s, late) && Enabled(s, op) && !op.Step?
    ensures var t := Next(s, op); Timely(t, t.on && late)
  {
    hide StepOn, Inv, Enabled, Reset;
    TimelyResets(s, late);
    if op.RaiseReset? || op.HardLimit? || op.ToggleCheck? || op.SoftLimitTrip? {
    } else {
      OthersKeep(s, op);
      hide Next;
    }
  }

  /** The other operations neither switch the steppers on nor raise a reset. */
  lemma OthersKeep(s: State, op: Op)
    requires !op.Step? && !op.RaiseReset? && !op.HardLimit? && !op.ToggleCheck? && !op.SoftLimitTrip? && Enabled(s, op)
    ensures var t := Next(s, op);
            && (t.on ==> s.on) && t.rt.reset == s.rt.reset
            && (t.at == s.at || t.at == CALLED || t.at == JOG_WAKE)
  {
    hide StepOn, Reset;
  }

  lemma {:induction false} TimelyRun(s: State, ops: seq<Op>, late: bool)
    requires Inv(s) && Timely(s, late) && Safe(s, ops)
    ensures Can(s, ops) && Timely(Exec(s, ops), Late(s, ops, late))
    decreases |ops|
  {
    hide Inv, Next, Enabled, Unsafe, Timely;
    if ops != [] {
      var t := Next(s, ops[0]);
      NextInv(s, ops[0]);
      if ops[0].Step? { TimelyParts(s, late); StepIsNext(s); } else { TimelyOthers(s, ops[0], late); }
      TimelyRun(t, ops[1..], t.on && (late || (WakesUp(s, ops[0]) && s.rt.reset)));
    }
  }

  lemma StepIsNext(s: State)
    requires Enabled(s, Step)
    ensures Next(s, Step) == StepOn(s)
  {
    hide StepOn;
  }

  /** At an abort the steppers still run if and only if they were woken up with the reset already
      pending: whatever else happens in between, only a late wake-up makes a restart unsafe. */
  lemma RunsAtAbortIffLate(ops: seq<Op>)
    requires Safe(INIT, ops)
    ensures Can(INIT, ops)
    ensures var s := Exec(INIT, ops); s.at == ABORTED ==> (s.on <==> Late(INIT, ops, false))
  {
    InitInv();
    TimelyRun(INIT, ops, false);
    hide Exec, Can, Safe, Late;
  }

  lemma {:induction false} ThenSafe(s: State, a: seq<Op>, b: seq<Op>)
    requires Safe(s, a) && Can(s, a) && Safe(Exec(s, a), b) && Can(Exec(s, a), b)
    ensures Safe(s, a + b) && Can(s, a + b) && Exec(s, a + b) == Exec(Exec(s, a), b)
    decreases |a|
  {
    hide Next, Enabled, Unsafe;
    if a == [] {
      assert a + b == b;
    } else {
      ThenSafe(Next(s, a[0]), a[1..], b);
      assert (a + b)[1..] == a[1..] + b;
    }
  }

  lemma ThenCall(s: State, a: seq<Op>, b: seq<Op>, c: seq<Op>)
    requires Safe(s, a) && Can(s, a) && Safe(Exec(s, a), b) && Can(Exec(s, a), b)
    requires var t := Exec(Exec(s, a), b); Safe(t, c) && Can(t, c)
    ensures Safe(s, a + b + c) && Can(s, a + b + c) && Exec(s, a + b + c) == Exec(Exec(Exec(s, a), b), c)
  {
    hide Safe, Can, Exec;
    ThenSafe(s, a, b);
    ThenSafe(s, a + b, c);
  }

  const CALLS: seq<Op> := [Queue(true), RaiseStart, Call] + [Step, Step, Step]
  const CALLS_AGAIN: seq<Op> := [Step, Step, Call] + [Step, Step]

  /** A reset between the copying of the flags and the cycle start. */
  const BEFORE_START: seq<Op> := CALLS + [RaiseReset, Step, Step] + CALLS_AGAIN

  /** A reset between the change of state and the wake-up. */
  const BEFORE_WAKE: seq<Op> := CALLS + [Step, RaiseReset, Step] + CALLS_AGAIN

  const ASKED: Flags := NONE.(cycleStart := true)
  const AT_START: State := INIT.(queued := true, rt := ASKED, seen := ASKED, at := START)

  lemma Calling()
    ensures Safe(INIT, CALLS) && Can(INIT, CALLS) && Exec(INIT, CALLS) == AT_START
  {
    hide Safe, Can, Exec;
    Run3(INIT, Queue(true), RaiseStart, Call);
    Run3(INIT.(queued := true, rt := ASKED, at := CALLED), Step, Step, Step);
    ThenSafe(INIT, [Queue(true), RaiseStart, Call], [Step, Step, Step]);
  }

  lemma CallingAgain(s: State)
    requires s.at == CLEAR_START && s.on && s.rt.reset && !s.seen.cycleStop && s.alarm != CRITICAL
    ensures Safe(s, CALLS_AGAIN) && Can(s, CALLS_AGAIN)
    ensures var t := Exec(s, CALLS_AGAIN);
            t.at == ABORTED && t.on && t.mode == if s.alarm == NO_ALARM then s.mode else ALARM
  {
    hide Safe, Can, Exec;
    Run3(s, Step, Step, Call);
    Run2(s.(rt := s.rt.(cycleStart := false), at := CALLED), Step, Step);
    ThenSafe(s, [Step, Step, Call], [Step, Step]);
  }

  /** Both lead from a fresh start to an abort with the steppers running. */
  lemma LateResetRestartsRunning()
    ensures Safe(INIT, BEFORE_START) && Can(INIT, BEFORE_START)
    ensures var s := Exec(INIT, BEFORE_START); s.at == ABORTED && s.on && s.mode == CYCLE && Unsafe(s, Step)
    ensures Safe(INIT, BEFORE_WAKE) && Can(INIT, BEFORE_WAKE)
    ensures var s := Exec(INIT, BEFORE_WAKE); s.at == ABORTED && s.on && s.mode == ALARM && Unsafe(s, Step)
  {
    hide Safe, Can, Exec;
    Calling();
    Run3(AT_START, RaiseReset, Step, Step);
    CallingAgain(AT_START.(mode := CYCLE, rt := ASKED.(reset := true), on := true, at := CLEAR_START));
    ThenCall(INIT, CALLS, [RaiseReset, Step, Step], CALLS_AGAIN);
    Run3(AT_START, Step, RaiseReset, Step);
    CallingAgain(AT_START.(mode := CYCLE, rt := ASKED.(reset := true), alarm := OTHER, on := true, at := CLEAR_START));
    ThenCall(INIT, CALLS, [Step, RaiseReset, Step], CALLS_AGAIN);
  }

  // ---- what the commands lead to --------------------------------------------------------------------

  predicate Deaf(s: State) {
    s.mode == ALARM || s.mode == CHECK_MODE
  }

  /** A motion in progress that is not being cancelled. */
  predicate Moving(s: State) {
    (s.mode == CYCLE || s.mode == JOG) && !s.suspend.motionCancel && !s.suspend.jogCancel
  }

  /** A jog is being cancelled, or is now. */
  predicate CancelsJog(s: State) {
    s.mode != IDLE && (s.suspend.jogCancel || (s.mode == JOG && Moving(s) && !s.seen.sleep))
  }

  /** The mode the hold commands of a pass lead to, the last of them deciding. */
  function HeldMode(s: State): Mode {
    if s.seen.sleep then SLEEP
    else if Deaf(s) then s.mode
    else if s.seen.safetyDoor && !CancelsJog(s) then (if s.mode == SLEEP then SLEEP else SAFETY_DOOR)
    else if s.seen.feedHold && (s.mode == IDLE || s.mode == CYCLE || s.mode == HOLD) then HOLD
    else s.mode
  }

  /** Nothing but mode, suspend and hold has changed. */
  predicate Untouched(s: State, t: State) {
    t == s.(mode := t.mode, suspend := t.suspend, hold := t.hold)
  }

  lemma DecelerateLeads(s: State)
    requires !Deaf(s)
    ensures var t := Decelerate(s);
            && Untouched(s, t) && t.mode == s.mode && t.hold == (s.hold || Moving(s))
            && t.suspend.jogCancel == CancelsJog(s)
            && t.suspend.holdComplete == (s.suspend.holdComplete || s.mode == IDLE)
            && t.suspend.motionCancel == (s.suspend.motionCancel && s.mode != IDLE)
            && t.suspend.doorAjar == (s.suspend.doorAjar && s.mode != IDLE)
  {
  }

  lemma CancelLeads(s: State)
    ensures var t := CancelMotion(s);
            t == s.(suspend := s.suspend.(motionCancel :=
                      s.suspend.motionCancel || (s.seen.motionCancel && s.mode != JOG)))
  {
  }

  lemma HoldLeads(s: State)
    requires !Deaf(s)
    ensures var t := FeedHold(s);
            t == s.(mode := if s.seen.feedHold && s.mode in {IDLE, CYCLE, HOLD} then HOLD else s.mode)
  {
  }

  /** The door opens again while power is being restored: it has to be retracted once more. */
  predicate Restarts(s: State) {
    s.seen.safetyDoor && s.mode == SAFETY_DOOR && s.suspend.initiateRestore && !s.suspend.jogCancel
  }

  predicate SameParking(s: Suspend, t: Suspend) {
    && t.retractComplete == s.retractComplete && t.initiateRestore == s.initiateRestore
    && t.restoreComplete == s.restoreComplete && t.restartRetract == s.restartRetract
  }

  lemma ReopensParks(s: State)
    ensures var t := Reopens(s);
            && (!(s.mode == SAFETY_DOOR && s.suspend.initiateRestore) ==> t == s)
            && (s.mode == SAFETY_DOOR && s.suspend.initiateRestore ==>
                  && t.suspend.restartRetract && !t.suspend.retractComplete
                  && !t.suspend.initiateRestore && !t.suspend.restoreComplete)
  {
  }

  lemma DoorParks(s: State)
    ensures var t := DoorOpens(s);
            && (!Restarts(s) ==> SameParking(s.suspend, t.suspend))
            && (Restarts(s) ==>
                  && t.suspend.restartRetract && !t.suspend.retractComplete
                  && !t.suspend.initiateRestore && !t.suspend.restoreComplete)
  {
    hide Reopens;
    ReopensParks(s);
  }

  lemma DecelerateParks(s: State)
    ensures Decelerate(s).mode == s.mode && Decelerate(s).seen == s.seen
    ensures s.mode != IDLE ==> SameParking(s.suspend, Decelerate(s).suspend)
    ensures s.mode == IDLE ==> SameParking(RUNNING, Decelerate(s).suspend)
    ensures s.mode == SAFETY_DOOR ==> Decelerate(s) == s
  {
  }

  /** Where the hold commands leave the retraction of the tool. */
  lemma HoldsPark(s: State)
    requires s.at == HOLDS && AnyHold(s.seen)
    ensures var t := HoldsPart(s);
            && (!Deaf(s) && s.mode != IDLE && !Restarts(s) ==> SameParking(s.suspend, t.suspend))
            && (!Deaf(s) && s.mode == IDLE ==> SameParking(RUNNING, t.suspend))
            && (!Deaf(s) && Restarts(s) ==>
                  && t.suspend.restartRetract && !t.suspend.retractComplete
                  && !t.suspend.initiateRestore && !t.suspend.restoreComplete)
            && (Deaf(s) ==>
                  t.suspend == if s.seen.sleep && s.mode == ALARM then
                                 s.suspend.(retractComplete := true, holdComplete := true)
                               else s.suspend)
  {
    hide Decelerate, CancelMotion, FeedHold, DoorOpens, AnyHold, GoToSleep, HoldsPart, SameParking, Restarts;
    HoldsInTurn(s);
    if Deaf(s) {
      SleepWakes(s);
    } else {
      var c := FeedHold(CancelMotion(Decelerate(s)));
      BeforeDoor(s);
      DoorParks(c);
      DoorMode(c);
      SleepParks(DoorOpens(c));
      if !Restarts(c) {
        ParkedThrough(s.suspend, c.suspend, DoorOpens(c).suspend);
        ParkedThrough(RUNNING, c.suspend, DoorOpens(c).suspend);
      }
    }
  }

  lemma BeforeDoor(s: State)
    requires !Deaf(s)
    ensures var c := FeedHold(CancelMotion(Decelerate(s)));
            && (Restarts(c) <==> Restarts(s)) && c.mode != ALARM && (s.mode == IDLE ==> !Restarts(s))
            && (s.mode != IDLE ==> SameParking(s.suspend, c.suspend))
            && (s.mode == IDLE ==> SameParking(RUNNING, c.suspend))
  {
    hide Decelerate, CancelMotion, FeedHold, SameParking;
    var a := Decelerate(s); DecelerateParks(s);
    var b := CancelMotion(a); CancelLeads(a);
    var c := FeedHold(b); HoldLeads(b);
    ParkedAlike(a, b); ParkedAlike(b, c);
    ParkedThrough(s.suspend, a.suspend, b.suspend); ParkedThrough(RUNNING, a.suspend, b.suspend);
    ParkedThrough(s.suspend, b.suspend, c.suspend); ParkedThrough(RUNNING, b.suspend, c.suspend);
  }

  lemma HoldsInTurn(s: State)
    requires s.at == HOLDS && AnyHold(s.seen)
    ensures Deaf(s) ==> HoldsPart(s) == GoToSleep(s).(at := CLEAR_HOLDS)
    ensures !Deaf(s) ==>
              HoldsPart(s) == GoToSleep(DoorOpens(FeedHold(CancelMotion(Decelerate(s))))).(at := CLEAR_HOLDS)
  {
    hide Decelerate, CancelMotion, FeedHold, DoorOpens, GoToSleep, AnyHold;
  }

  lemma SleepWakes(s: State)
    ensures GoToSleep(s).suspend == if s.seen.sleep && s.mode == ALARM
                                    then s.suspend.(retractComplete := true, holdComplete := true) else s.suspend
  {
  }

  lemma ParkedAlike(s: State, t: State)
    requires t.suspend == s.suspend.(motionCancel := t.suspend.motionCancel)
    ensures SameParking(s.suspend, t.suspend)
  {
  }

  lemma ParkedThrough(s: Suspend, t: Suspend, u: Suspend)
    requires SameParking(t, u)
    ensures SameParking(s, t) <==> SameParking(s, u)
  {
  }

  lemma DoorMode(s: State)
    ensures DoorOpens(s).mode == s.mode || DoorOpens(s).mode == SAFETY_DOOR
  {
  }

  lemma SleepParks(s: State)
    requires s.mode != ALARM
    ensures GoToSleep(s).suspend == s.suspend
  {
  }

  lemma DoorLeads(s: State)
    ensures var t := DoorOpens(s);
            && Untouched(s, t) && t.hold == s.hold
            && t.mode == (if s.seen.safetyDoor && !s.suspend.jogCancel && s.mode != SLEEP then SAFETY_DOOR else s.mode)
            && t.suspend.doorAjar == (s.suspend.doorAjar || s.seen.safetyDoor)
            && t.suspend.jogCancel == s.suspend.jogCancel && t.suspend.motionCancel == s.suspend.motionCancel
            && t.suspend.holdComplete == s.suspend.holdComplete
  {
    ReopensLeads(s);
    hide Reopens;
  }

  lemma ReopensLeads(s: State)
    ensures var t := Reopens(s);
            && t == s.(suspend := t.suspend) && t.suspend.doorAjar == s.suspend.doorAjar
            && t.suspend.jogCancel == s.suspend.jogCancel && t.suspend.motionCancel == s.suspend.motionCancel
            && t.suspend.holdComplete == s.suspend.holdComplete
  {
  }

  lemma SleepLeads(s: State)
    ensures var t := GoToSleep(s);
            && Untouched(s, t) && t.hold == s.hold && t.mode == (if s.seen.sleep then SLEEP else s.mode)
            && t.suspend.doorAjar == s.suspend.doorAjar && t.suspend.jogCancel == s.suspend.jogCancel
            && t.suspend.motionCancel == s.suspend.motionCancel
            && t.suspend.holdComplete == (s.suspend.holdComplete || (s.seen.sleep && s.mode == ALARM))
  {
  }

  /** Motion cancel, feed hold, safety door and sleep, whichever have been seen together. */
  lemma HoldsLead(s: State)
    requires s.at == HOLDS && AnyHold(s.seen)
    ensures var t := HoldsPart(s);
            && t.at == CLEAR_HOLDS && Untouched(s, t.(at := HOLDS)) && t.mode == HeldMode(s)
            && t.hold == (s.hold || (!Deaf(s) && Moving(s)))
            && (!Deaf(s) ==>
                  && t.suspend.jogCancel == CancelsJog(s)
                  && t.suspend.motionCancel
                     == ((s.suspend.motionCancel && s.mode != IDLE) || (s.seen.motionCancel && s.mode != JOG))
                  && t.suspend.doorAjar == ((s.suspend.doorAjar && s.mode != IDLE) || s.seen.safetyDoor)
                  && t.suspend.holdComplete == (s.suspend.holdComplete || s.mode == IDLE))
            && (Deaf(s) ==> t.suspend.holdComplete == (s.suspend.holdComplete || (s.seen.sleep && s.mode == ALARM)))
  {
    hide Decelerate, CancelMotion, FeedHold, DoorOpens, GoToSleep, AnyHold;
    if Deaf(s) {
      SleepLeads(s);
    } else {
      var a := Decelerate(s); DecelerateLeads(s);
      var b := CancelMotion(a); CancelLeads(a);
      var c := FeedHold(b); HoldLeads(b);
      var d := DoorOpens(c); DoorLeads(c);
      SleepLeads(d);
      hide Untouched;
      assert Untouched(s, a) && Untouched(a, b) && Untouched(b, c) && Untouched(c, d) && Untouched(d, GoToSleep(d)) by {
        JustSuspend(a, b); JustMode(b, c);
      }
      UntouchedBy(s, a, b); UntouchedBy(s, b, c); UntouchedBy(s, c, d); UntouchedBy(s, d, GoToSleep(d));
      MoveOn(s, GoToSleep(d));
    }
  }

  lemma JustSuspend(s: State, t: State)
    requires t == s.(suspend := t.suspend)
    ensures Untouched(s, t)
  {
  }

  lemma JustMode(s: State, t: State)
    requires t == s.(mode := t.mode)
    ensures Untouched(s, t)
  {
  }

  lemma UntouchedBy(s: State, t: State, u: State)
    requires Untouched(s, t) && Untouched(t, u)
    ensures Untouched(s, u) && u.seen == s.seen && t.seen == s.seen
  {
  }

  lemma MoveOn(s: State, t: State)
    requires Untouched(s, t) && s.at == HOLDS
    ensures Untouched(s, t.(at := CLEAR_HOLDS).(at := HOLDS))
  {
  }

  /** Ready to start a cycle: idle, at the end of a hold, or with the door closed and power restored. */
  predicate ReadyToStart(s: State) {
    || s.mode == IDLE
    || (s.mode == HOLD && s.suspend.holdComplete && !s.spindleStop)
    || (s.mode == SAFETY_DOOR && !s.suspend.doorAjar && s.suspend.restoreComplete)
  }

  /** A cycle start seen alone starts the queued moves, or leads to idle if there are none or they have been
      cancelled; with the door closed and the tool retracted it begins to restore power; otherwise, or
      seen together with a hold command, it does nothing. */
  lemma StartLeads(s: State)
    requires s.at == START
    ensures var t := StartPart(s);
            var asked := s.seen.cycleStart && !s.seen.feedHold && !s.seen.motionCancel && !s.seen.safetyDoor;
            && (asked && ReadyToStart(s) && s.queued && !s.suspend.motionCancel ==>
                  t == s.(mode := CYCLE, suspend := RUNNING, hold := false, at := WAKE))
            && (asked && ReadyToStart(s) && !(s.queued && !s.suspend.motionCancel) ==>
                  t == s.(mode := IDLE, suspend := RUNNING, hold := false, at := CLEAR_START))
            && (asked && s.mode == SAFETY_DOOR && !s.suspend.doorAjar && !s.suspend.restoreComplete
                && s.suspend.retractComplete ==>
                  t == s.(suspend := s.suspend.(initiateRestore := true), at := CLEAR_START))
            && (!(asked && ReadyToStart(s))
                && !(asked && s.mode == SAFETY_DOOR && !s.suspend.doorAjar && s.suspend.retractComplete) ==>
                  t == s.(at := if s.seen.cycleStart then CLEAR_START else STOP))
  {
    hide LeaveDoor, StartCycle, MayStart, Startable;
    DoorLeft(s);
    if ReadyToStart(s) { Starts(LeaveDoor(s)); } else { StartsNot(s); }
  }

  lemma DoorLeft(s: State)
    ensures var t := LeaveDoor(s);
            if s.mode == SAFETY_DOOR && !s.suspend.doorAjar && s.suspend.restoreComplete then t == s.(mode := IDLE)
            else if s.mode == SAFETY_DOOR && !s.suspend.doorAjar && s.suspend.retractComplete then
              t == s.(suspend := s.suspend.(initiateRestore := true))
            else t == s
  {
  }

  lemma Starts(s: State)
    requires s.mode == IDLE || (s.mode == HOLD && s.suspend.holdComplete && !s.spindleStop)
    ensures MayStart(s) && (Startable(s) <==> s.queued && !s.suspend.motionCancel)
    ensures StartCycle(s) == s.(mode := if Startable(s) then CYCLE else IDLE, suspend := RUNNING, hold := false)
  {
  }

  lemma StartsNot(s: State)
    requires !ReadyToStart(s)
    ensures var t := LeaveDoor(s);
            && !Startable(t) && (MayStart(t) ==> StartCycle(t) == t)
            && (t != s ==> s.mode == SAFETY_DOOR && !s.suspend.doorAjar && s.suspend.retractComplete)
  {
  }

  /** The end of a motion: a hold, door or sleep state is reached; or the motion is over, and the machine idle,
      after a cancelled jog without moves left, or with the door open if it was opened meanwhile. */
  lemma StopLeads(s: State)
    requires s.at == STOP
    ensures var t := StopPart(s);
            var holding := s.mode in {HOLD, SAFETY_DOOR, SLEEP} && !s.softLimit && !s.suspend.jogCancel;
            && (!s.seen.cycleStop ==> t == s.(at := OUTSIDE))
            && (s.seen.cycleStop && holding ==>
                  t == s.(suspend := s.suspend.(holdComplete := s.suspend.holdComplete || s.hold), hold := false,
                          at := CLEAR_STOP))
            && (s.seen.cycleStop && !holding ==>
                  && t.at == CLEAR_STOP
                  && t.mode == (if s.suspend.doorAjar then SAFETY_DOOR else IDLE)
                  && t.suspend == (if s.suspend.doorAjar then s.suspend.(jogCancel := false, holdComplete := true)
                                   else RUNNING)
                  && (s.suspend.jogCancel ==> !t.hold && !t.on && !t.queued)
                  && (!s.suspend.jogCancel ==> t.hold == s.hold && t.on == s.on && t.queued == s.queued)
                  && t.rt == s.rt && t.alarm == s.alarm && t.softLimit == s.softLimit && t.spindleStop == s.spindleStop)
  {
    hide MotionDone, FlushJog, HoldDone;
    JogFlushed(s);
    DoneLeads(FlushJog(s));
    HoldDoneLeads(s);
  }

  lemma JogFlushed(s: State)
    ensures FlushJog(s) == if s.suspend.jogCancel then s.(hold := false, on := false, queued := false) else s
  {
  }

  lemma DoneLeads(s: State)
    ensures MotionDone(s)
         == s.(mode := if s.suspend.doorAjar then SAFETY_DOOR else IDLE,
               suspend := if s.suspend.doorAjar then s.suspend.(jogCancel := false, holdComplete := true) else RUNNING)
  {
  }

  lemma HoldDoneLeads(s: State)
    ensures HoldDone(s) == s.(suspend := s.suspend.(holdComplete := s.suspend.holdComplete || s.hold), hold := false)
  {
  }

  /** A pending alarm locks the machine, a critical one until the operator resets it. */
  lemma AlarmLeads(s: State)
    requires s.at == CALLED
    ensures var t := StepOn(s);
            && (s.alarm == NO_ALARM ==> t == s.(at := SNAPSHOT))
            && (s.alarm == OTHER ==> t == s.(mode := ALARM, alarm := NO_ALARM, at := SNAPSHOT))
            && (s.alarm == CRITICAL ==>
                  && t == s.(mode := ALARM, rt := s.rt.(reset := false), at := CRITICAL_LOOP)
                  && (Enabled(t, Step) <==> t.rt.reset))
  {
  }

  /** An abort forgets everything but a lock: the queue is empty, the steppers are off, nothing pends. */
  lemma AbortLeads(s: State)
    requires s.at == ABORTED
    ensures StepOn(StepOn(s)) == INIT.(mode := if s.mode == ALARM || s.mode == SLEEP then ALARM else IDLE)
  {
  }

  /** The first reset stops what may be moving, with an alarm, and does nothing else. */
  lemma ResetLeads(s: State)
    requires !s.rt.reset
    ensures Reset(s) == if s.mode == CYCLE || s.mode == JOG || s.hold
                        then s.(rt := s.rt.(reset := true), alarm := OTHER, on := false)
                        else s.(rt := s.rt.(reset := true))
  {
  }

  // ---- a command from the moment it is given ----------------------------------------------------------

  /** A hold command given to a machine in a mode, what it leads to at once, and what when the motion that was
      going on has come to its end. */
  datatype Course = Course(op: Op, asked: Flags, from: Mode, told: Mode, toldSuspend: Suspend, ended: Mode,
                           endedSuspend: Suspend, endedHold: bool)

  const HELD: Suspend := RUNNING.(holdComplete := true)
  const AJAR: Suspend := RUNNING.(doorAjar := true)

  const COURSES: seq<Course> := [
    Course(RaiseHold, NONE.(feedHold := true), CYCLE, HOLD, RUNNING, HOLD, HELD, false),
    Course(RaiseDoor, NONE.(safetyDoor := true), CYCLE, SAFETY_DOOR, AJAR, SAFETY_DOOR,
           AJAR.(holdComplete := true), false),
    Course(RaiseCancel, NONE.(motionCancel := true), CYCLE, CYCLE, RUNNING.(motionCancel := true), IDLE, RUNNING, true),
    Course(RaiseHold, NONE.(feedHold := true), JOG, JOG, RUNNING.(jogCancel := true), IDLE, RUNNING, false),
    Course(RaiseCancel, NONE.(motionCancel := true), JOG, JOG, RUNNING.(jogCancel := true), IDLE, RUNNING, false),
    Course(RaiseDoor, NONE.(safetyDoor := true), JOG, JOG, AJAR.(jogCancel := true), SAFETY_DOOR,
           AJAR.(holdComplete := true), false),
    Course(RaiseHold, NONE.(feedHold := true), IDLE, HOLD, HELD, HOLD, HELD, false),
    Course(RaiseDoor, NONE.(safetyDoor := true), IDLE, SAFETY_DOOR, AJAR.(holdComplete := true), SAFETY_DOOR,
           AJAR.(holdComplete := true), false),
    Course(AskSleep, NONE.(sleep := true), IDLE, SLEEP, HELD, SLEEP, HELD, false),
    Course(RaiseCancel, NONE.(motionCancel := true), IDLE, IDLE, HELD.(motionCancel := true), IDLE,
           HELD.(motionCancel := true), false)]

  /** The motion goes on, or its end has been reported; from idle there is none. */
  predicate Under(s: State, c: Course) {
    if c.from == IDLE then !s.on && !s.rt.cycleStop else s.on != s.rt.cycleStop
  }

  predicate Plain(s: State) {
    s.alarm == NO_ALARM && !s.softLimit
  }

  /** The flags are f, and possibly the end of a motion. */
  predicate JustFlags(g: Flags, f: Flags) {
    g == f || g == f.(cycleStop := true)
  }

  /** The command has been given and not yet been acted on. */
  predicate Given(s: State, c: Course) {
    && Plain(s) && Under(s, c) && s.mode == c.from && s.suspend == RUNNING && !s.hold && JustFlags(s.rt, c.asked)
    && (s.at in {OUTSIDE, CALLED, SNAPSHOT}
        || (s.at == HOLDS && JustFlags(s.seen, c.asked) && (s.seen.cycleStop ==> s.rt.cycleStop)))
  }

  /** It has been acted on, and the motion is coming to its end. */
  predicate Told(s: State, c: Course) {
    && Plain(s) && Under(s, c) && s.mode == c.told && s.suspend == c.toldSuspend && s.hold == (c.from != IDLE)
    && (JustFlags(s.rt, NONE) || (s.at == CLEAR_HOLDS && JustFlags(s.rt, c.asked)))
    && (s.at in {OUTSIDE, CALLED, SNAPSHOT}
        || (&& s.at in {CLEAR_HOLDS, START, STOP} && JustFlags(s.seen, c.asked)
            && (s.seen.cycleStop ==> s.rt.cycleStop))
        || (s.at in {HOLDS, START, STOP} && s.seen == NONE.(cycleStop := true) && s.rt.cycleStop))
  }

  /** The motion has come to its end. */
  predicate Ended(s: State, c: Course) {
    && Plain(s) && !s.on && s.mode == c.ended && s.suspend == c.endedSuspend && s.hold == c.endedHold
    && (if s.at == CLEAR_STOP then JustFlags(s.rt, NONE) else s.rt == NONE && s.at in {OUTSIDE, CALLED, SNAPSHOT})
  }

  /** Operations that are no commands. */
  predicate Aside(op: Op) {
    op.Step? || op.Call? || op.StepperDone? || op.Queue? || op.SpindleStop?
  }

  lemma GivenStep(s: State, c: Course)
    requires c in COURSES && Given(s, c) && s.at != OUTSIDE
    ensures Given(StepOn(s), c) || Told(StepOn(s), c)
  {
    if s.at == HOLDS { GivenHolds(s, c); }
    hide HoldsPart;
  }

  lemma GivenHolds(s: State, c: Course)
    requires c in COURSES && Given(s, c) && s.at == HOLDS
    ensures Told(HoldsPart(s), c)
  {
    FromThree(c);
    hide HoldsPart, Given, Told;
    if c.from == CYCLE { GivenInCycle(s, c); } else if c.from == JOG { GivenInJog(s, c); } else { GivenInIdle(s, c); }
  }

  lemma FromThree(c: Course)
    requires c in COURSES
    ensures c.from == CYCLE || c.from == JOG || c.from == IDLE
  {
  }

  lemma GivenInCycle(s: State, c: Course)
    requires c in COURSES && c.from == CYCLE && Given(s, c) && s.at == HOLDS
    ensures Told(HoldsPart(s), c)
  {
    hide HoldsPart;
    HoldsLead(s);
    HoldsPark(s);
  }

  lemma GivenInJog(s: State, c: Course)
    requires c in COURSES && c.from == JOG && Given(s, c) && s.at == HOLDS
    ensures Told(HoldsPart(s), c)
  {
    hide HoldsPart;
    HoldsLead(s);
    HoldsPark(s);
  }

  lemma GivenInIdle(s: State, c: Course)
    requires c in COURSES && c.from == IDLE && Given(s, c) && s.at == HOLDS
    ensures Told(HoldsPart(s), c)
  {
    hide HoldsPart;
    HoldsLead(s);
    HoldsPark(s);
  }

  lemma ToldStep(s: State, c: Course)
    requires c in COURSES && Told(s, c) && s.at != OUTSIDE
    ensures Told(StepOn(s), c) || (c.from != IDLE && Ended(StepOn(s), c))
  {
    hide HoldsPart, StartPart, StopPart;
    if s.at == STOP { ToldStop(s, c); }
    else if s.at == START { ToldStart(s, c); ToldOn(s, s.(at := STOP), c); }
    else if s.at == HOLDS { NoHoldsSeen(s); ToldOn(s, s.(at := START), c); }
    else { ToldOther(s, c); }
  }

  lemma ToldOn(s: State, t: State, c: Course)
    requires Told(s, c) && t == s.(at := t.at)
    requires (s.at == START && t.at == STOP) || (s.at == HOLDS && t.at == START)
    ensures Told(t, c)
  {
  }

  lemma ToldOther(s: State, c: Course)
    requires c in COURSES && Told(s, c) && s.at in {CLEAR_HOLDS, CALLED, SNAPSHOT}
    ensures Told(StepOn(s), c)
  {
    hide HoldsPart, StartPart, StopPart;
    if s.at == CLEAR_HOLDS { ToldCleared(s, c); } else { hide COURSES; }
  }

  lemma ToldCleared(s: State, c: Course)
    requires c in COURSES && Told(s, c) && s.at == CLEAR_HOLDS
    ensures Told(ClearHoldsPart(s), c)
  {
  }

  lemma ToldStart(s: State, c: Course)
    requires c in COURSES && Told(s, c) && s.at == START
    ensures StartPart(s) == s.(at := STOP)
  {
    hide StartPart;
    StartLeads(s);
  }

  lemma ToldStop(s: State, c: Course)
    requires c in COURSES && Told(s, c) && s.at == STOP
    ensures Told(StopPart(s), c) || (c.from != IDLE && Ended(StopPart(s), c))
    ensures c.from != JOG ==> StopPart(s).queued == s.queued
    ensures c.from == JOG && Ended(StopPart(s), c) && s.seen.cycleStop ==> !StopPart(s).queued
    ensures s.seen.cycleStop <==> StopPart(s).at == CLEAR_STOP
    ensures !s.seen.cycleStop ==> StopPart(s) == s.(at := OUTSIDE) && Told(StopPart(s), c)
  {
    hide StopPart;
    StopLeads(s);
  }

  lemma NoHoldsSeen(s: State)
    requires s.at == HOLDS && !AnyHold(s.seen)
    ensures HoldsPart(s) == s.(at := START)
  {
  }

  lemma EndedStep(s: State, c: Course)
    requires c in COURSES && Ended(s, c) && s.at != OUTSIDE
    ensures Ended(StepOn(s), c)
  {
  }

  /** Where the command stands, the planner having blocks as q says: a cancelled jog loses them. */
  predicate Stands(s: State, c: Course, q: bool) {
    || ((Given(s, c) || Told(s, c)) && s.queued == q)
    || (c.from != IDLE && Ended(s, c) && s.queued == (q && c.from != JOG))
  }

  lemma StandsOn(s: State, c: Course, q: bool)
    requires c in COURSES && Stands(s, c, q) && s.at != OUTSIDE
    ensures Stands(StepOn(s), c, q)
  {
    NotYetEnded(s, c);
    hide StepOn, Given, Told, Ended;
    if Given(s, c) { GivenStep(s, c); GivenQueue(s, c); }
    else if Told(s, c) { ToldStep(s, c); ToldQueue(s, c); }
    else { EndedStep(s, c); EndedQueue(s, c); }
  }

  lemma GivenQueue(s: State, c: Course)
    requires c in COURSES && Given(s, c) && s.at != OUTSIDE
    ensures StepOn(s).queued == s.queued
  {
    if s.at == HOLDS { HoldsLead(s); }
    hide HoldsPart;
  }

  lemma ToldQueue(s: State, c: Course)
    requires c in COURSES && Told(s, c) && s.at != OUTSIDE
    ensures if s.at == STOP && s.seen.cycleStop && c.from == JOG then !StepOn(s).queued
            else StepOn(s).queued == s.queued
    ensures s.at == STOP && s.seen.cycleStop ==> !Told(StepOn(s), c) && !Given(StepOn(s), c)
    ensures !(s.at == STOP && s.seen.cycleStop) && c.from == JOG ==> !Ended(StepOn(s), c)
  {
    hide HoldsPart, StartPart, StopPart;
    if s.at == STOP { ToldStop(s, c); StoppedNotTold(StopPart(s), c); }
    else if s.at == START { ToldStart(s, c); NotYetEnded(s.(at := STOP), c); ToldOn(s, s.(at := STOP), c); }
    else if s.at == HOLDS { NoHoldsSeen(s); NotYetEnded(s.(at := START), c); ToldOn(s, s.(at := START), c); }
    else { ToldOther(s, c); NotYetEnded(StepOn(s), c); OtherQueue(s); }
  }

  lemma StoppedNotTold(s: State, c: Course)
    ensures s.at == CLEAR_STOP ==> !Told(s, c) && !Given(s, c)
    ensures s.at == OUTSIDE && Told(s, c) && c.from != IDLE ==> !Ended(s, c)
  {
  }

  lemma OtherQueue(s: State)
    requires s.at in {CLEAR_HOLDS, CALLED, SNAPSHOT}
    ensures StepOn(s).queued == s.queued
  {
  }

  lemma EndedQueue(s: State, c: Course)
    requires c in COURSES && Ended(s, c) && s.at != OUTSIDE
    ensures StepOn(s).queued == s.queued
  {
  }

  lemma NotYetEnded(s: State, c: Course)
    ensures c.from != IDLE && (Given(s, c) || Told(s, c)) ==> !Ended(s, c)
  {
  }

  lemma StandsThrough(s: State, c: Course, q: bool, op: Op)
    requires c in COURSES && Stands(s, c, q) && Aside(op) && !op.Queue? && Enabled(s, op)
    ensures Stands(Next(s, op), c, q)
  {
    if op.Step? {
      StandsOn(s, c, q);
      hide StepOn, Stands;
    } else {
      hide StepOn;
    }
  }

  lemma {:induction false} StandsAlong(s: State, c: Course, q: bool, ops: seq<Op>)
    requires c in COURSES && Stands(s, c, q) && Can(s, ops)
    requires forall i | 0 <= i < |ops| :: Aside(ops[i]) && !ops[i].Queue?
    ensures Stands(Exec(s, ops), c, q)
    decreases |ops|
  {
    hide Stands, Next, Enabled, Aside;
    if ops != [] {
      StandsThrough(s, c, q, ops[0]);
      StandsAlong(Next(s, ops[0]), c, q, ops[1..]);
    }
  }

  /** The machine in the mode of a course, between two calls, nothing pending. */
  predicate InMode(s: State, c: Course) {
    && Plain(s) && s.at == OUTSIDE && s.mode == c.from && s.suspend == RUNNING && !s.hold && s.rt == NONE
    && s.on == (c.from != IDLE)
  }

  /** From the moment a hold command is given in a cycle, a jog or idle, whatever interrupts and calls follow, as
      long as no other command is: once its flag has been dealt with and while the motion goes on, the
      machine is in the mode the command asks for and decelerating; and once the motion has stopped
      and this has been dealt with, it is in the final mode, for a hold or an open door with the hold complete.
      The queue is kept, but for a cancelled jog. */
  lemma CommandLeads(s: State, c: Course, ops: seq<Op>)
    requires c in COURSES && InMode(s, c)
    requires Enabled(s, c.op) && Can(Next(s, c.op), ops) && forall i | 0 <= i < |ops| :: Aside(ops[i]) && !ops[i].Queue?
    ensures var t := Exec(Next(s, c.op), ops);
            && (t.at == OUTSIDE && t.rt == NONE && t.on ==>
                  t.mode == c.told && t.suspend == c.toldSuspend && t.hold && t.queued == s.queued)
            && (t.at == OUTSIDE && t.rt == NONE && !t.on ==>
                  t.mode == c.ended && t.suspend == c.endedSuspend && t.hold == c.endedHold
                  && t.queued == (s.queued && c.from != JOG))
  {
    hide Exec, Can, Next, Given, Told, Ended;
    CommandGiven(s, c);
    var u := Next(s, c.op);
    StandsAlong(u, c, s.queued, ops);
    var t := Exec(u, ops);
    if t.at == OUTSIDE && t.rt == NONE { WhereItStands(t, c, s.queued); }
  }

  lemma CommandGiven(s: State, c: Course)
    requires c in COURSES && InMode(s, c) && Enabled(s, c.op)
    ensures Given(Next(s, c.op), c) && Next(s, c.op).queued == s.queued
  {
  }

  lemma WhereItStands(t: State, c: Course, q: bool)
    requires c in COURSES && Stands(t, c, q) && t.at == OUTSIDE && t.rt == NONE
    ensures t.on ==> t.mode == c.told && t.suspend == c.toldSuspend && t.hold && t.queued == q
    ensures !t.on ==> t.mode == c.ended && t.suspend == c.endedSuspend && t.hold == c.endedHold
                      && t.queued == (q && c.from != JOG)
  {
  }

  // ---- resuming --------------------------------------------------------------------------------------

  /** A cycle start has been given at the end of a hold. */
  predicate Resuming(s: State, q: bool) {
    && Plain(s) && s.mode == HOLD && s.suspend == HELD && !s.on && !s.spindleStop && s.queued == q
    && s.rt == NONE.(cycleStart := true)
    && (s.at in {OUTSIDE, CALLED, SNAPSHOT} || (s.at in {HOLDS, START} && s.seen == NONE.(cycleStart := true)))
  }

  /** It has taken effect. */
  predicate Resumed(s: State, q: bool) {
    && Plain(s) && s.mode == (if q then CYCLE else IDLE) && s.suspend == RUNNING && !s.hold && s.queued == q
    && s.on == (q && s.at != WAKE) && (s.at == WAKE ==> q)
    && (s.rt == NONE || (s.at in {WAKE, CLEAR_START} && s.rt == NONE.(cycleStart := true)))
    && (s.at in {OUTSIDE, CALLED, SNAPSHOT} || (s.at in {WAKE, CLEAR_START, STOP} && !s.seen.cycleStop))
  }

  lemma ResumingStep(s: State, q: bool)
    requires Resuming(s, q) && s.at != OUTSIDE
    ensures Resuming(StepOn(s), q) || Resumed(StepOn(s), q)
  {
    if s.at == HOLDS { NoHoldsSeen(s); }
    if s.at == START { StartLeads(s); }
    hide HoldsPart, StartPart;
  }

  lemma ResumedStep(s: State, q: bool)
    requires Resumed(s, q) && s.at != OUTSIDE
    ensures Resumed(StepOn(s), q)
  {
  }

  lemma {:induction false} ResumesAlong(s: State, q: bool, ops: seq<Op>)
    requires (Resuming(s, q) || Resumed(s, q)) && Can(s, ops)
    requires forall i | 0 <= i < |ops| :: ops[i] == Step || ops[i] == Call
    ensures var t := Exec(s, ops); Resuming(t, q) || Resumed(t, q)
    decreases |ops|
  {
    if ops != [] {
      var t := Next(s, ops[0]);
      if ops[0] == Step {
        if Resuming(s, q) { ResumingStep(s, q); } else { ResumedStep(s, q); }
      }
      hide StepOn;
      assert Resuming(t, q) || Resumed(t, q);
      hide Resuming, Resumed, Next;
      ResumesAlong(t, q, ops[1..]);
    }
  }

  /** A cycle start given at the end of a hold resumes: once dealt with, the machine runs the queued moves, or is
      idle if there are none. */
  lemma ResumeLeads(s: State, ops: seq<Op>)
    requires Plain(s) && s.at == OUTSIDE && s.mode == HOLD && s.suspend == HELD && !s.on && !s.spindleStop
    requires s.rt == NONE && Can(Next(s, RaiseStart), ops)
    requires forall i | 0 <= i < |ops| :: ops[i] == Step || ops[i] == Call
    ensures var t := Exec(Next(s, RaiseStart), ops);
            t.at == OUTSIDE && !t.rt.cycleStart ==>
              t.mode == (if s.queued then CYCLE else IDLE) && t.on == s.queued && t.suspend == RUNNING && !t.hold
              && t.queued == s.queued
  {
    ResumesAlong(Next(s, RaiseStart), s.queued, ops);
    hide Exec, Can;
  }
}
