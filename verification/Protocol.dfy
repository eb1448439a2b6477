/** protocol_exec_rt_system and mc_reset as they are written, updating the system variables branch by
    branch, proved to take the steps of module Realtime. */
module Protocol {
  import opened Realtime

  function Rank(at: Point): nat {
    match at
    case CALLED => 9
    case SNAPSHOT => 8
    case HOLDS => 7
    case CLEAR_HOLDS => 6
    case START => 5
    case WAKE => 4
    case CLEAR_START => 3
    case STOP => 2
    case CLEAR_STOP => 1
    case _ => 0
  }

  lemma HoldsAt(s: State)
    ensures HoldsPart(s).at in {START, CLEAR_HOLDS}
  {
    hide Decelerate, CancelMotion, FeedHold, DoorOpens, GoToSleep;
  }

  lemma StartAt(s: State)
    ensures StartPart(s).at in {STOP, WAKE, CLEAR_START}
  {
    hide LeaveDoor, StartCycle, MayStart, Startable;
  }

  lemma StopAt(s: State)
    ensures StopPart(s).at in {OUTSIDE, CLEAR_STOP}
  {
    hide HoldDone, MotionDone, FlushJog;
  }

  lemma EarlyRankFalls(s: State)
    requires s.at == CALLED || s.at == SNAPSHOT
    ensures Rank(StepOn(s).at) < Rank(s.at)
  {
    hide HoldsPart, StartPart, StopPart;
  }

  lemma ClearRankFalls(s: State)
    requires s.at in {CLEAR_HOLDS, WAKE, CLEAR_START, CLEAR_STOP}
    ensures Rank(StepOn(s).at) < Rank(s.at)
  {
    hide HoldsPart, StartPart, StopPart, AlarmPart, SnapshotPart;
  }

  lemma PartRankFalls(s: State)
    requires s.at in {HOLDS, START, STOP}
    ensures Rank(StepOn(s).at) < Rank(s.at)
  {
    hide HoldsPart, StartPart, StopPart, AlarmPart, SnapshotPart, ClearHoldsPart, ClearStartPart, ClearStopPart;
    HoldsAt(s); StartAt(s); StopAt(s);
  }

  lemma RankFalls(s: State)
    requires Rank(s.at) > 0
    ensures Rank(StepOn(s).at) < Rank(s.at)
  {
    hide StepOn;
    if s.at == CALLED || s.at == SNAPSHOT { EarlyRankFalls(s); }
    else if s.at in {CLEAR_HOLDS, WAKE, CLEAR_START, CLEAR_STOP} { ClearRankFalls(s); }
    else { PartRankFalls(s); }
  }

  /** The rest of a call that nothing interrupts. */
  function Finish(s: State): State
    decreases Rank(s.at)
  {
    if Rank(s.at) == 0 then s
    else
      RankFalls(s);
      Finish(StepOn(s))
  }

  class System {
    var state: Mode
    var suspend: Suspend
    /** STEP_CONTROL_EXECUTE_HOLD */
    var executeHold: bool
    var softLimit: bool
    var spindleStopOvr: bool
    var rtExecState: Flags
    var rtExecAlarm: Alarm
    var stepperOn: bool
    var queued: bool

    function Now(at: Point, rtExec: Flags): State
      reads this
    {
      State(state, suspend, executeHold, softLimit, spindleStopOvr, rtExecState, rtExecAlarm, rtExec, at,
            stepperOn, queued)
    }

    constructor ()
      ensures Now(OUTSIDE, NONE) == INIT
    {
      state, suspend, executeHold, softLimit, spindleStopOvr := IDLE, RUNNING, false, false, false;
      rtExecState, rtExecAlarm, stepperOn, queued := NONE, NO_ALARM, false, false;
    }

    /** mc_reset */
    method McReset()
      modifies this
      ensures forall at, f :: Now(at, f) == Reset(old(Now(at, f)))
    {
      if !rtExecState.reset {
        rtExecState := rtExecState.(reset := true);
        if state == CYCLE || state == JOG || executeHold {
          rtExecAlarm := OTHER;
          stepperOn := false;
        }
      }
    }

    /** A motion in progress is told to decelerate; when idle the hold is complete at once. */
    method InitiateHold(rtExec: Flags)
      modifies this`executeHold, this`suspend
      ensures Now(HOLDS, rtExec) == Decelerate(old(Now(HOLDS, rtExec)))
    {
      if state == CYCLE || state == JOG {
        if !(suspend.motionCancel || suspend.jogCancel) {
          executeHold := true;
          if state == JOG {
            if !rtExec.sleep { suspend := suspend.(jogCancel := true); }
          }
        }
      }
      if state == IDLE { suspend := RUNNING.(holdComplete := true); }
    }

    method FlagCancel(rtExec: Flags)
      modifies this`suspend
      ensures Now(HOLDS, rtExec) == CancelMotion(old(Now(HOLDS, rtExec)))
    {
      if rtExec.motionCancel {
        if state != JOG { suspend := suspend.(motionCancel := true); }
      }
    }

    method EnterHold(rtExec: Flags)
      modifies this`state
      ensures Now(HOLDS, rtExec) == FeedHold(old(Now(HOLDS, rtExec)))
    {
      if rtExec.feedHold {
        if !(state == SAFETY_DOOR || state == JOG || state == SLEEP) { state := HOLD; }
      }
    }

    method OpenDoor(rtExec: Flags)
      modifies this`state, this`suspend
      ensures Now(HOLDS, rtExec) == DoorOpens(old(Now(HOLDS, rtExec)))
    {
      if rtExec.safetyDoor {
        if !suspend.jogCancel {
          if state == SAFETY_DOOR {
            if suspend.initiateRestore {
              suspend := suspend.(retractComplete := false, initiateRestore := false, restoreComplete := false);
              suspend := suspend.(restartRetract := true);
            }
          }
          if state != SLEEP { state := SAFETY_DOOR; }
        }
        suspend := suspend.(doorAjar := true);
      }
    }

    method EnterSleep(rtExec: Flags)
      modifies this`state, this`suspend
      ensures Now(HOLDS, rtExec) == GoToSleep(old(Now(HOLDS, rtExec)))
    {
      if rtExec.sleep {
        if state == ALARM { suspend := suspend.(retractComplete := true, holdComplete := true); }
        state := SLEEP;
      }
    }

    /** Motion cancel, feed hold, safety door and sleep. */
    method HoldCommands(rtExec: Flags)
      requires AnyHold(rtExec)
      modifies this
      ensures Now(CLEAR_HOLDS, rtExec) == HoldsPart(old(Now(HOLDS, rtExec)))
    {
      hide Decelerate, CancelMotion, FeedHold, DoorOpens, GoToSleep;
      if !(state == ALARM || state == CHECK_MODE) {
        InitiateHold(rtExec);
        FlagCancel(rtExec);
        EnterHold(rtExec);
        OpenDoor(rtExec);
      }
      EnterSleep(rtExec);
    }

    /** Resume from the safety door. */
    method ResumeDoor(ghost rtExec: Flags)
      modifies this`state, this`suspend
      ensures Now(START, rtExec) == LeaveDoor(old(Now(START, rtExec)))
    {
      if state == SAFETY_DOOR && !suspend.doorAjar {
        if suspend.restoreComplete {
          state := IDLE;
        } else if suspend.retractComplete {
          suspend := suspend.(initiateRestore := true);
        }
      }
    }

    /** Start the cycle or stay idle. */
    method StartOrIdle(ghost rtExec: Flags)
      requires state == IDLE || (state == HOLD && suspend.holdComplete)
      modifies this
      ensures var s := old(Now(START, rtExec));
              Now(CLEAR_START, rtExec) ==
              if Startable(s) then WakePart(StartCycle(s).(at := WAKE)) else StartCycle(s).(at := CLEAR_START)
    {
      if state == HOLD && spindleStopOvr {
        // The suspend manager restores the spindle and asks for the cycle start again.
      } else {
        executeHold := false;
        if queued && !suspend.motionCancel {
          suspend := RUNNING;
          state := CYCLE;
          stepperOn := true;
        } else {
          suspend := RUNNING;
          state := IDLE;
        }
      }
    }

    method CycleStart(rtExec: Flags)
      requires rtExec.cycleStart
      modifies this
      ensures Now(CLEAR_START, rtExec) ==
              var t := StartPart(old(Now(START, rtExec)));
              if t.at == WAKE then WakePart(t) else t
    {
      hide LeaveDoor, StartCycle;
      if !(rtExec.feedHold || rtExec.motionCancel || rtExec.safetyDoor) {
        ResumeDoor(rtExec);
        if state == IDLE || (state == HOLD && suspend.holdComplete) {
          StartOrIdle(rtExec);
        }
      }
    }

    /** A motion is complete, or a cancelled one has come to a stop. */
    method CompleteMotion(ghost rtExec: Flags)
      modifies this
      ensures Now(STOP, rtExec) == MotionDone(FlushJog(old(Now(STOP, rtExec))))
    {
      ghost var s := Now(STOP, rtExec);
      if suspend.jogCancel {
        executeHold := false;
        stepperOn := false;
        queued := false;
      }
      assert Now(STOP, rtExec) == FlushJog(s);
      if suspend.doorAjar {
        suspend := suspend.(jogCancel := false);
        suspend := suspend.(holdComplete := true);
        state := SAFETY_DOOR;
      } else {
        suspend := RUNNING;
        state := IDLE;
      }
    }

    /** The stepper interrupt has run out of segments: the hold or the motion is complete. */
    method CycleStop(rtExec: Flags)
      requires rtExec.cycleStop
      modifies this
      ensures Now(CLEAR_STOP, rtExec) == StopPart(old(Now(STOP, rtExec)))
    {
      hide MotionDone, FlushJog;
      if (state == HOLD || state == SAFETY_DOOR || state == SLEEP) && !softLimit && !suspend.jogCancel {
        if executeHold { suspend := suspend.(holdComplete := true); }
        executeHold := false;
      } else {
        CompleteMotion(rtExec);
      }
    }

    method ExecHolds(rtExec: Flags)
      modifies this
      ensures Finish(Now(START, rtExec)) == Finish(old(Now(HOLDS, rtExec)))
    {
      hide HoldsPart, Finish;
      FinishStep(Now(HOLDS, rtExec));
      if rtExec.motionCancel || rtExec.feedHold || rtExec.safetyDoor || rtExec.sleep {
        HoldCommands(rtExec);
        FinishStep(Now(CLEAR_HOLDS, rtExec));
        rtExecState := rtExecState.(motionCancel := false, feedHold := false, safetyDoor := false, sleep := false);
      } else {
        NoHolds(Now(HOLDS, rtExec));
      }
    }

    method ExecStart(rtExec: Flags)
      modifies this
      ensures Finish(Now(STOP, rtExec)) == Finish(old(Now(START, rtExec)))
    {
      hide StartPart, Finish;
      ghost var s := Now(START, rtExec);
      FinishStep(s);
      if rtExec.cycleStart {
        StartAt(s);
        if StartPart(s).at == WAKE { FinishStep(StartPart(s)); }
        CycleStart(rtExec);
        FinishStep(Now(CLEAR_START, rtExec));
        rtExecState := rtExecState.(cycleStart := false);
      } else {
        NoStart(Now(START, rtExec));
      }
    }

    method ExecStop(rtExec: Flags)
      modifies this
      ensures Now(OUTSIDE, rtExec) == Finish(old(Now(STOP, rtExec)))
    {
      hide StopPart, Finish;
      FinishStep(Now(STOP, rtExec));
      if rtExec.cycleStop {
        CycleStop(rtExec);
        FinishStep(Now(CLEAR_STOP, rtExec));
        rtExecState := rtExecState.(cycleStop := false);
      } else {
        NoStop(Now(STOP, rtExec));
      }
      Finished(Now(OUTSIDE, rtExec));
    }

    /** A pending alarm locks the machine; a critical one for good. */
    method ExecAlarm() returns (critical: bool)
      modifies this
      ensures Now(if critical then CRITICAL_LOOP else SNAPSHOT, NONE) == AlarmPart(old(Now(CALLED, NONE)))
    {
      critical := false;
      if rtExecAlarm != NO_ALARM {
        state := ALARM;
        if rtExecAlarm == CRITICAL {
          rtExecState := rtExecState.(reset := false);
          return true;
        }
        rtExecAlarm := NO_ALARM;
      }
    }

    /** protocol_exec_rt_system without interruption: returns where it has ended up, which after a
        critical alarm is its endless loop. */
    method ExecRtSystem() returns (at: Point, rtExec: Flags)
      modifies this
      ensures at in {OUTSIDE, ABORTED, CRITICAL_LOOP}
      ensures Now(at, rtExec) == Finish(old(Now(CALLED, NONE)))
    {
      hide HoldsPart, StartPart, StopPart, AlarmPart, Finish;
      rtExec, at := NONE, OUTSIDE;
      FinishStep(Now(CALLED, NONE));
      var critical := ExecAlarm();
      if critical {
        at := CRITICAL_LOOP;
        Finished(Now(at, rtExec));
        return;
      }
      FinishStep(Now(SNAPSHOT, NONE));
      if rtExecState != NONE {
        rtExec := rtExecState;
        if rtExec.reset {
          at := ABORTED;
          Finished(Now(at, rtExec));
          return;
        }
        ExecHolds(rtExec);
        ExecStart(rtExec);
        ExecStop(rtExec);
      } else {
        Finished(Now(OUTSIDE, NONE));
      }
    }
  }

  lemma FinishStep(s: State)
    requires Rank(s.at) > 0
    ensures Finish(s) == Finish(StepOn(s))
  {
    RankFalls(s);
    hide StepOn;
  }

  lemma Finished(s: State)
    requires Rank(s.at) == 0
    ensures Finish(s) == s
  {
  }

  lemma NoHolds(s: State)
    requires s.at == HOLDS && !AnyHold(s.seen)
    ensures StepOn(s) == s.(at := START)
  {
  }

  lemma NoStart(s: State)
    requires s.at == START && !s.seen.cycleStart
    ensures StepOn(s) == s.(at := STOP)
  {
  }

  lemma NoStop(s: State)
    requires s.at == STOP && !s.seen.cycleStop
    ensures StepOn(s) == s.(at := OUTSIDE)
  {
  }

  // ---- a feed hold raised during a call ---------------------------------------------------------------

  function Raised(s: State): State {
    s.(rt := s.rt.(feedHold := true))
  }

  /** The call has looked at the flags, and is about to clear those of the hold commands. */
  predicate AboutToClear(s: State) {
    s.at == CLEAR_HOLDS || (s.at == HOLDS && AnyHold(s.seen))
  }

  lemma RaisedStep(s: State)
    requires s.at in {HOLDS, START, WAKE, CLEAR_START, STOP, CLEAR_STOP}
    ensures StepOn(Raised(s)) == Raised(StepOn(s))
  {
    hide HoldsPart, StartPart, StopPart;
    if s.at == HOLDS { RaisedHolds(s); }
    else if s.at == START { RaisedStart(s); }
    else if s.at == STOP { RaisedStop(s); }
  }

  lemma RaisedHolds(s: State)
    requires s.at == HOLDS
    ensures HoldsPart(Raised(s)) == Raised(HoldsPart(s))
  {
    hide HoldsPart;
    if AnyHold(s.seen) { SameHolds(s); } else { NoHoldsSeen(s); NoHoldsSeen(Raised(s)); }
  }

  lemma SameHolds(s: State)
    requires s.at == HOLDS && AnyHold(s.seen)
    ensures HoldsPart(Raised(s)) == Raised(HoldsPart(s))
  {
    var u := Raised(s);
    HoldsInTurn(s); HoldsInTurn(u);
    hide HoldsPart;
    if Deaf(s) {
      RaisedSleep(s);
    } else {
      hide Decelerate, CancelMotion, FeedHold, DoorOpens, GoToSleep;
      RaisedDecelerate(s);
      var a := Decelerate(s); RaisedCancel(a);
      var b := CancelMotion(a); RaisedFeedHold(b);
      var c := FeedHold(b); RaisedDoor(c);
      RaisedSleep(DoorOpens(c));
    }
  }

  lemma RaisedDecelerate(s: State)
    ensures Decelerate(Raised(s)) == Raised(Decelerate(s))
  {
    var p := if Moving(s) && s.mode == JOG && !s.seen.sleep then s.suspend.(jogCancel := true)
             else if s.mode == IDLE then HELD else s.suspend;
    DecelerateIs(s, p); DecelerateIs(Raised(s), p);
    hide *;
    RaisedUpdate(s, s.mode, p, s.hold || Moving(s));
    SameMoving(s);
  }

  lemma SameMoving(s: State)
    ensures Moving(Raised(s)) == Moving(s) && Raised(s).hold == s.hold
  {
  }

  lemma DecelerateIs(s: State, p: Suspend)
    requires p == if Moving(s) && s.mode == JOG && !s.seen.sleep then s.suspend.(jogCancel := true)
                  else if s.mode == IDLE then HELD else s.suspend
    ensures Decelerate(s) == s.(suspend := p, hold := s.hold || Moving(s))
  {
  }

  lemma RaisedCancel(s: State)
    ensures CancelMotion(Raised(s)) == Raised(CancelMotion(s))
  {
  }

  lemma RaisedFeedHold(s: State)
    ensures FeedHold(Raised(s)) == Raised(FeedHold(s))
  {
  }

  lemma RaisedDoor(s: State)
    ensures DoorOpens(Raised(s)) == Raised(DoorOpens(s))
  {
    hide Reopens, EntersDoor;
    RaisedReopens(s);
    RaisedEnters(Reopens(s));
  }

  lemma RaisedReopens(s: State)
    ensures Reopens(Raised(s)) == Raised(Reopens(s))
  {
    var p := Reopens(s).suspend;
    ReopensLeads(s); ReopensLeads(Raised(s));
    SameReopens(s);
    hide *;
    RaisedSuspend(s, p);
  }

  lemma SameReopens(s: State)
    ensures Reopens(Raised(s)).suspend == Reopens(s).suspend
  {
  }

  lemma RaisedSuspend(s: State, p: Suspend)
    ensures Raised(s).(suspend := p) == Raised(s.(suspend := p))
  {
  }

  lemma RaisedEnters(s: State)
    ensures EntersDoor(Raised(s)) == Raised(EntersDoor(s))
  {
  }

  lemma RaisedSleep(s: State)
    ensures GoToSleep(Raised(s)) == Raised(GoToSleep(s))
  {
  }

  lemma RaisedStart(s: State)
    requires s.at == START
    ensures StartPart(Raised(s)) == Raised(StartPart(s))
  {
    hide StartPart;
    StartLeads(s); StartLeads(Raised(s));
  }

  lemma RaisedStop(s: State)
    requires s.at == STOP
    ensures StopPart(Raised(s)) == Raised(StopPart(s))
  {
    hide MotionDone, FlushJog, HoldDone, Holding, Raised;
    RaisedFlush(s);
    RaisedDone(FlushJog(s));
    RaisedHoldDone(s);
    RaisedPoint(s, OUTSIDE); RaisedPoint(HoldDone(s), CLEAR_STOP); RaisedPoint(MotionDone(FlushJog(s)), CLEAR_STOP);
  }

  lemma RaisedPoint(s: State, at: Point)
    ensures Raised(s).(at := at) == Raised(s.(at := at)) && Raised(s).seen == s.seen && Raised(s).at == s.at
  {
  }

  lemma RaisedFlush(s: State)
    ensures FlushJog(Raised(s)) == Raised(FlushJog(s)) && Holding(Raised(s)) == Holding(s)
  {
  }

  lemma RaisedDone(s: State)
    ensures MotionDone(Raised(s)) == Raised(MotionDone(s))
  {
    DoneLeads(s); DoneLeads(Raised(s));
    hide MotionDone;
    var m := if s.suspend.doorAjar then SAFETY_DOOR else IDLE;
    var p := if s.suspend.doorAjar then s.suspend.(jogCancel := false, holdComplete := true) else RUNNING;
    assert MotionDone(s) == s.(mode := m, suspend := p);
    assert MotionDone(Raised(s)) == Raised(s).(mode := m, suspend := p);
    hide *;
    RaisedUpdate(s, m, p, s.hold);
  }

  lemma RaisedUpdate(s: State, m: Mode, p: Suspend, h: bool)
    ensures Raised(s).(mode := m, suspend := p) == Raised(s.(mode := m, suspend := p))
    ensures Raised(s).(suspend := p, hold := h) == Raised(s.(suspend := p, hold := h))
  {
  }

  lemma RaisedHoldDone(s: State)
    ensures HoldDone(Raised(s)) == Raised(HoldDone(s))
  {
  }

  /** A feed hold raised after a call has looked at the flags waits for the next one, unless the call is about to
      clear the flags of the hold commands it has seen: then it is as if it had never been raised. */
  lemma {:induction false} RaisedDuringCall(s: State)
    requires s.at in {HOLDS, CLEAR_HOLDS, START, WAKE, CLEAR_START, STOP, CLEAR_STOP}
    ensures AboutToClear(s) ==> Finish(Raised(s)) == Finish(s)
    ensures !AboutToClear(s) ==> Finish(Raised(s)) == Raised(Finish(s))
    decreases Rank(s.at)
  {
    var t := StepOn(s);
    FinishStep(s); FinishStep(Raised(s));
    RankFalls(s);
    WhereNext(s);
    hide Finish, StepOn, Rank, AboutToClear, Raised;
    if s.at == CLEAR_HOLDS {
      ClearsRaised(s);
    } else {
      RaisedStep(s);
      if t.at == OUTSIDE {
        Outside(s);
        Finished(t); Finished(Raised(t));
      } else {
        RaisedDuringCall(t);
      }
    }
  }

  lemma Outside(s: State)
    ensures Rank(OUTSIDE) == 0 && Raised(s).at == s.at
  {
  }

  lemma ClearsRaised(s: State)
    requires s.at == CLEAR_HOLDS
    ensures StepOn(Raised(s)) == StepOn(s) && AboutToClear(s)
  {
  }

  lemma WhereNext(s: State)
    requires s.at in {HOLDS, CLEAR_HOLDS, START, WAKE, CLEAR_START, STOP, CLEAR_STOP}
    ensures Rank(s.at) > 0 && Rank(Raised(s).at) > 0
    ensures var t := StepOn(s);
            && t.at in {CLEAR_HOLDS, START, WAKE, CLEAR_START, STOP, CLEAR_STOP, OUTSIDE}
            && (s.at != CLEAR_HOLDS ==> (AboutToClear(t) <==> AboutToClear(s)))
  {
    hide HoldsPart, StartPart, StopPart, AlarmPart, SnapshotPart;
    StartAt(s); StopAt(s);
    if s.at == HOLDS { if AnyHold(s.seen) { HoldsLead(s); } else { NoHoldsSeen(s); } }
  }

  // ---- from an open door and from a soft limit ----------------------------------------------------------

  /** A call that is to see the flags f and no alarm. */
  predicate Sees(s: State, f: Flags) {
    s.at == CALLED && s.alarm == NO_ALARM && s.rt == f && !f.reset && f != NONE
  }

  lemma Begins(s: State, f: Flags)
    requires Sees(s, f)
    ensures Finish(s) == Finish(s.(seen := f, at := HOLDS))
  {
    FinishStep(s); FinishStep(s.(at := SNAPSHOT));
    hide Finish, HoldsPart, StartPart, StopPart;
  }

  lemma BeginsStart(s: State)
    requires Sees(s, NONE.(cycleStart := true))
    ensures Finish(s) == Finish(StartPart(s.(seen := s.rt, at := START)))
  {
    Begins(s, s.rt);
    var u := s.(seen := s.rt, at := HOLDS);
    NoHolds(u);
    FinishStep(u); FinishStep(u.(at := START));
    hide Finish, HoldsPart, StartPart, StopPart;
  }

  lemma EndsStart(s: State)
    requires s.at == CLEAR_START && !s.seen.cycleStop
    ensures Finish(s) == s.(rt := s.rt.(cycleStart := false), at := OUTSIDE)
  {
    var u := s.(rt := s.rt.(cycleStart := false), at := STOP);
    FinishStep(s); FinishStep(u);
    NoStop(u);
    Finished(u.(at := OUTSIDE));
    hide Finish, HoldsPart, StartPart, StopPart;
  }

  lemma EndsWake(s: State)
    requires s.at == WAKE && !s.seen.cycleStop
    ensures Finish(s) == s.(on := true, rt := s.rt.(cycleStart := false), at := OUTSIDE)
  {
    FinishStep(s);
    EndsStart(s.(on := true, at := CLEAR_START));
    hide Finish, HoldsPart, StartPart, StopPart;
  }

  /** The machine held with the door open. */
  predicate Ajar(s: State) {
    && s.at == OUTSIDE && s.rt == NONE && s.alarm == NO_ALARM && s.mode == SAFETY_DOOR && !s.on && !s.hold
    && s.suspend == RUNNING.(doorAjar := true, holdComplete := true, restartRetract := s.suspend.restartRetract)
  }

  predicate Retracted(s: State) {
    && s.at == OUTSIDE && s.rt == NONE && s.alarm == NO_ALARM && s.mode == SAFETY_DOOR && !s.on && !s.hold
    && s.suspend == RUNNING.(doorAjar := true, holdComplete := true, retractComplete := true)
  }

  /** A cycle start is given and the next call sees it. */
  function Started(s: State): State
    requires s.at == OUTSIDE
  {
    Finish(Next(Next(s, RaiseStart), Call))
  }

  /** The tool is retracted; while the door is open a cycle start does nothing; once it has closed, one restores
      power, and then the moves go on where they were. */
  lemma DoorResumes(s: State)
    requires Ajar(s)
    ensures Enabled(s, Retract)
    ensures var r := Next(s, Retract);
            && Retracted(r) && Enabled(r, DoorCloses) && Started(r) == r.(seen := NONE.(cycleStart := true))
            && var b := Started(Next(r, DoorCloses));
               && Enabled(b, Restore) && b.mode == SAFETY_DOOR && !b.on
               && var d := Finish(Next(Next(b, Restore), Call));
                  && d.at == OUTSIDE && d.rt == NONE && d.suspend == RUNNING && d.queued == s.queued
                  && d.mode == (if s.queued then CYCLE else IDLE) && d.on == s.queued
  {
    hide Finish, StartPart;
    var r := Next(s, Retract);
    StaysShut(r);
    var a := Next(r, DoorCloses);
    BeginsToRestore(a);
    GoesOn(Started(a));
  }

  lemma StaysShut(s: State)
    requires Retracted(s)
    ensures Started(s) == s.(seen := NONE.(cycleStart := true))
  {
    hide Finish, StartPart;
    var c := Next(Next(s, RaiseStart), Call);
    BeginsStart(c);
    var u := c.(seen := c.rt, at := START);
    StartLeads(u);
    EndsStart(u.(at := CLEAR_START));
  }

  lemma BeginsToRestore(a: State)
    requires a.at == OUTSIDE && a.rt == NONE && a.alarm == NO_ALARM && a.mode == SAFETY_DOOR
    requires a.suspend == RUNNING.(holdComplete := true, retractComplete := true)
    ensures Started(a) == a.(seen := NONE.(cycleStart := true), suspend := a.suspend.(initiateRestore := true))
  {
    hide Finish, StartPart;
    var c := Next(Next(a, RaiseStart), Call);
    BeginsStart(c);
    var u := c.(seen := c.rt, at := START);
    StartLeads(u);
    EndsStart(u.(suspend := u.suspend.(initiateRestore := true), at := CLEAR_START));
  }

  lemma GoesOn(b: State)
    requires b.at == OUTSIDE && b.rt == NONE && b.alarm == NO_ALARM && b.mode == SAFETY_DOOR && !b.on && !b.hold
    requires b.suspend == RUNNING.(holdComplete := true, retractComplete := true, initiateRestore := true)
    ensures Enabled(b, Restore)
    ensures var d := Finish(Next(Next(b, Restore), Call));
            && d.at == OUTSIDE && d.rt == NONE && d.suspend == RUNNING && d.queued == b.queued
            && d.mode == (if b.queued then CYCLE else IDLE) && d.on == b.queued
  {
    hide Finish, StartPart;
    var c := Next(Next(b, Restore), Call);
    BeginsStart(c);
    var u := c.(seen := c.rt, at := START);
    StartLeads(u);
    if b.queued { EndsWake(StartPart(u)); } else { EndsStart(StartPart(u)); }
  }

  lemma EndsHolds(s: State)
    requires s.at == CLEAR_HOLDS && !s.seen.cycleStart && !s.seen.cycleStop
    ensures Finish(s) == s.(rt := s.rt.(motionCancel := false, feedHold := false, safetyDoor := false, sleep := false),
                            at := OUTSIDE)
  {
    var u := s.(rt := s.rt.(motionCancel := false, feedHold := false, safetyDoor := false, sleep := false),
                at := START);
    FinishStep(s); FinishStep(u); FinishStep(u.(at := STOP));
    NoStart(u); NoStop(u.(at := STOP));
    Finished(u.(at := OUTSIDE));
    hide Finish, HoldsPart, StartPart, StopPart;
  }

  lemma OnlyStop(s: State)
    requires Sees(s, NONE.(cycleStop := true))
    ensures var t := StopPart(s.(seen := s.rt, at := STOP));
            t.at == CLEAR_STOP && Finish(s) == t.(rt := t.rt.(cycleStop := false), at := OUTSIDE)
  {
    Begins(s, s.rt);
    var u := s.(seen := s.rt, at := HOLDS);
    NoHolds(u); NoStart(u.(at := START));
    FinishStep(u); FinishStep(u.(at := START));
    EndsStop(u.(at := STOP));
    hide Finish, HoldsPart, StartPart, StopPart, StepOn;
  }

  lemma EndsStop(s: State)
    requires s.at == STOP && s.seen.cycleStop
    ensures var t := StopPart(s);
            t.at == CLEAR_STOP && Finish(s) == t.(rt := t.rt.(cycleStop := false), at := OUTSIDE)
  {
    var t := StopPart(s);
    StopLeads(s);
    FinishStep(s); FinishStep(t);
    Finished(t.(rt := t.rt.(cycleStop := false), at := OUTSIDE));
    hide Finish, HoldsPart, StartPart, StopPart;
  }

  /** The machine in a cycle with nothing pending. */
  predicate Cycling(s: State) {
    s.at == OUTSIDE && s.rt == NONE && s.alarm == NO_ALARM && s.mode == CYCLE && s.on && s.suspend == RUNNING
    && !s.spindleStop
  }

  /** A target beyond the travel found in a cycle: the motion is braked as in a hold, but at its end the machine is
      idle and then locked until a reset, with the steppers off. */
  lemma SoftLimitLeads(s: State)
    requires Cycling(s)
    ensures Enabled(s, SoftLimitHit)
    ensures var a := Finish(Next(Next(s, SoftLimitHit), Call));
            && a.at == OUTSIDE && a.mode == HOLD && a.hold && a.on && a.rt == NONE && !a.suspend.holdComplete
            && var b := Finish(Next(Next(a, StepperDone), Call));
               && b.at == OUTSIDE && b.mode == IDLE && b.suspend == RUNNING && !b.on
               && Enabled(b, SoftLimitTrip)
               && var d := Finish(Next(b, SoftLimitTrip));
                  d.at == CRITICAL_LOOP && d.mode == ALARM && !d.on && !Enabled(d, Step)
  {
    hide Finish, HoldsPart, StopPart;
    Brakes(s);
    var a := Finish(Next(Next(s, SoftLimitHit), Call));
    Halts(a);
    Locks(Finish(Next(Next(a, StepperDone), Call)));
  }

  lemma Brakes(s: State)
    requires Cycling(s)
    ensures var a := Finish(Next(Next(s, SoftLimitHit), Call));
            && a.at == OUTSIDE && a.mode == HOLD && a.hold && a.on && a.rt == NONE && a.alarm == NO_ALARM && a.softLimit
            && !a.suspend.holdComplete && !a.suspend.jogCancel && !a.suspend.doorAjar
  {
    hide Finish, HoldsPart;
    var c := Next(Next(s, SoftLimitHit), Call);
    Begins(c, c.rt);
    var u := c.(seen := c.rt, at := HOLDS);
    FinishStep(u);
    HoldsLead(u);
    EndsHolds(HoldsPart(u));
  }

  lemma Halts(a: State)
    requires a.at == OUTSIDE && a.mode == HOLD && a.on && a.rt == NONE && a.alarm == NO_ALARM && a.softLimit
    requires !a.suspend.jogCancel && !a.suspend.doorAjar
    ensures var b := Finish(Next(Next(a, StepperDone), Call));
            b.at == OUTSIDE && b.mode == IDLE && b.suspend == RUNNING && !b.on && b.softLimit && b.rt == NONE
  {
    hide Finish, StopPart;
    var c := Next(Next(a, StepperDone), Call);
    OnlyStop(c);
    StopLeads(c.(seen := c.rt, at := STOP));
  }

  lemma Locks(b: State)
    requires b.at == OUTSIDE && b.mode == IDLE && b.suspend == RUNNING && !b.on && b.softLimit && b.rt == NONE
    ensures Enabled(b, SoftLimitTrip)
    ensures var d := Finish(Next(b, SoftLimitTrip)); d.at == CRITICAL_LOOP && d.mode == ALARM && !d.on && !d.rt.reset
  {
    hide Finish;
    var c := Next(b, SoftLimitTrip);
    FinishStep(c);
    Finished(StepOn(c));
  }
}
