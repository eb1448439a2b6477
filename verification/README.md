# Verification of a CoreXY pen plotter

The repository drives a pen plotter from a drawing tablet. A Java program turns timed pen strokes into
g-code and streams it over a serial line; the Grbl firmware, in its CoreXY configuration with adaptive
step smoothing, parses the lines, plans the motion and generates the step pulses. This project models
the parts where that chain keeps state, and proves what they promise. `dafny verify dfyconfig.toml`
checks all of it.

Code that works by changing variables is a class here, or a method over an array, proved against a
specification on values. What the code is for is then proved about the specification, over every input,
every run or every interleaving.

- **Planner** (`PlannerSpec`, `Planner`): the look-ahead planner's ring of blocks. The incremental passes
  compute the plan a from-scratch computation would, and that plan is feasible and the fastest possible.
- **Segment generation** (`Prep`, `Timing`, `Generator`): velocity profiles, the segments cut from them in
  operation, in holds and after re-planning, and the time these account for.
- **Stepping** (`Bresenham`, `StepQueue`, `Stepper`): the two rings between main program and interrupt, and
  the line tracer, as a refinement of an unbounded queue.
- **CoreXY** (`Machine`, `CoreXY`, `Limits`): planner and stepper joined, from the target of a move to the
  motor positions, and the position rewriting of a homing cycle.
- **Streaming** (`Streaming`, `SerialLink`): the character-counting protocol between host and firmware.
- **Realtime control** (`Realtime`, `Protocol`): hold, resume, door, cancel, sleep, alarm and reset, with
  flags raised by interrupts at any moment.
- **G-code** (`Words`, `Numbers`, `GCode`, `Eeprom`, `Lines`): the word loop, numbers as text, the work
  coordinate system as a cache of checksummed records, and whole lines of text.
- **Strokes** (`Strokes`): from timed points to pen commands.

Some of what one would expect does not hold, and the exact conditions are stated instead:

- The planner's skip of blocks at their maximum need not be sound after an override has lowered a maximum
  (`SkipIffSound`, `OverrideBreaksSkip`).
- A reset that arrives between the copying of the flags and st_wake_up leads to a restart while the
  steppers run (`RestartSafeIffOff`, `RunsAtAbortIffLate`, `LateResetRestartsRunning`).
- A feed hold raised between the copying of the flags and the clearing of hold commands seen with them is
  cleared unseen (`RaisedDuringCall`).
- The EEPROM checksum combines its two shifts with a logical or, so that a running sum becomes 0 or 1
  before each addition; it notices little (`WhatIsNoticed`, `DamagedCoordinates`).
- Ending a program in check mode leaves the offset cache behind (`CacheAgrees`, `EndInCheckMode`), and so
  does a `G10` at a record damaged meanwhile (`DamagedRecord`, `DataAfterDamage`).
- An end of program that finds the record of G54 damaged stays pending and ends the program again with the
  next line (`LeftPending`, `EndsAgain`, `EndRepeated`).
- Command numbers are recognised modulo 16384, negative ones too (`CommandExact`, `AliasedCommands`).
- A point with the time stamp of the head takes the head mark away, and the stroke is drawn without
  lowering the pen; a tail earlier than its stroke leaves the pen down (`HeadKeptIff`, `StrokePen`,
  `PenStaysUp`, `PenLeftDown`).
- When an override has reduced speeds so that the executing block can no longer brake to its planned exit
  speed, the velocity profile is not in order, although the source's comment says that it is guaranteed to
  intersect the updated plan (`ComputeProfile`, `Overridden`, `OverriddenTooLate`, `ExitInReach`,
  `OverrideLeavesTooLittle`).
- The segment generator's inner loop takes the time of a ramp to the maximum speed from the start of the
  segment. If the ramp ends in a later pass, the segment counts too much time, and a pass may even be given
  a negative one and go backward (`TimesAddUp`, `RunsBackIff`, `ClockRunsBack`); distances and speeds are
  right at the end of every segment all the same (`PassOn`, `PrepSegment`). The source's comment that the
  acceleration ramp is only computed in the first pass does not hold.

## Model

| member | source | states |
|---|---|---|
| PlannerSpec.PlanIsGreatest | grbl1_1/grbl-master-coreXY-servo/grbl/planner.c:69-86 | Optimality: any speed profile that starts at the executing block's speed, respects every junction maximum and every acceleration limit and can stop at the end is, at every junction, at most as fast as the plan. |
| PlannerSpec.PlanIsFeasible | grbl1_1/grbl-master-coreXY-servo/grbl/planner.c:69-86 | The plan is itself such a profile if and only if the executing block can brake in time, which is also exactly when any such profile exists. |
| PlannerSpec.SkipIffSound | grbl1_1/grbl-master-coreXY-servo/grbl/planner.c:155-165 | The reverse pass that skips blocks already at their maximum equals the pass without the skip if and only if every skipped block could really be entered at its stored maximum: braking over the reaches in between it meets every later maximum, and stops by the end of the queue. |
| PlannerSpec.OverrideBreaksSkip | grbl1_1/grbl-master-coreXY-servo/grbl/planner.c:284-298 | Lowering a maximum of a queue in order, as an override does, can break that condition: from a concrete planned queue a block is skipped, keeps 90 where the optimum is 30, and the result cannot be followed. |
| PlannerSpec.StaleIsSound | grbl1_1/grbl-master-coreXY-servo/grbl/planner.c:155-165 | Entry speeds left by any earlier, slower plan never fool the skip. |
| PlannerSpec.IncrementalIsFull | grbl1_1/grbl-master-coreXY-servo/grbl/planner.c:126-196 | With sound skips the two coded passes compute the from-scratch optimum at every block of the window. |
| PlannerSpec.FullAccelerationAtPlanned | grbl1_1/grbl-master-coreXY-servo/grbl/planner.c:180-187 | The full-acceleration case fires only right behind the planned block, so moving the pointer there jumps over nothing. |
| PlannerSpec.PlannedIsPinned | grbl1_1/grbl-master-coreXY-servo/grbl/planner.c:180-193 | Wherever the forward pass leaves the planned pointer, that block is pinned: no later block can change its speed. |
| PlannerSpec.FrozenPrefix | grbl1_1/grbl-master-coreXY-servo/grbl/planner.c:177-193 | Appending any blocks at all leaves the optimal plan up to a pinned block unchanged, and the block pinned. |
| PlannerSpec.AppendPlan | grbl1_1/grbl-master-coreXY-servo/grbl/planner.c:464-469 | One append and re-planning from the pointer on gives the from-scratch plan of the longer queue, changes nothing up to the pointer, and leaves a pinned pointer. |
| PlannerSpec.StreamIsPlan | grbl1_1/grbl-master-coreXY-servo/grbl/planner.c:126-196 | Over a stream of appends, moreover, nothing at or before the pointer ever moves, and the stored speeds are those of a from-scratch plan of the whole queue. |
| PlannerSpec.AnyRunIsPlan | grbl1_1/grbl-master-coreXY-servo/grbl/planner.c:126-196 | Incremental equals full over any run of appends, discards, progress in the tail, holds and resumes, in any order: whenever no hold is in progress the stored speeds are those of a from-scratch plan and the greatest feasible ones, and at any moment braking enters every block at or below its stored speed and stops by the end. |
| PlannerSpec.DiscardPlan | grbl1_1/grbl-master-coreXY-servo/grbl/planner.c:215-223 | Discarding the tail block leaves a queue that stores its own optimal plan, with the pointer pushed along. |
| PlannerSpec.ProgressPlan | grbl1_1/grbl-master-coreXY-servo/grbl/stepper.c:981-983 | Executing part of the tail block, at any speed from which both the exit and the entry speed can be met, leaves the rest of the plan optimal. |
| PlannerSpec.ResumePlan | grbl1_1/grbl-master-coreXY-servo/grbl/planner.c:516-522 | After a hold, re-planning from the tail gives the from-scratch plan for the speed the hold has left, whatever blocks were consumed or added meanwhile. |
| PlannerSpec.AppendHeld | grbl1_1/grbl-master-coreXY-servo/grbl/planner.c:464-469 | A block queued while a hold decelerates leaves a queue that can still stop. |
| PlannerSpec.HoldStopsInTime | grbl1_1/grbl-master-coreXY-servo/grbl/stepper.c:688-700 | Feed hold: from any feasible plan and any speed inside the executing block, a forced deceleration enters every later block at or below its planned speed and has stopped at the end of the buffer. |
| PlannerSpec.QueueOkIsBest | grbl1_1/grbl-master-coreXY-servo/grbl/planner.c:69-86 | The speeds a queue in order stores are feasible and the greatest feasible ones. |
| PlannerSpec.ExitReachable | grbl1_1/grbl-master-coreXY-servo/grbl/planner.c:241-246 | The exit speed handed to the segment generator can be reached from the entry speed, and is the planned speed of the next junction. |
| PlannerSpec.ExitInReach | grbl1_1/grbl-master-coreXY-servo/grbl/planner.c:241-246 | For any re-planned queue the length suffices for that if and only if the executing block can brake in time at all. |
| PlannerSpec.OverrideLeavesTooLittle | grbl1_1/grbl-master-coreXY-servo/grbl/planner.c:284-298 | An override can leave too little: a concrete planned queue, all speeds halved, whose executing block can still come down to nominal speed but no longer to its planned exit speed. |
| Planner.PlannerState.ReversePass | grbl1_1/grbl-master-coreXY-servo/grbl/planner.c:137-167 | The loop over the ring writes exactly the skipping reverse pass over the window, and releases the executing block if and only if it reaches the tail. |
| Planner.PlannerState.ForwardPass | grbl1_1/grbl-master-coreXY-servo/grbl/planner.c:171-195 | The loop over the ring writes exactly the forward pass and leaves the planned pointer where the specification puts it. |
| Planner.PlannerState.Recalculate | grbl1_1/grbl-master-coreXY-servo/grbl/planner.c:126-196 | planner_recalculate on the ring, for every position of head, tail and planned pointer, refines the two passes over the window. |
| Planner.PlannerState.Replan | grbl1_1/grbl-master-coreXY-servo/grbl/planner.c:126-196 | The same seen on the queue: re-planned from the planned pointer on, motor moves untouched. |
| Planner.PlannerState.PlanBufferLine | grbl1_1/grbl-master-coreXY-servo/grbl/planner.c:315-472 | A new move is rejected if and only if no motor would turn; otherwise the queue grows by exactly the CoreXY move and stores the from-scratch optimal plan, the planner position becomes the target, and nothing at or before the pointer changes; the nominal speed the move is queued with is the one it asks for. During a hold the queue stays stoppable. |
| Planner.PlannerState.PrepareBlock | grbl1_1/grbl-master-coreXY-servo/grbl/planner.c:315-452 | The new block's steps and directions are the CoreXY image of the displacement, with a zero entry maximum if the buffer is empty or it is a system motion. |
| Planner.RateAsAsked | grbl1_1/grbl-master-coreXY-servo/grbl/planner.c:259-269 | The nominal speed is the one the move asks for: a rapid runs at the rapid rate scaled by the rapid override; a feed move at its feed rate, and an inverse-time move as fast as takes 1/F minutes, both scaled by the feed override unless that is off for the move; and it is kept between the minimum and the rapid rate where the code keeps it. |
| Planner.InverseTime | grbl1_1/grbl-master-coreXY-servo/grbl/planner.c:392-396 | Within the rate limits and at 100 percent an inverse-time move takes exactly 1/F minutes. |
| Planner.MaxEntryPaced | grbl1_1/grbl-master-coreXY-servo/grbl/planner.c:274-280 | The entry maximum is the least of the junction limit and the squares of this and the previous nominal speed. |
| Planner.PlannerState.PlanDiscardCurrentBlock | grbl1_1/grbl-master-coreXY-servo/grbl/planner.c:215-223 | Drops exactly the tail, keeps the stored plan optimal, and does nothing to an empty buffer. |
| Planner.PlannerState.PlanGetExecBlockExitSpeedSqr | grbl1_1/grbl-master-coreXY-servo/grbl/planner.c:241-246 | Returns the planned speed of the second block, or zero if there is none. |
| Planner.PlannerState.PlanCycleReinitialize | grbl1_1/grbl-master-coreXY-servo/grbl/planner.c:516-522 | From any state a hold can leave, the queue afterwards stores the from-scratch optimal plan for the present speed. |
| Planner.PlannerState.PlanSyncPosition | grbl1_1/grbl-master-coreXY-servo/grbl/planner.c:476-494 | The planner position becomes the machine position read from the motors; queue and plan stay. |
| Planner.PlannerState.StRelease | grbl1_1/grbl-master-coreXY-servo/grbl/stepper.c:534-541 | Releasing the executing block writes its current speed back, which leaves queue, plan and moves as they were seen before. |
| Planner.PlannerState.StTakeHeldBlock | grbl1_1/grbl-master-coreXY-servo/grbl/stepper.c:657-664 | A block entered during a hold takes over the speed of the block before instead of the planned one. |
| Bresenham.ShiftIsExact | grbl1_1/grbl-master-coreXY-servo/grbl/stepper.c:644-648 | Because the data are stored times eight, shifting them back by any smoothing level loses nothing. |
| Bresenham.CutsOnTrack | grbl1_1/grbl-master-coreXY-servo/grbl/stepper.c:388-421 | Any sequence of segments, each with its own smoothing level, keeps an axis on the ideal line. |
| Bresenham.DriftAtStep | grbl1_1/grbl-master-coreXY-servo/grbl/stepper.c:388-421 | After t base steps the pulses of an axis differ from the ideal line by at most half a step. |
| Bresenham.Exact | grbl1_1/grbl-master-coreXY-servo/grbl/stepper.c:353-421 | After all base steps an axis has pulsed exactly its steps and its counter is back at its start value. |
| Bresenham.ExactStepOutput | grbl1_1/grbl-master-coreXY-servo/grbl/stepper.c:353-426 | Both, for every split of a block into segments with arbitrary smoothing levels. |
| StepQueue.LoadOrder | grbl1_1/grbl-master-coreXY-servo/grbl/stepper.c:60-74 | When a block is loaded, at most four blocks are still needed, so a fifth slot is free although the segment ring has six. |
| StepQueue.LoadSlotFree | grbl1_1/grbl-master-coreXY-servo/grbl/stepper.c:632-637 | The slot a new block is written to belongs to no block that a waiting or running segment refers to. |
| StepQueue.SlotsDistinct | grbl1_1/grbl-master-coreXY-servo/grbl/stepper.c:545-550 | Two blocks still needed never share a slot. |
| StepQueue.IndexTellsBlock | grbl1_1/grbl-master-coreXY-servo/grbl/stepper.c:346-354 | Comparing slot indices, as the interrupt does, tells a new block from the one being traced. |
| StepQueue.BlockComplete | grbl1_1/grbl-master-coreXY-servo/grbl/stepper.c:346-354 | The tracer leaves a block only when every axis has pulsed exactly its steps. |
| StepQueue.NextInv | grbl1_1/grbl-master-coreXY-servo/grbl/stepper.c:308-435 | The invariant of generator and interrupt is kept by every load, every committed segment and every tick, in any order. |
| StepQueue.SegmentsAddUp | grbl1_1/grbl-master-coreXY-servo/grbl/stepper.c:913-929 | Segment conservation over any run: the base steps of a block's segments add up to its step events, the newest block owing what remains. |
| StepQueue.DrainedPosition | grbl1_1/grbl-master-coreXY-servo/grbl/stepper.c:308-435 | Over any run, once nothing is left to do the motors stand exactly where the loaded blocks lead. |
| StepQueue.TicksAddUp | grbl1_1/grbl-master-coreXY-servo/grbl/stepper.c:308-435 | Over any run the interrupts that have come and those still owed add up to what the smoothing levels of the committed segments ask for, everything committed is traced exactly when all of them have come, and they are at most eight for each step event loaded. |
| Stepper.StepperState.constructor | grbl1_1/grbl-master-coreXY-servo/grbl/stepper.c:482-503 | st_reset establishes the invariant at any motor position. |
| Stepper.StepperState.LoadBlock | grbl1_1/grbl-master-coreXY-servo/grbl/stepper.c:629-655 | Writing one slot of the five-slot array refines loading a block into the unbounded queue. |
| Stepper.StepperState.CommitSegment | grbl1_1/grbl-master-coreXY-servo/grbl/stepper.c:954-982 | Writing one slot of the six-slot ring refines appending a segment. |
| Stepper.StepperState.FetchSegment | grbl1_1/grbl-master-coreXY-servo/grbl/stepper.c:332-362 | Taking up the tail segment refines the abstract fetch, counters being re-initialised exactly when a new block begins. |
| Stepper.StepperState.TraceTick | grbl1_1/grbl-master-coreXY-servo/grbl/stepper.c:385-431 | One pass of the tracer over counters, positions, step count and tail index refines the abstract step. |
| Stepper.StepperState.Timer1CompA | grbl1_1/grbl-master-coreXY-servo/grbl/stepper.c:308-435 | The whole interrupt: with a segment at hand one tick of the queue, otherwise off, with the end of the cycle flagged and nothing else changed. |
| Stepper.FetchFacts | grbl1_1/grbl-master-coreXY-servo/grbl/stepper.c:346-362 | What the interrupt finds in the slot it is pointed to is the data of the very block the segment was cut from. |
| Prep.PrepState.ComputeProfile | grbl1_1/grbl-master-coreXY-servo/grbl/stepper.c:701-769 | In every case (trapezoid, cruise, triangle, one ramp, and both kinds of deceleration after an override) the exit speed is the planned one, or, if even nominal speed is out of reach, the one full braking leads to. The profile is in order if and only if that is so or the length suffices to brake to the planned exit speed, and then it is, everywhere in the block, as fast as nominal speed, acceleration from the entry speed and braking to the exit speed allow. |
| Prep.NoneIsFaster | grbl1_1/grbl-master-coreXY-servo/grbl/stepper.c:701-769 | No way through the block that enters and leaves it at the given speeds, keeps the acceleration limit both ways and nominal speed (or, entered above that, brakes fully) is anywhere faster than this. |
| Prep.BestIsAdmissible | grbl1_1/grbl-master-coreXY-servo/grbl/stepper.c:701-769 | It is such a way itself, so that nothing could be faster and in order. |
| Prep.PeaksIsBest | grbl1_1/grbl-master-coreXY-servo/grbl/stepper.c:744-769 | A profile in order is that fast at every point if its peak is nominal speed or the meeting point of its ramps. |
| Prep.Overridden | grbl1_1/grbl-master-coreXY-servo/grbl/stepper.c:736-742 | After an override: braking to nominal speed and going on from there is a profile in order if and only if the length suffices to brake to the exit speed. |
| Prep.OverriddenTooLate | grbl1_1/grbl-master-coreXY-servo/grbl/stepper.c:835-848 | Otherwise the cruise that follows runs backward in negative time, to where braking should have begun. |
| Prep.PrepState.ComputeHoldProfile | grbl1_1/grbl-master-coreXY-servo/grbl/stepper.c:686-700 | In a hold the profile brakes from the present speed, to a standstill in this block or to the speed braking leaves at its end. |
| Prep.Trapezoid | grbl1_1/grbl-master-coreXY-servo/grbl/stepper.c:744-753 | The trapezoid and the cruise case: acceleration ends at nominal speed, and braking from the stated point meets the exit speed. |
| Prep.Triangle | grbl1_1/grbl-master-coreXY-servo/grbl/stepper.c:754-758 | The triangle case: the ramps meet at a peak not above nominal. |
| Prep.PrepState.RampPass | grbl1_1/grbl-master-coreXY-servo/grbl/stepper.c:805-865 | One pass of the ramp switch takes the stated step of the profile, in order or not. |
| Prep.PrepState.FillSegment | grbl1_1/grbl-master-coreXY-servo/grbl/stepper.c:796-878 | The inner loop ends for every profile, also one that a late override has left out of order, and its passes are those of the ramp switch, each given the time left of the segment or a further segment time, until the time is used up with a whole step covered or the profile is complete; its time is the sum of theirs. With the profile in order every pass stays on it. |
| Prep.PassOn | grbl1_1/grbl-master-coreXY-servo/grbl/stepper.c:805-865 | Every pass stays on the profile, and the speed reached can still meet the exit speed in the length left. |
| Prep.PassProgresses | grbl1_1/grbl-master-coreXY-servo/grbl/stepper.c:866-878 | The inner loop makes progress: a pass changes to a later ramp or, given a full segment time, covers a minimal distance. |
| Prep.EndOnCurve | grbl1_1/grbl-master-coreXY-servo/grbl/stepper.c:805-878 | However many passes a segment takes, it ends at exactly the speed the profile has there. |
| Timing.TimesAddUp | grbl1_1/grbl-master-coreXY-servo/grbl/stepper.c:805-878 | For a segment that starts on a ramp to the maximum speed, accelerating or slowing down after an override, the time the loop accounts for is the time the motion takes if and only if that ramp does not end in a second or later pass of the segment, a condition on speeds and lengths at its start; otherwise it is too long. |
| Timing.TimesAddUpLater | grbl1_1/grbl-master-coreXY-servo/grbl/stepper.c:835-878 | For every segment that starts cruising or braking the two times are equal. |
| Timing.RunsBackIff | grbl1_1/grbl-master-coreXY-servo/grbl/stepper.c:805-878 | Some pass of the loop is given a negative time if and only if such a ramp ends with more than a step to go and the length up to its end exceeds two segment times at the mean speed of its last part. |
| Timing.ClockRunsBack | grbl1_1/grbl-master-coreXY-servo/grbl/stepper.c:805-878 | It happens: from rest at 10 mm/s^2 with 100 steps per millimeter, a ramp that ends four and a half segment times on makes the sixth pass go backward. |
| Prep.PrepState.PrepSegment | grbl1_1/grbl-master-coreXY-servo/grbl/stepper.c:796-982 | Every segment ends in the block with at least one whole step, unless a hold ends with less than one left. With the profile in order it ends at the speed the profile has there, what is left of the profile is still the fastest, the remaining length can still meet the exit speed, and a hold only slows down. The rate divides the time of the passes, with the remainder carried over, by the steps covered; so over all segments of a block the time given to its steps plus the remainder is the time of the passes, and at the end of the block no remainder is left. |
| Prep.CarryOver | grbl1_1/grbl-master-coreXY-servo/grbl/stepper.c:939-983 | The time of a segment is divided exactly between its whole steps and the fraction of a step carried over. |
| Prep.StepsCut | grbl1_1/grbl-master-coreXY-servo/grbl/stepper.c:801-803 | A segment that covers the minimal distance, or ends the block, contains at least one whole step. |
| Prep.AmassRate | grbl1_1/grbl-master-coreXY-servo/grbl/stepper.c:945-957 | The smoothing level is the highest that keeps the interrupt at or below 16 kHz. |
| Prep.PeriodIsRate | grbl1_1/grbl-master-coreXY-servo/grbl/stepper.c:942-958 | The ticks of a segment at its smoothing level and period take as many cycles as its steps should, less fewer than one for each tick; only a period beyond sixteen bits is cut off, at the highest level. |
| Generator.CutProgresses | grbl1_1/grbl-master-coreXY-servo/grbl/stepper.c:981-1005 | A segment cut in normal operation leaves a speed and length from which the plan remains optimal, so writing it back as the tail entry is sound. |
| Generator.CutSlows | grbl1_1/grbl-master-coreXY-servo/grbl/stepper.c:688-700 | A segment cut during a hold leaves a queue that can still stop. |
| Generator.HoldEntersNext | grbl1_1/grbl-master-coreXY-servo/grbl/stepper.c:657-661 | A hold that runs through a block enters the next one at or below its planned speed. |
| Generator.SegmentGenerator.constructor | grbl1_1/grbl-master-coreXY-servo/grbl/stepper.c:482-503 | A new generator, with planner, profile and rings of its own, satisfies the invariant. |
| Generator.SegmentGenerator.LoadProfile | grbl1_1/grbl-master-coreXY-servo/grbl/stepper.c:611-774 | Taking up a block, new or released for re-planning, in operation or in a hold, keeps the invariant of planner, profile and segment queue together, and adds to the history of the queue the load of that block exactly when it is new. |
| Generator.SegmentGenerator.FollowsFastest | grbl1_1/grbl-master-coreXY-servo/grbl/stepper.c:701-769 | In every state a generator can be in, the profile in use is, wherever in the rest of the block, the fastest one from the speed and to the exit speed it was computed for. |
| Generator.SegmentGenerator.Cut | grbl1_1/grbl-master-coreXY-servo/grbl/stepper.c:776-1006 | Cutting one segment commits between one and all remaining steps of the block, or ends a hold without one, and keeps that invariant; when the block is used up, its steps have been given exactly the time accounted for. In operation, with the profile in order, the speed it ends at is the highest the block allows there. |
| Generator.SegmentGenerator.StPrepBuffer | grbl1_1/grbl-master-coreXY-servo/grbl/stepper.c:604-1009 | The whole of st_prep_buffer keeps it, changes the segment queue by loads and committed segments only, never touches segments already handed over, and returns only with the segment ring full, no block left, or a hold ended. |
| Planner.PlannerState.TailPace | grbl1_1/grbl-master-coreXY-servo/grbl/stepper.c:711-740 | While overrides stay as they are, the tail block neither starts nor ends faster than its nominal speed, so the deceleration-override branch is never taken. |
| Generator.SegmentGenerator.BeginHold | grbl1_1/grbl-master-coreXY-servo/grbl/protocol.c:263-271 | A hold may begin between any two segments. |
| Generator.SegmentGenerator.Resume | grbl1_1/grbl-master-coreXY-servo/grbl/protocol.c:376-382 | Normal operation may resume after it, re-planned from the speed and the length left. |
| Generator.SegmentGenerator.LineTo | grbl1_1/grbl-master-coreXY-servo/grbl/planner.c:315-472 | Moves may be queued at any moment, also during a hold; a system motion leaves queue and position alone. |
| Generator.SegmentGenerator.Interrupt | grbl1_1/grbl-master-coreXY-servo/grbl/stepper.c:308-435 | The stepper interrupt may come between any two of these; it is one tick of the history, and one less owed, or finds nothing and switches off. |
| Generator.SegmentGenerator.BufferSynchronize | grbl1_1/grbl-master-coreXY-servo/grbl/protocol.c:169-178 | Without a hold everything queued is executed: however many interrupts come between two refills of the ring, as long as they find a segment, planner and ring are empty after a number of interrupts bounded beforehand by eight times the steps still to make, the stepper is off, and the motors stand at the image of the planner position. |
| Machine.MachineOfMotors | grbl1_1/grbl-master-coreXY-servo/grbl/system.c:317-327 | Reading the position of motors that were driven by a machine position is exact. |
| Machine.MotorsByAxis | grbl1_1/grbl-master-coreXY-servo/grbl/planner.c:344-378 | Along x both belt motors turn alike, along y against each other, z has its own; any move adds up from these. |
| Machine.MotorsOfMachine | grbl1_1/grbl-master-coreXY-servo/grbl/system.c:317-327 | Driving the motors by the position read from them is exact if and only if the sum of the two belt motors is even; otherwise one step of one of them is lost. |
| Machine.Straight | grbl1_1/grbl-master-coreXY-servo/grbl/planner.c:344-378 | Absolute steps and direction bits represent exactly the signed displacement, and the block is empty exactly when it is zero. |
| CoreXY.Motion.LineTo | grbl1_1/grbl-master-coreXY-servo/grbl/planner.c:344-378 | A move queued in the planner leads exactly from the motor image of the old to that of the new planner position; an empty one or a system motion queues nothing. |
| CoreXY.Motion.TakeBlock | grbl1_1/grbl-master-coreXY-servo/grbl/stepper.c:611-664 | A new block is copied for the stepper, one released for re-planning is only taken back: the rest of the way stays the same. |
| CoreXY.Motion.CutSegment | grbl1_1/grbl-master-coreXY-servo/grbl/stepper.c:976-1005 | So it does when a segment is cut off and when a used-up block is discarded. |
| CoreXY.Motion.Reinitialize | grbl1_1/grbl-master-coreXY-servo/grbl/planner.c:516-522 | And when the queue is planned afresh after a hold. |
| CoreXY.Motion.SegmentsOfBlock | grbl1_1/grbl-master-coreXY-servo/grbl/stepper.c:976-1005 | Segment conservation for the real sequence of loads, segments and interrupts since the reset: the segments cut of every block taken up add up to its step events, the newest block owing what remains. |
| CoreXY.Motion.DrainedAtTarget | grbl1_1/grbl-master-coreXY-servo/grbl/planner.c:344-378 | End to end: after any sequence of moves, segments, holds and interrupts, drained buffers mean A = X+Y, B = X-Y of the planner position, but for a step lost at the last synchronisation. |
| Limits.SetAxisReads | grbl1_1/grbl-master-coreXY-servo/grbl/limits.c:316-327 | Setting one homed axis makes it read as set, leaves the other as it was read whatever odd motor sum was left, and makes the sum even again. |
| Limits.ZeroCycleAxes | grbl1_1/grbl-master-coreXY-servo/grbl/limits.c:191-205 | Before an approach exactly the axes of the cycle read zero, the others as before. |
| Limits.SetHomedAxes | grbl1_1/grbl-master-coreXY-servo/grbl/limits.c:303-326 | After a cycle exactly the homed axes read their set positions, the others as before. |
| Streaming.NothingDropped | TH_DIS2018/src/grbl/Grbl.java:44-69 | In every reachable state of host, wire, receive ring, main loop and answers: the count is the length of the unacknowledged lines, at most 128, covers all bytes in ring and wire, and no byte has been dropped. |
| Streaming.RoomForByte | grbl1_1/grbl-master-coreXY-servo/grbl/serial.c:187-196 | A byte on the wire never finds the receive ring full. |
| Streaming.AnswerFindsItsLine | TH_DIS2018/src/grbl/Grbl.java:62-69 | An arriving answer always finds, at the head of the list, the very line it answers; the list access never fails. |
| Streaming.ExecutedInOrder | grbl1_1/grbl-master-coreXY-servo/grbl/protocol.c:78-152 | The firmware executes exactly the reserved lines, each once, in order: of each the visible text outside its comments, in upper case. |
| Streaming.RunsEnd | grbl1_1/grbl-master-coreXY-servo/grbl/protocol.c:78-152 | Without new reservations only boundedly many steps are possible. |
| Streaming.StuckIsStuck | TH_DIS2018/src/grbl/Grbl.java:45-53 | Nothing but a new reservation is possible exactly when, in these terms, the state is stuck. |
| Streaming.StallsOnlyWhenDone | TH_DIS2018/src/grbl/Grbl.java:45-53 | Nothing can move if and only if everything sent has been executed and acknowledged and nothing is reserved, or the next line is longer than 128 characters. |
| Streaming.StreamingCompletes | TH_DIS2018/src/grbl/Grbl.java:45-53 | With all lines at most 128 characters every order of events ends with every line executed in order, as this text, and answered. |
| Streaming.StreamedIsSends | TH_DIS2018/src/grbl/Grbl.java:44-54 | The sending loop amounts to single sends and stops only when the next line does not fit. |
| Streaming.UncommentedLine | grbl1_1/grbl-master-coreXY-servo/grbl/protocol.c:111-149 | A line without comments is executed as its visible characters in upper case, slashes removed, or reported as an overflow beyond 79 of them. |
| Streaming.CommentedLine | grbl1_1/grbl-master-coreXY-servo/grbl/protocol.c:111-149 | Every line is executed as its visible characters outside comments, in upper case, all of them or, beyond 79, none; a comment goes from a parenthesis to the next closing one or from a semicolon to the end, and neither starts inside the other. |
| Streaming.CommentDropped | grbl1_1/grbl-master-coreXY-servo/grbl/protocol.c:111-128 | A comment in parentheses makes no difference to what stands around it. |
| Streaming.RestDropped | grbl1_1/grbl-master-coreXY-servo/grbl/protocol.c:129-133 | What follows a semicolon makes no difference. |
| Streaming.UpcaseLetters | grbl1_1/grbl-master-coreXY-servo/grbl/protocol.c:140-147 | Upper case turns the letters a to z into A to Z and nothing else. |
| Streaming.Answers | TH_DIS2018/src/grbl/Grbl.java:62-69 | A message is taken for the answer to a line if it is "ok" or "error:" stands anywhere in it, |
| Streaming.AnswerIs | TH_DIS2018/src/grbl/Grbl.java:62-69 | and only then. |
| Streaming.NextInv | grbl1_1/grbl-master-coreXY-servo/grbl/protocol.c:78-152 | The invariant is kept by every step: send, arrival, reading a character, executing a line, taking an answer. |
| SerialLink.Grbl.Streaming | TH_DIS2018/src/grbl/Grbl.java:44-54 | The loop over the application's lists makes exactly these sends. |
| SerialLink.Grbl.Read | TH_DIS2018/src/grbl/Grbl.java:62-69 | An answer takes the oldest line off list and count, failing exactly when there is none; other messages are collected. |
| SerialLink.Grbl.Init | TH_DIS2018/src/grbl/Grbl.java:56-60 | A new connection starts the protocol from its initial state, but for what is still in the port. |
| SerialLink.RxBuffer.Receive | grbl1_1/grbl-master-coreXY-servo/grbl/serial.c:143-198 | The receive interrupt: realtime and extended characters never enter the ring and set their flags, a jog cancel only while jogging; others are appended unless the ring holds 128. |
| SerialLink.RxBuffer.SerialRead | grbl1_1/grbl-master-coreXY-servo/grbl/serial.c:126-140 | Removes and returns the oldest byte, or reports that there is none. |
| SerialLink.RxBuffer.Available | grbl1_1/grbl-master-coreXY-servo/grbl/serial.c:37-42 | Returns exactly the free space, in both index orders. |
| SerialLink.LineReader.Take | grbl1_1/grbl-master-coreXY-servo/grbl/protocol.c:78-151 | One character of the main loop on the 80-byte line buffer refines the line filter. |
| SerialLink.LineReader.ReadAvailable | grbl1_1/grbl-master-coreXY-servo/grbl/protocol.c:78-152 | The inner loop empties the ring and executes exactly the lines ended in it. |
| SerialLink.OneJobPerTerminator | grbl1_1/grbl-master-coreXY-servo/grbl/protocol.c:79-109 | Over any bytes there is one execution, hence one response, for each line terminator. |
| SerialLink.TrimLeaves | TH_DIS2018/src/grbl/SerialComm.java:105-125 | A message is passed on without the blanks and line ends around it. |
| SerialLink.ResponsesArriveWhole | TH_DIS2018/src/grbl/SerialComm.java:105-129 | Although responses end in CR LF and only CR ends a message, the application receives exactly the responses printed, in order. |
| SerialLink.SerialComm.Read | TH_DIS2018/src/grbl/SerialComm.java:105-129 | The character loop delivers exactly these messages, after the greeting, and connects on nothing else. |
| Realtime.IdleIsAtRest | grbl1_1/grbl-master-coreXY-servo/grbl/protocol.c:257-402 | Over all interleavings of raised flags with the parts of protocol_exec_rt_system and of a jog, but for a restart while the steppers run: when idle or with a hold complete the stepper interrupt is off and no end of an earlier motion is pending. |
| Realtime.WakesUpAtRest | grbl1_1/grbl-master-coreXY-servo/grbl/protocol.c:331-368 | In all these runs a motion begins only by a permitted cycle start or a jog, at rest with no stale cycle stop, and still so when the steppers wake up, which nothing else makes them do; so a resume never restarts a decelerating motion. |
| Realtime.StartCycleInv | grbl1_1/grbl-master-coreXY-servo/grbl/protocol.c:349-363 | The cycle start itself, when permitted, is at rest. |
| Realtime.NextInv | grbl1_1/grbl-master-coreXY-servo/grbl/protocol.c:215-402 | The strengthened invariant is kept by every part of the function and every flag. |
| Realtime.ResetStops | grbl1_1/grbl-master-coreXY-servo/grbl/motion_control.c:366-388 | A reset turns the steppers off whatever was going on, except in the endless loop of a critical alarm. |
| Realtime.RestartSafeIffOff | grbl1_1/grbl-master-coreXY-servo/grbl/main.c:71-99 | Restarting after an abort is safe, for every continuation, if and only if the stepper interrupt is off at that moment. |
| Realtime.RunsAtAbortIffLate | grbl1_1/grbl-master-coreXY-servo/grbl/protocol.c:240-247 | At an abort, after any run, the steppers are still on if and only if they were woken up when the reset was already pending. |
| Realtime.LateResetRestartsRunning | grbl1_1/grbl-master-coreXY-servo/grbl/protocol.c:240-247 | Both ways this happens, as runs from a fresh start: a reset after the flags were copied and before the cycle start, and one between the change of state and st_wake_up. |
| Realtime.StaleStop | grbl1_1/grbl-master-coreXY-servo/grbl/main.c:82-95 | Then there is a run in which a cycle stop raised between clearing the flags and st_reset is left pending in an idle machine. |
| Realtime.HoldsLead | grbl1_1/grbl-master-coreXY-servo/grbl/protocol.c:255-328 | Whichever hold commands are seen together in whichever mode: the mode they lead to, whether a running motion is told to decelerate, and what becomes of cancellations, the open door and the completed hold. Nothing else changes. |
| Realtime.HoldsPark | grbl1_1/grbl-master-coreXY-servo/grbl/protocol.c:305-322 | They leave the retraction of the tool alone, except that a door opened while power is being restored begins it again. |
| Realtime.StartLeads | grbl1_1/grbl-master-coreXY-servo/grbl/protocol.c:331-368 | A cycle start seen without a hold command starts the queued moves, or leads to idle without moves or after a cancellation, or begins to restore power; else it does nothing. |
| Realtime.StopLeads | grbl1_1/grbl-master-coreXY-servo/grbl/protocol.c:370-402 | The end of a motion completes a hold, or leads to idle, or to the open door; a cancelled jog loses its moves. |
| Realtime.AlarmLeads | grbl1_1/grbl-master-coreXY-servo/grbl/protocol.c:218-242 | An alarm locks the machine; a critical one keeps the program in its loop until a reset. |
| Realtime.AbortLeads | grbl1_1/grbl-master-coreXY-servo/grbl/main.c:71-99 | A restart leaves an idle or locked machine with nothing queued, moving or pending. |
| Realtime.ResetLeads | grbl1_1/grbl-master-coreXY-servo/grbl/motion_control.c:366-388 | The first reset stops what may be moving, with an alarm, and changes nothing else. |
| Realtime.CommandLeads | grbl1_1/grbl-master-coreXY-servo/grbl/protocol.c:211-405 | Over every run, from the moment feed hold, door, motion cancel or sleep is given in a cycle, a jog or idle: once seen and while the motion goes on, the machine is in the mode asked for and decelerating; once the motion has stopped, it is in the final mode, for a hold or open door with the hold complete; and the queue is kept, but for a cancelled jog. |
| Realtime.ResumeLeads | grbl1_1/grbl-master-coreXY-servo/grbl/protocol.c:331-368 | A cycle start given at the end of a hold leads to the running cycle, or to idle without moves. |
| Protocol.System.HoldCommands | grbl1_1/grbl-master-coreXY-servo/grbl/protocol.c:255-328 | Motion cancel, feed hold, door and sleep on the actual variables are exactly the part of the state machine. |
| Protocol.RaisedDuringCall | grbl1_1/grbl-master-coreXY-servo/grbl/protocol.c:255-328 | A feed hold raised while a call is under way waits for the next call, unless the call is about to clear the flags of hold commands it has seen: then, and only then, it is lost without trace. |
| Protocol.DoorResumes | grbl1_1/grbl-master-coreXY-servo/grbl/protocol.c:331-368 | From a machine held with the door open: while it is open a cycle start does nothing; with the tool retracted and the door closed one begins to restore power, and once that is done the moves go on where they were. |
| Protocol.SoftLimitLeads | grbl1_1/grbl-master-coreXY-servo/grbl/limits.c:341-360 | A target beyond the travel found in a cycle: the motion is braked as in a hold, then the machine is idle, and at last locked until a reset, with the steppers off. |
| Protocol.System.CycleStart | grbl1_1/grbl-master-coreXY-servo/grbl/protocol.c:330-368 | So is the cycle start, with the wake-up. |
| Protocol.System.CycleStop | grbl1_1/grbl-master-coreXY-servo/grbl/protocol.c:370-402 | So is the end of a motion or hold. |
| Protocol.System.ExecAlarm | grbl1_1/grbl-master-coreXY-servo/grbl/protocol.c:218-238 | So is the alarm part, which ends in the endless loop exactly for hard and soft limits. |
| Protocol.System.McReset | grbl1_1/grbl-master-coreXY-servo/grbl/motion_control.c:366-388 | mc_reset is the reset of the state machine at every point of the function. |
| Protocol.System.ExecRtSystem | grbl1_1/grbl-master-coreXY-servo/grbl/protocol.c:215-402 | The whole function, uninterrupted, is the run of the parts to the end. |
| Eeprom.Memory.PutChar | grbl1_1/grbl-master-coreXY-servo/grbl/eeprom.c:74-126 | Whichever of erase-and-write, erase-only or write-only is chosen, the cell ends up with the new value and no other changes. |
| Eeprom.Memory.WriteRecord | grbl1_1/grbl-master-coreXY-servo/grbl/eeprom.c:130-138 | The byte loop leaves exactly the data and their checksum. |
| Eeprom.Memory.ReadRecord | grbl1_1/grbl-master-coreXY-servo/grbl/eeprom.c:140-149 | The byte loop returns the data, and success if and only if the checksum matches. |
| Eeprom.RoundTrip | grbl1_1/grbl-master-coreXY-servo/grbl/eeprom.c:130-149 | What is written is read back and verifies, for any data. |
| Eeprom.Undisturbed | grbl1_1/grbl-master-coreXY-servo/grbl/eeprom.c:130-149 | Every record elsewhere reads and verifies as before. |
| Eeprom.RecordsApart | grbl1_1/grbl-master-coreXY-servo/grbl/settings.h:59-70 | All records with their checksums lie inside the memory and apart from each other. |
| Eeprom.StoreOne | grbl1_1/grbl-master-coreXY-servo/grbl/settings.c:28-66 | Storing any record leaves all others, and whether they verify, alone. |
| Eeprom.WhatIsNoticed | grbl1_1/grbl-master-coreXY-servo/grbl/eeprom.c:130-149 | A changed byte is noticed if and only if it is the last one, or it changes whether the running sum is zero there, given the bytes before it, and every byte between it and the last is 0x00 or 0xff: the rotation is coded with a logical or. |
| Eeprom.DamageUnnoticed | grbl1_1/grbl-master-coreXY-servo/grbl/eeprom.c:130-149 | Hence damage before the last two bytes goes unnoticed whenever the checksum before them stays non-zero. |
| Eeprom.DamagedCoordinates | grbl1_1/grbl-master-coreXY-servo/grbl/eeprom.c:130-149 | So a stored coordinate of 10.0 may turn into 12.0, wherever it is stored, and still verify. |
| GCode.RejectedChangesNothing | grbl1_1/grbl-master-coreXY-servo/grbl/gcode.c:504-560 | A rejected line changes neither parser state nor store, as long as no record is damaged. |
| GCode.AppliedAgrees | grbl1_1/grbl-master-coreXY-servo/grbl/gcode.c:996-1033 | An accepted line, before any end of program, leaves the cached offset equal to a verified read of the selected record. |
| GCode.CacheAgrees | grbl1_1/grbl-master-coreXY-servo/grbl/gcode.c:1092-1125 | After any line, accepted or rejected, the cache agrees with the store, except if and only if M2 or M30 of an accepted line ends a program in check mode and the record of the system the line selects, as a G10 of the line leaves it, differs from that of G54. |
| GCode.EndInCheckMode | grbl1_1/grbl-master-coreXY-servo/grbl/gcode.c:1092-1125 | The exception happens, with G55 active at X10. |
| GCode.ProgramAgrees | grbl1_1/grbl-master-coreXY-servo/grbl/gcode.c:504-511 | Outside check mode it agrees after any program. |
| GCode.DamagedRecord | grbl1_1/grbl-master-coreXY-servo/grbl/gcode.c:538-543 | When the active record has been damaged, a G10 aimed at it, in a line that names the active system or none, resets it to zero and is rejected, and the cache disagrees unless it was zero. |
| GCode.DataAfterDamage | grbl1_1/grbl-master-coreXY-servo/grbl/gcode.c:538-543 | That happens too, with the last byte of the record damaged. |
| GCode.CheckedIff | grbl1_1/grbl-master-coreXY-servo/grbl/gcode.c:504-560 | A line passes if and only if the other checks do and the records it needs can be read; a G10 needs an axis word, a P or L word, L20, or L2 without R, and a system there is. |
| GCode.WhyRejected | grbl1_1/grbl-master-coreXY-servo/grbl/gcode.c:504-560 | Which error a line that does not pass ends with, and what it has changed: a record it could not read is reset to zero, and nothing else. |
| GCode.DataByAxis | grbl1_1/grbl-master-coreXY-servo/grbl/gcode.c:523-560 | An accepted G10 gives each axis the line names its new value and leaves the other axes as stored, in the system of its P word or, with P0, the one the line makes active; no other record changes, and the cache takes over the record if it is the active one. |
| GCode.OtherActions | grbl1_1/grbl-master-coreXY-servo/grbl/gcode.c:996-1035 | G28.1 and G30.1 store the position in their own records, G28 and G30 read these, and no other line stores anything. |
| GCode.Parser.constructor | grbl1_1/grbl-master-coreXY-servo/grbl/gcode.c:42-50 | gc_init establishes the agreement, resetting a damaged record. |
| GCode.Parser.ReadCoordData | grbl1_1/grbl-master-coreXY-servo/grbl/settings.c:166-177 | Returns the record, or zero after resetting it, and success if and only if it verified. |
| GCode.Parser.WriteCoordData | grbl1_1/grbl-master-coreXY-servo/grbl/settings.c:48-56 | Stores the record. |
| GCode.Parser.Check | grbl1_1/grbl-master-coreXY-servo/grbl/gcode.c:504-560 | The error checks read what they need and change at most damaged records. |
| GCode.Parser.Act | grbl1_1/grbl-master-coreXY-servo/grbl/gcode.c:996-1033 | The execution part leads to the specified state. |
| GCode.Parser.ExecuteLine | grbl1_1/grbl-master-coreXY-servo/grbl/gcode.c:504-1128 | The whole line, in its three parts, is the specified transition. |
| Lines.LineReads | grbl1_1/grbl-master-coreXY-servo/grbl/gcode.c:86-335 | The word loop selects only systems there are, and leaves the modes of all groups without a command alone. |
| Lines.ModesRead | grbl1_1/grbl-master-coreXY-servo/grbl/gcode.c:75-108 | A line is read with the modes its words set and else those of the parser, a jog with G1 and G94. |
| Lines.DataOfLine | grbl1_1/grbl-master-coreXY-servo/grbl/gcode.c:504-560 | From the text on: an accepted line with a G10 sets the record its P word aims at, or that of the active system, so that each axis with a word has, with L2, the value programmed or, with L20, the one that makes the work position read as programmed, in inches or millimeters as G20 and G21 say; other axes and all other readable records are kept. |
| Lines.HomeOfLine | grbl1_1/grbl-master-coreXY-servo/grbl/gcode.c:1029-1035 | An accepted line with G28.1 or G30.1 stores the position of each axis in the record of that command. |
| Lines.ModesOfLine | grbl1_1/grbl-master-coreXY-servo/grbl/gcode.c:1078-1112 | After an accepted line a mode is that of the word of its group on the line, or as before; the end of a program resets exactly seven groups, to G1, G17, G90, G94, G54, M5 and M9. |
| Lines.NoneLeft | grbl1_1/grbl-master-coreXY-servo/grbl/gcode.c:1078-1128 | No command of one line stays behind, and the program flow only after a failed end. |
| Lines.StaysOk | grbl1_1/grbl-master-coreXY-servo/grbl/gcode.c:996-1033 | After any line the selection in the modes of the parser is the one the cache belongs to. |
| Lines.EndsIff | grbl1_1/grbl-master-coreXY-servo/grbl/gcode.c:246-253 | With no earlier end pending, an accepted line ends the program if and only if one of its words is M2 or M30. |
| Lines.LineAgrees | grbl1_1/grbl-master-coreXY-servo/grbl/gcode.c:75-1128 | After any line of text, ordinary or jog, the cache agrees with the store, except if and only if an accepted line ends the program in check mode with other offsets, as above. |
| Lines.ProgramAgrees | grbl1_1/grbl-master-coreXY-servo/grbl/gcode.c:75-1128 | Outside check mode it agrees after any lines of text whatever. |
| Lines.LeftPending | grbl1_1/grbl-master-coreXY-servo/grbl/gcode.c:1084-1128 | An end of program is left pending if and only if, outside check mode, it finds the record of G54 damaged: the error return skips the reset of the program flow. |
| Lines.EndsAgain | grbl1_1/grbl-master-coreXY-servo/grbl/gcode.c:1084-1128 | The next accepted line without such an M word then ends the program once more, and G54 is active whatever system it selects. |
| Lines.EndRepeated | grbl1_1/grbl-master-coreXY-servo/grbl/gcode.c:1084-1128 | It happens: after a failed M2 the line G55 is accepted and leaves G54 active. |
| Lines.LineParser.constructor | grbl1_1/grbl-master-coreXY-servo/grbl/gcode.c:42-50 | gc_init leaves G54 selected, its offset cached and no end pending. |
| Lines.LineParser.ExecuteLine | grbl1_1/grbl-master-coreXY-servo/grbl/gcode.c:75-1128 | gc_execute_line from the text on, with the word loop and the coordinate part as they are coded, is the specified transition. |
| Words.AcceptedIff | grbl1_1/grbl-master-coreXY-servo/grbl/gcode.c:117-335 | The word loop accepts a line if and only if every word is supported by itself, no two commands share a modal group, no two claim the axis words and no letter repeats; the block then holds what each word says and is otherwise unchanged. |
| Words.OrderDoesNotMatter | grbl1_1/grbl-master-coreXY-servo/grbl/gcode.c:117-335 | Reordering the words changes neither acceptance nor the resulting block. |
| Words.TextIsWords | grbl1_1/grbl-master-coreXY-servo/grbl/gcode.c:117-123 | Reading the text of any words, however their numbers are written, takes exactly these words. |
| Words.AcceptedText | grbl1_1/grbl-master-coreXY-servo/grbl/gcode.c:91-123 | Every accepted line is the text of the words taken from it. |
| Words.LineAcceptedIff | grbl1_1/grbl-master-coreXY-servo/grbl/gcode.c:91-335 | Any line whatever, ordinary or jog, is accepted if and only if it is the text of compatible words. |
| Words.LinesAlike | grbl1_1/grbl-master-coreXY-servo/grbl/gcode.c:91-335 | Lines with the same words in another order are accepted alike, with the same block. |
| Words.CommandExact | grbl1_1/grbl-master-coreXY-servo/grbl/gcode.c:125-134 | For every number: it is taken for command c if and only if, cut to a whole number, it is c plus a multiple of 16384 and less than half a hundredth was cut off. |
| Words.AliasedCommands | grbl1_1/grbl-master-coreXY-servo/grbl/gcode.c:125-134 | So the 8- and 16-bit conversions let G16385 and G-16383 pass for G1. |
| Words.MotionWords | grbl1_1/grbl-master-coreXY-servo/grbl/gcode.c:160-190 | Motion commands and the settings they stand for, with their claim to the axis words. |
| Words.NonModalWords | grbl1_1/grbl-master-coreXY-servo/grbl/gcode.c:145-170 | Commands for one line, likewise. |
| Words.ModeWords | grbl1_1/grbl-master-coreXY-servo/grbl/gcode.c:186-212 | Planes, units, distance and feed modes. |
| Words.SystemWords | grbl1_1/grbl-master-coreXY-servo/grbl/gcode.c:213-236 | Compensation, tool length, path control and coordinate systems. |
| Words.NoOtherGWords | grbl1_1/grbl-master-coreXY-servo/grbl/gcode.c:143-240 | No other G word is a command, and those with a fraction where none belongs are told apart. |
| Words.MWords | grbl1_1/grbl-master-coreXY-servo/grbl/gcode.c:242-290 | The M words that are commands, with their settings, and no others. |
| Words.ValueWords | grbl1_1/grbl-master-coreXY-servo/grbl/gcode.c:293-332 | The value letters and what is kept of their numbers. |
| Words.WordParser.ImportG | grbl1_1/grbl-master-coreXY-servo/grbl/gcode.c:143-240 | The switch on a G command, updating the block in place in its order of checks, is the specified step. |
| Words.WordParser.SetG | grbl1_1/grbl-master-coreXY-servo/grbl/gcode.c:155-240 | The value a G command sets, variable by variable. |
| Words.WordParser.ImportM | grbl1_1/grbl-master-coreXY-servo/grbl/gcode.c:242-290 | The switch on an M command. |
| Words.WordParser.ImportValue | grbl1_1/grbl-master-coreXY-servo/grbl/gcode.c:293-332 | The switch on a value word, and the check for a repeated one. |
| Words.WordParser.Import | grbl1_1/grbl-master-coreXY-servo/grbl/gcode.c:138-334 | The switch on one word, with its in-place updates and its order of checks, is the specified step. |
| Words.WordParser.ImportLine | grbl1_1/grbl-master-coreXY-servo/grbl/gcode.c:75-335 | The loop over the line is the specified parse, ending with the same status. |
| Numbers.FillDigits | grbl1_1/grbl-master-coreXY-servo/grbl/print.c:146-157 | The digit buffer, filled from its end within thirteen characters, spells the number padded to at least one place before the point. |
| Numbers.PrintFloat | grbl1_1/grbl-master-coreXY-servo/grbl/print.c:133-164 | Prints sign, digits and point of the value rounded with ties away from zero. |
| Numbers.ReadFloat | grbl1_1/grbl-master-coreXY-servo/grbl/nuts_bolts.c:35-108 | The character loop and the scaling by repeated multiplication are the specified reading. |
| Numbers.ReadsNumeral | grbl1_1/grbl-master-coreXY-servo/grbl/nuts_bolts.c:35-108 | Any numeral, anywhere in a line, before any character that cannot continue it, is read as its value with every digit past the eighth taken as zero, the cursor left just behind it; without a digit nothing is read. |
| Numbers.RoundTrip | grbl1_1/grbl-master-coreXY-servo/grbl/print.c:133-164 | Reading what was printed gives the printed value, for any number of decimals, if and only if the digits past the eighth are zeros; always when at most eight are printed. |
| Strokes.DrawnRising | TH_DIS2018/src/drawing/Stroke.java:17-32 | Whatever the time stamps, point times rise strictly, the last is the latest seen, and no point is a tail yet. |
| Strokes.PointsAreKept | TH_DIS2018/src/drawing/Stroke.java:17-32 | The points are exactly the head and the inputs with none later before them and none of their own time behind them, save behind a later one. |
| Strokes.EndIsKept | TH_DIS2018/src/drawing/Stroke.java:17-32 | The end becomes the last point, a millisecond later if it came at the last time; an earlier one is dropped. |
| Strokes.Calibrated | TH_DIS2018/src/grbl/Interpreter.java:47-86 | The drawing area is mapped onto the area of the plotter, or its mirror image, edge to edge and in proportion. |
| Strokes.DrawnThrough | TH_DIS2018/src/grbl/Interpreter.java:47-86 | A stroke is drawn through the images of all its points in turn, each move taking the time between them, and approached at the image of the first if that still carries the head mark. |
| Strokes.TimingConserved | TH_DIS2018/src/grbl/Interpreter.java:48-91 | Every inverse-time feed is positive and the drawing moves of a stroke together take exactly the time from its first to its last point. |
| Strokes.HeadKeptIff | TH_DIS2018/src/drawing/Stroke.java:26-28 | The head mark, and with it the pen-down, is lost if and only if a point with the time of the head comes before any later one. |
| Strokes.TailAccepted | TH_DIS2018/src/drawing/Stroke.java:20-25 | The tail is accepted if and only if no point before it is later. |
| Strokes.StrokePen | TH_DIS2018/src/grbl/Interpreter.java:47-86 | For any time stamps: every approach is made with the pen up; all drawing has the pen down unless the head mark was lost; and the pen is left down if and only if the stroke has a point later than its head, keeps the head mark, and its end comes before one of its points. |
| Strokes.PenLeftDown | TH_DIS2018/src/grbl/Interpreter.java:47-86 | That happens for an end stamped before the second point. |
| Strokes.PenStaysUp | TH_DIS2018/src/grbl/Interpreter.java:47-86 | A stroke whose second point has the time of its head is drawn with the pen up. |
| Strokes.DrawingPenSafe | TH_DIS2018/src/grbl/Interpreter.java:47-86 | Over any drawing: the pen is up after every stroke if and only if no stroke leaves it down in this sense, and then all travels are made with the pen up, also where equal time stamps overwrite heads. |
| Strokes.Stroke.AddPoint | TH_DIS2018/src/drawing/Stroke.java:17-32 | Appends, overwrites or ignores the point as specified and completes the stroke exactly with a tail. |
| Strokes.Interpreter.Interpret | TH_DIS2018/src/grbl/Interpreter.java:47-99 | The loops consume the stroke, reserve exactly the compiled commands and log every point once. |

## Left out

- Floating point: lengths, speeds and times are exact reals; `sqrt` is a function with the law of a square root.
- Integer widths: 32-bit step counts and positions, `step_event_count << 3`, the 16-bit `n_step << level` and the 8-bit exponent of read_float are assumed to fit; array and ring indices are exact.
- Words.CommandExact: float-to-integer conversions out of range, undefined in C, are taken to keep the low 8 or 16 bits.
- Planner.PlannerState.PrepareBlock: the junction speed, the length of the move and its axis-limited acceleration and rate are inputs, non-negative or positive as the source's formulas make them; unit vectors and lround are not modelled.
- PlannerSpec.AnyRunIsPlan: a change of overrides, which may break its hypothesis, is not a step of the runs; SkipIffSound and OverrideBreaksSkip treat it.
- Planner.PlannerState.Replan: re-initialising an empty buffer may leave the planned pointer astray; the queue is empty then, and the next block queued puts the pointer right.
- Generator.SegmentGenerator.LoadProfile: overrides are constants of a planner here, so that the exit speed an override forces, which ComputeProfile reports, is not carried into the next block.
- Prep.PrepState.PrepSegment: a division by zero speed at rest in a hold counts as no time; cycles per step beyond 32 bits are not cut off.
- Generator.SegmentGenerator.StPrepBuffer: system motions (homing, parking) are planned but not cut into segments here.
- Generator.SegmentGenerator.BufferSynchronize: holds and resets during the wait are left out, and so is a ring that runs empty before it is refilled.
- Stepper.StepperState.Timer1CompA: pins, pulse timers, the busy flag, direction bits on the port and the homing axis lock are not modelled.
- Realtime.NextInv: excepts the one step of a restart while the steppers run, which RestartSafeIffOff treats; homing, parking motions, status reports, override flags and the spindle and coolant outputs are not part of the state; the suspend manager appears by the flags it sets.
- Realtime.ResetStops: says nothing of a second reset while one is pending, which mc_reset ignores; nor of a wake-up that follows the reset, which RunsAtAbortIffLate treats; nor of the endless loop of a critical alarm.
- Streaming.StreamingCompletes: one connected session; a firmware reset, a reconnection and lines with another terminator than one final carriage return are excluded, as is the reset character in a line; other realtime characters may occur and are taken out on arrival. Answers arrive whole and in order.
- SerialLink.LineReader.ReadAvailable: the realtime checkpoint before a line is executed, and the return from it on an abort, are left out.
- SerialLink.Grbl.Read: `streaming` and `read` are taken as atomic; races of the Java threads on the count are not modelled.
- SerialLink.ResponsesArriveWhole: responses are the texts between line ends; status reports and start-up messages are not generated.
- GCode.Parser.Check: the checks that do not read coordinate data are two flags, failing before and after those that do.
- GCode.Parser.ExecuteLine: only the coordinate parts of a line are modelled; arcs, probing, spindle and motion are left out.
- Lines.LineParser.ExecuteLine: the parser position, the G92 offset, the tool length, how a number is stored in four bytes and whether the other checks fail are inputs of each line.
- Eeprom.RecordsApart: the size of the settings structure is a parameter up to the space reserved for it; start-up lines and build info have the size of a line.
- Words.AcceptedIff: the checks of STEP 3 on the finished block are left out; M7 and M56 are compiled out.
- Strokes.Interpreter.Interpret: the text formatting of commands (`%.3f`) is left out; commands carry exact values.
- The approach motions and the limit pins of a homing cycle are not modelled; its rewriting of positions is.
- Transmit ring, status reports, `$` commands, probing, arcs, spindle and coolant control, settings defaults, OSC and tablet input, drawing on screen and logging files are not modelled.
