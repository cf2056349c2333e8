/**
 * SessionsManager: a rehabilitation session as a sequence of tasks. While a
 * session is active, every frame reads the right hand's pinch strengths,
 * raises PinchStarted / PinchEnded on the tracked finger's edges around the
 * task's target strength, advances a PinchAndHold task once the strength has
 * stayed at or above the target for the hold duration, and records each
 * finger's maximum strength. Ending a session saves the record and compares it
 * with the previously saved one.
 *
 * The saved JSON file is the field `saved`: EndSession writes it and
 * StartSession reads it back, so the file's contents are part of the state.
 */
module SessionsManager {
  import opened Wrappers
  import opened UnityMath
  import opened Hands
  import opened PinchEngineLemmas

  datatype TaskType = PinchAndHold | SuccessivePinches

  datatype RehabTask = RehabTask(
    instruction: string,
    taskType: TaskType,
    fingerToTrack: HandFinger,
    targetStrength: real,
    holdDuration: real,
    pinchCount: int)

  /** A task with the declared defaults: target 0.8, hold 3 seconds, 5 pinches. */
  function DefaultTask(instruction: string, taskType: TaskType, finger: HandFinger): (t: RehabTask)
    ensures t.targetStrength == 0.8 && t.holdDuration == 3.0 && t.pinchCount == 5
  {
    RehabTask(instruction, taskType, finger, 0.8, 3.0, 5)
  }

  /** RehabSessionData: the session's date and the maximum strength of each finger. */
  datatype SessionData = SessionData(sessionDate: string, maxPinchStrength: seq<real>)

  /** A new record starts with five zero maximums. */
  function NewRecord(date: string): (d: SessionData)
    ensures d.sessionDate == date && |d.maxPinchStrength| == 5
    ensures forall i :: 0 <= i < 5 ==> d.maxPinchStrength[i] == 0.0
  {
    SessionData(date, [0.0, 0.0, 0.0, 0.0, 0.0])
  }

  predicate FiveSlots(d: Option<SessionData>) {
    d.Some? ==> |d.value.maxPinchStrength| == 5
  }

  /** OnPinchStarted / OnPinchEnded, with the finger that was tracked. */
  datatype SessionEvent = PinchStarted(finger: HandFinger) | PinchEnded(finger: HandFinger)

  /** Started is a rising edge (true), Ended a falling one (false). */
  function SessionEdges(evs: seq<SessionEvent>): seq<bool> {
    if |evs| == 0 then [] else [evs[0].PinchStarted?] + SessionEdges(evs[1..])
  }

  lemma {:induction false} SessionEdgesAppend(a: seq<SessionEvent>, b: seq<SessionEvent>)
    ensures SessionEdges(a + b) == SessionEdges(a) + SessionEdges(b)
  {
    if |a| > 0 {
      assert (a + b)[1..] == a[1..] + b;
      SessionEdgesAppend(a[1..], b);
    } else {
      assert a + b == b;
    }
  }

  /** How a finger's maximum changed since the previous session. */
  datatype Band = Improved(percent: real) | Declined(percent: real) | Stable

  /** One line of the comparison report: the finger, its maximum this session, and its band. */
  datatype ReportLine = ReportLine(finger: HandFinger, current: real, band: Band)

  datatype Report = FirstSession | Comparison(lines: seq<ReportLine>)

  /** The percentage change from previous to current; a previous value of 0 divides by 1. */
  function Percent(current: real, previous: real): (p: real)
    ensures previous != 0.0 ==> p * previous == (current - previous) * 100.0
    ensures previous == 0.0 ==> p == current * 100.0
  {
    (current - previous) / (if previous == 0.0 then 1.0 else previous) * 100.0
  }

  /** Improved above +5 %, declined below -5 %, stable within ±5 % inclusive. */
  function Banding(p: real): (b: Band)
    ensures b.Improved? <==> p > 5.0
    ensures b.Declined? <==> p < -5.0
    ensures b.Stable? <==> -5.0 <= p <= 5.0
    ensures !b.Stable? ==> b.percent == p
  {
    if p > 5.0 then Improved(p) else if p < -5.0 then Declined(p) else Stable
  }

  /** CompareSessions: the first-session message without a previous record, else one line per finger. */
  function CompareRecords(current: SessionData, previous: Option<SessionData>): (r: Report)
    requires FiveSlots(Some(current)) && FiveSlots(previous)
    ensures r.FirstSession? <==> previous.None?
    ensures r.Comparison? ==> |r.lines| == 5 && forall i :: 0 <= i < 5 ==>
              && Ordinal(r.lines[i].finger) == i
              && r.lines[i].current == current.maxPinchStrength[i]
              && r.lines[i].band == Banding(Percent(current.maxPinchStrength[i], previous.value.maxPinchStrength[i]))
  {
    if previous.None? then FirstSession
    else
      Comparison(seq(5, i requires 0 <= i < 5 =>
        ReportLine(FingerOf(i).value, current.maxPinchStrength[i],
                   Banding(Percent(current.maxPinchStrength[i], previous.value.maxPinchStrength[i])))))
  }

  /** Worked bands: 0.5 to 0.6 is +20 % (improved); exactly ±5 % is stable; from 0 the change is 100 × current. */
  lemma BandExamples()
    ensures Banding(Percent(0.6, 0.5)) == Improved(20.0)
    ensures Banding(Percent(0.42, 0.4)) == Stable
    ensures Banding(Percent(0.38, 0.4)) == Stable
    ensures Banding(Percent(0.3, 0.5)) == Declined(-40.0)
    ensures Banding(Percent(0.5, 0.0)) == Improved(50.0)
  {
    assert Percent(0.6, 0.5) == 20.0;
    assert Percent(0.42, 0.4) == 5.0;
    assert Percent(0.38, 0.4) == -5.0;
    assert Percent(0.3, 0.5) == -40.0;
  }

  /** The manager's fields, as one value. */
  datatype SessionState = SessionState(
    currentTaskIndex: int,
    currentTask: Option<RehabTask>,
    isSessionActive: bool,
    holdTimer: real,
    successfulPinches: int,
    isPinching: bool,
    current: Option<SessionData>,
    previous: Option<SessionData>,
    saved: Option<SessionData>,
    report: Option<Report>)

  /** Before any session: index -1, nothing active, no record; `stored` is the file's contents at start-up. */
  function Initial(stored: Option<SessionData>): SessionState {
    SessionState(-1, None, false, 0.0, 0, false, None, None, stored, None)
  }

  /**
   * The invariant the manager keeps: the index never drops below -1; an active session has a record and its current
   * task is the one at the index; only an active session can be pinching; every
   * record has five slots.
   */
  predicate Inv(tasks: seq<RehabTask>, st: SessionState) {
    && st.currentTaskIndex >= -1
    && (st.isSessionActive ==>
          0 <= st.currentTaskIndex < |tasks| && st.currentTask == Some(tasks[st.currentTaskIndex]) && st.current.Some?)
    && (st.isPinching ==> st.isSessionActive)
    && FiveSlots(st.current) && FiveSlots(st.previous) && FiveSlots(st.saved)
  }

  /** EndSession: inactive, the record saved, and the comparison with the previous record shown. */
  function Finish(st: SessionState): (r: SessionState)
    requires st.current.Some? && FiveSlots(st.current) && FiveSlots(st.previous)
    ensures !r.isSessionActive && r.saved == st.current
    ensures r.report == Some(CompareRecords(st.current.value, st.previous))
    ensures r.(isSessionActive := st.isSessionActive, saved := st.saved, report := st.report) == st
  {
    st.(isSessionActive := false, saved := st.current,
        report := Some(CompareRecords(st.current.value, st.previous)))
  }

  /**
   * AdvanceToNextTask: Ended for the current task if pinching; the timer, the pinch
   * count and the pinch flag reset; the next task, or the end of the session after
   * the last one.
   */
  function Advance(tasks: seq<RehabTask>, st: SessionState): (r: (SessionState, seq<SessionEvent>))
    requires st.currentTaskIndex >= -1
    requires st.isPinching ==> st.currentTask.Some?
    requires st.currentTaskIndex + 1 >= |tasks| ==> st.current.Some?
    requires FiveSlots(st.current) && FiveSlots(st.previous)
    ensures r.1 == if st.isPinching then [PinchEnded(st.currentTask.value.fingerToTrack)] else []
    ensures r.0.holdTimer == 0.0 && r.0.successfulPinches == 0 && !r.0.isPinching
    ensures r.0.currentTaskIndex == st.currentTaskIndex + 1
    ensures r.0.isSessionActive <==> st.isSessionActive && 0 <= r.0.currentTaskIndex < |tasks|
    ensures 0 <= r.0.currentTaskIndex < |tasks| ==> r.0.currentTask == Some(tasks[r.0.currentTaskIndex])
    ensures r.0.currentTaskIndex >= |tasks| ==> r.0.saved == st.current && r.0.report.Some?
    ensures r.0.current == st.current && r.0.previous == st.previous
  {
    var ended := if st.isPinching then [PinchEnded(st.currentTask.value.fingerToTrack)] else [];
    var st1 := st.(holdTimer := 0.0, successfulPinches := 0, isPinching := false,
                   currentTaskIndex := st.currentTaskIndex + 1);
    if st1.currentTaskIndex >= |tasks| then (Finish(st1), ended)
    else (st1.(currentTask := Some(tasks[st1.currentTaskIndex])), ended)
  }

  /** LoadData: the saved record, when there is one, becomes the previous record. */
  function Load(st: SessionState): (r: SessionState)
    ensures r.previous == if st.saved.Some? then st.saved else st.previous
    ensures r.(previous := st.previous) == st
  {
    if st.saved.Some? then st.(previous := st.saved) else st
  }

  /** StartSession: load, a fresh record dated `date`, active, index -1, then advance. */
  function Start(tasks: seq<RehabTask>, st: SessionState, date: string): (r: (SessionState, seq<SessionEvent>))
    requires Inv(tasks, st)
    ensures r.0.saved == if |tasks| == 0 then Some(NewRecord(date)) else st.saved
    ensures r.0.previous == if st.saved.Some? then st.saved else st.previous
  {
    var st1 := Load(st).(current := Some(NewRecord(date)), isSessionActive := true, currentTaskIndex := -1);
    Advance(tasks, st1)
  }

  /** The pinch-edge part of a frame: Started on reaching the target, Ended on falling below it. */
  function PinchEdge(st: SessionState, f: HandFinger, p: real, target: real): (r: (SessionState, seq<SessionEvent>))
    ensures r.0 == st.(isPinching := r.0.isPinching)
    ensures r.1 == [PinchStarted(f)] <==> p >= target && !st.isPinching
    ensures r.1 == [PinchEnded(f)] <==> p < target && st.isPinching
    ensures r.1 == [] <==> r.0.isPinching == st.isPinching
    ensures r.0.isPinching <==> p >= target
  {
    if p >= target && !st.isPinching then (st.(isPinching := true), [PinchStarted(f)])
    else if p < target && st.isPinching then (st.(isPinching := false), [PinchEnded(f)])
    else (st, [])
  }

  /** The maximums after a frame: each slot raised to the finger's strength when that is larger. */
  function RecordMax(maxes: seq<real>, strengths: seq<real>): (r: seq<real>)
    requires |maxes| == 5 && |strengths| == 5
    ensures |r| == 5
    ensures forall i :: 0 <= i < 5 ==> r[i] >= maxes[i] && r[i] >= strengths[i]
    ensures forall i :: 0 <= i < 5 ==> r[i] == maxes[i] || r[i] == strengths[i]
  {
    seq(5, i requires 0 <= i < 5 => Max(maxes[i], strengths[i]))
  }

  /** The hold-timer part of a frame: a PinchAndHold timer that accumulates or resets, and advances when full. */
  function HoldTask(tasks: seq<RehabTask>, st: SessionState, task: RehabTask, p: real, dt: real): (r: (SessionState, seq<SessionEvent>))
    requires Inv(tasks, st) && st.isSessionActive && st.currentTask == Some(task)
    ensures Inv(tasks, r.0)
    ensures r.0.current == st.current && r.0.previous == st.previous
    ensures task.taskType == SuccessivePinches ==> r == (st, [])
    ensures r.0.currentTaskIndex == st.currentTaskIndex || r.0.currentTaskIndex == st.currentTaskIndex + 1
    ensures task.taskType == PinchAndHold && r.0.currentTaskIndex == st.currentTaskIndex ==> r.1 == [] && r.0.holdTimer < task.holdDuration
    ensures r.0.currentTaskIndex != st.currentTaskIndex ==> r.0.holdTimer == 0.0 && !r.0.isPinching
  {
    if task.taskType == PinchAndHold then
      var timer := if p >= task.targetStrength then st.holdTimer + dt else 0.0;
      var st1 := st.(holdTimer := timer);
      if timer >= task.holdDuration then Advance(tasks, st1) else (st1, [])
    else (st, [])
  }

  /** Update: one frame with the right hand's five strengths and the frame time dt. */
  function Step(tasks: seq<RehabTask>, st: SessionState, strengths: seq<real>, dt: real): (r: (SessionState, seq<SessionEvent>))
    requires Inv(tasks, st) && |strengths| == 5
    ensures r.0.previous == st.previous
    ensures |r.1| <= 2
    ensures r.0.isSessionActive ==> st.isSessionActive
  {
    if !st.isSessionActive then (st, [])
    else
      var task := st.currentTask.value;
      var p := strengths[Ordinal(task.fingerToTrack)];
      var edge := PinchEdge(st, task.fingerToTrack, p, task.targetStrength);
      var hold := HoldTask(tasks, edge.0, task, p, dt);
      var record := hold.0.current.value;
      (hold.0.(current := Some(record.(maxPinchStrength := RecordMax(record.maxPinchStrength, strengths)))),
       edge.1 + hold.1)
  }

  /** Every step keeps the invariant. */
  lemma StepKeepsInv(tasks: seq<RehabTask>, st: SessionState, strengths: seq<real>, dt: real)
    requires Inv(tasks, st) && |strengths| == 5
    ensures Inv(tasks, Step(tasks, st, strengths, dt).0)
  {
  }

  lemma StartKeepsInv(tasks: seq<RehabTask>, st: SessionState, date: string)
    requires Inv(tasks, st)
    ensures Inv(tasks, Start(tasks, st, date).0)
  {
  }

  /**
   * StartSession begins with task 0 and an empty timer; with no tasks the session
   * ends at once, saving the fresh zero record.
   */
  lemma StartBeginsAtFirstTask(tasks: seq<RehabTask>, st: SessionState, date: string)
    requires Inv(tasks, st)
    ensures var r := Start(tasks, st, date).0;
      && r.currentTaskIndex == 0 && r.holdTimer == 0.0 && !r.isPinching
      && r.current == Some(NewRecord(date))
      && (|tasks| > 0 ==> r.isSessionActive && r.currentTask == Some(tasks[0]))
      && (|tasks| == 0 ==> !r.isSessionActive && r.saved == Some(NewRecord(date)))
    ensures Start(tasks, st, date).1 == if st.isPinching then [PinchEnded(st.currentTask.value.fingerToTrack)] else []
  {
  }

  /** A saved record becomes the previous record of the next session. */
  lemma StartLoadsSaved(tasks: seq<RehabTask>, st: SessionState, date: string)
    requires Inv(tasks, st) && st.saved.Some?
    ensures Start(tasks, st, date).0.previous == st.saved
  {
  }

  /** Update does nothing while no session is active. */
  lemma InactiveIgnoresFrames(tasks: seq<RehabTask>, st: SessionState, strengths: seq<real>, dt: real)
    requires Inv(tasks, st) && |strengths| == 5 && !st.isSessionActive
    ensures Step(tasks, st, strengths, dt) == (st, [])
  {
  }

  /**
   * The frame that completes the last task saves and compares the record before
   * that frame's strengths are recorded: the file and the report miss them, while
   * the record in memory includes them.
   */
  lemma EndingFrameSavesEarlierRecord(tasks: seq<RehabTask>, st: SessionState, strengths: seq<real>, dt: real)
    requires Inv(tasks, st) && |strengths| == 5 && st.isSessionActive
    requires !Step(tasks, st, strengths, dt).0.isSessionActive
    ensures var r := Step(tasks, st, strengths, dt).0;
      && r.saved == st.current
      && r.report == Some(CompareRecords(st.current.value, st.previous))
      && r.current == Some(st.current.value.(maxPinchStrength := RecordMax(st.current.value.maxPinchStrength, strengths)))
    ensures (exists i :: 0 <= i < 5 && strengths[i] > st.current.value.maxPinchStrength[i])
              ==> Step(tasks, st, strengths, dt).0.saved != Step(tasks, st, strengths, dt).0.current
  {
    var r := Step(tasks, st, strengths, dt).0;
    if exists i :: 0 <= i < 5 && strengths[i] > st.current.value.maxPinchStrength[i] {
      var i :| 0 <= i < 5 && strengths[i] > st.current.value.maxPinchStrength[i];
      assert r.current.value.maxPinchStrength[i] >= strengths[i];
      assert r.current.value.maxPinchStrength[i] != st.current.value.maxPinchStrength[i];
    }
  }

  /** The frame's events alternate from the pinch flag before it and leave the flag at their last edge. */
  lemma StepEdges(tasks: seq<RehabTask>, st: SessionState, strengths: seq<real>, dt: real)
    requires Inv(tasks, st) && |strengths| == 5
    ensures var r := Step(tasks, st, strengths, dt);
      Alternating(SessionEdges(r.1), st.isPinching) && FinalEdge(SessionEdges(r.1), st.isPinching) == r.0.isPinching
  {
    if st.isSessionActive {
      var task := st.currentTask.value;
      var p := strengths[Ordinal(task.fingerToTrack)];
      var edge := PinchEdge(st, task.fingerToTrack, p, task.targetStrength);
      var hold := HoldTask(tasks, edge.0, task, p, dt);
      var e1 := SessionEdges(edge.1);
      var e2 := SessionEdges(hold.1);
      assert SessionEdges([PinchStarted(task.fingerToTrack)]) == [true];
      assert SessionEdges([PinchEnded(task.fingerToTrack)]) == [false];
      assert Alternating(e1, st.isPinching) && FinalEdge(e1, st.isPinching) == edge.0.isPinching;
      assert Alternating(e2, edge.0.isPinching) && FinalEdge(e2, edge.0.isPinching) == hold.0.isPinching;
      AlternatingAppend(e1, e2, st.isPinching);
      SessionEdgesAppend(edge.1, hold.1);
    }
  }

  /** Frames fed to an Update loop: the five strengths and the frame time. */
  datatype Frame = Frame(strengths: seq<real>, dt: real)

  predicate FramesOk(frames: seq<Frame>) {
    forall j :: 0 <= j < |frames| ==> |frames[j].strengths| == 5
  }

  /** A run of Update calls: the final state and all events in order. */
  function Run(tasks: seq<RehabTask>, st: SessionState, frames: seq<Frame>): (r: (SessionState, seq<SessionEvent>))
    requires Inv(tasks, st) && FramesOk(frames)
    ensures Inv(tasks, r.0)
    decreases |frames|
  {
    if |frames| == 0 then (st, [])
    else
      StepKeepsInv(tasks, st, frames[0].strengths, frames[0].dt);
      var first := Step(tasks, st, frames[0].strengths, frames[0].dt);
      var rest := Run(tasks, first.0, frames[1..]);
      (rest.0, first.1 + rest.1)
  }

  /**
   * Over any run of frames, Started and Ended strictly alternate, beginning with
   * Started when not pinching; the pinch flag ends at the last edge.
   */
  lemma {:induction false} RunEdgesAlternate(tasks: seq<RehabTask>, st: SessionState, frames: seq<Frame>)
    requires Inv(tasks, st) && FramesOk(frames)
    ensures var r := Run(tasks, st, frames);
      Alternating(SessionEdges(r.1), st.isPinching) && FinalEdge(SessionEdges(r.1), st.isPinching) == r.0.isPinching
    decreases |frames|
  {
    if |frames| > 0 {
      var first := Step(tasks, st, frames[0].strengths, frames[0].dt);
      StepKeepsInv(tasks, st, frames[0].strengths, frames[0].dt);
      var rest := Run(tasks, first.0, frames[1..]);
      StepEdges(tasks, st, frames[0].strengths, frames[0].dt);
      RunEdgesAlternate(tasks, first.0, frames[1..]);
      AlternatingAppend(SessionEdges(first.1), SessionEdges(rest.1), st.isPinching);
      SessionEdgesAppend(first.1, rest.1);
    }
  }

  /** A run never lowers a recorded maximum. */
  lemma {:induction false} RunMaxMonotone(tasks: seq<RehabTask>, st: SessionState, frames: seq<Frame>, i: int)
    requires Inv(tasks, st) && FramesOk(frames) && st.current.Some? && 0 <= i < 5
    ensures Run(tasks, st, frames).0.current.Some?
    ensures Run(tasks, st, frames).0.current.value.maxPinchStrength[i] >= st.current.value.maxPinchStrength[i]
    decreases |frames|
  {
    if |frames| > 0 {
      StepKeepsInv(tasks, st, frames[0].strengths, frames[0].dt);
      var first := Step(tasks, st, frames[0].strengths, frames[0].dt);
      RunMaxMonotone(tasks, first.0, frames[1..], i);
    }
  }

  /**
   * Each finger's final maximum is at least every strength that finger showed in a
   * frame that began with the session active.
   */
  lemma {:induction false} RunMaxDominates(tasks: seq<RehabTask>, st: SessionState, frames: seq<Frame>, j: int, i: int)
    requires Inv(tasks, st) && FramesOk(frames) && 0 <= j < |frames| && 0 <= i < 5
    requires Run(tasks, st, frames[..j]).0.isSessionActive
    ensures Run(tasks, st, frames).0.current.Some?
    ensures Run(tasks, st, frames).0.current.value.maxPinchStrength[i] >= frames[j].strengths[i]
    decreases j
  {
    StepKeepsInv(tasks, st, frames[0].strengths, frames[0].dt);
    var first := Step(tasks, st, frames[0].strengths, frames[0].dt);
    if j == 0 {
      assert frames[..0] == [];
      RunMaxMonotone(tasks, first.0, frames[1..], i);
    } else {
      assert frames[..j][1..] == frames[1..][..j - 1];
      assert Run(tasks, st, frames[..j]).0 == Run(tasks, first.0, frames[1..][..j - 1]).0;
      RunMaxDominates(tasks, first.0, frames[1..], j - 1, i);
      assert frames[1..][j - 1] == frames[j];
    }
  }

  /** PinchAndHold gives no partial credit: a frame below the target empties the timer and stays on the current task. */
  lemma HoldResetsBelowTarget(tasks: seq<RehabTask>, st: SessionState, strengths: seq<real>, dt: real)
    requires Inv(tasks, st) && |strengths| == 5 && st.isSessionActive
    requires st.currentTask.value.taskType == PinchAndHold && st.currentTask.value.holdDuration > 0.0
    requires strengths[Ordinal(st.currentTask.value.fingerToTrack)] < st.currentTask.value.targetStrength
    ensures var r := Step(tasks, st, strengths, dt).0;
      r.holdTimer == 0.0 && r.currentTaskIndex == st.currentTaskIndex && r.isSessionActive
  {
  }

  /**
   * At or above the target the timer grows by dt; the current task advances exactly when the
   * timer reaches the hold duration, and otherwise stays with the grown timer.
   */
  lemma HoldAccumulates(tasks: seq<RehabTask>, st: SessionState, strengths: seq<real>, dt: real)
    requires Inv(tasks, st) && |strengths| == 5 && st.isSessionActive
    requires st.currentTask.value.taskType == PinchAndHold
    requires strengths[Ordinal(st.currentTask.value.fingerToTrack)] >= st.currentTask.value.targetStrength
    ensures var r := Step(tasks, st, strengths, dt).0;
      && (st.holdTimer + dt >= st.currentTask.value.holdDuration ==>
            r.currentTaskIndex == st.currentTaskIndex + 1 && r.holdTimer == 0.0)
      && (st.holdTimer + dt < st.currentTask.value.holdDuration ==>
            r.currentTaskIndex == st.currentTaskIndex && r.holdTimer == st.holdTimer + dt && r.isSessionActive)
  {
  }

  /** A SuccessivePinches task has no completion rule: the session stays on it, whatever the frame. */
  lemma SuccessivePinchesStalls(tasks: seq<RehabTask>, st: SessionState, strengths: seq<real>, dt: real)
    requires Inv(tasks, st) && |strengths| == 5 && st.isSessionActive
    requires st.currentTask.value.taskType == SuccessivePinches
    ensures var r := Step(tasks, st, strengths, dt).0;
      r.isSessionActive && r.currentTaskIndex == st.currentTaskIndex && r.holdTimer == st.holdTimer
  {
  }

  /** The manager object: the fields a session updates in place. */
  class Manager {
    const taskSequence: seq<RehabTask>
    var currentTaskIndex: int
    var currentTask: Option<RehabTask>
    var isSessionActive: bool
    var holdTimer: real
    var successfulPinches: int
    var isPinching: bool
    var currentSessionData: Option<SessionData>
    var previousSessionData: Option<SessionData>
    var savedData: Option<SessionData>
    var lastReport: Option<Report>

    function State(): SessionState
      reads this
    {
      SessionState(currentTaskIndex, currentTask, isSessionActive, holdTimer, successfulPinches, isPinching,
            currentSessionData, previousSessionData, savedData, lastReport)
    }

    predicate Valid()
      reads this
    {
      Inv(taskSequence, State())
    }

    constructor(tasks: seq<RehabTask>, stored: Option<SessionData>)
      requires FiveSlots(stored)
      ensures taskSequence == tasks && State() == Initial(stored) && Valid()
    {
      taskSequence := tasks;
      currentTaskIndex := -1;
      currentTask := None;
      isSessionActive := false;
      holdTimer := 0.0;
      successfulPinches := 0;
      isPinching := false;
      currentSessionData := None;
      previousSessionData := None;
      savedData := stored;
      lastReport := None;
    }

    method StartSession(date: string) returns (events: seq<SessionEvent>)
      requires Valid()
      modifies this
      ensures (State(), events) == Start(taskSequence, old(State()), date) && Valid()
    {
      if savedData.Some? {
        previousSessionData := savedData;
      }
      currentSessionData := Some(NewRecord(date));
      isSessionActive := true;
      currentTaskIndex := -1;
      events := AdvanceToNextTask();
    }

    method AdvanceToNextTask() returns (events: seq<SessionEvent>)
      requires currentTaskIndex >= -1
      requires isPinching ==> currentTask.Some?
      requires currentTaskIndex + 1 >= |taskSequence| ==> currentSessionData.Some?
      requires FiveSlots(currentSessionData) && FiveSlots(previousSessionData)
      modifies this
      ensures (State(), events) == Advance(taskSequence, old(State()))
    {
      events := [];
      if isPinching {
        events := [PinchEnded(currentTask.value.fingerToTrack)];
      }
      holdTimer := 0.0;
      successfulPinches := 0;
      isPinching := false;
      currentTaskIndex := currentTaskIndex + 1;
      if currentTaskIndex >= |taskSequence| {
        EndSession();
        return;
      }
      currentTask := Some(taskSequence[currentTaskIndex]);
    }

    method EndSession()
      requires currentSessionData.Some? && FiveSlots(currentSessionData) && FiveSlots(previousSessionData)
      modifies this
      ensures State() == Finish(old(State()))
    {
      isSessionActive := false;
      savedData := currentSessionData;
      lastReport := Some(CompareRecords(currentSessionData.value, previousSessionData));
    }

    method Update(strengths: seq<real>, dt: real) returns (events: seq<SessionEvent>)
      requires Valid() && |strengths| == 5
      modifies this
      ensures (State(), events) == Step(taskSequence, old(State()), strengths, dt) && Valid()
    {
      StepKeepsInv(taskSequence, State(), strengths, dt);
      events := [];
      if !isSessionActive {
        return;
      }
      var task := currentTask.value;
      var pinchStrength := strengths[Ordinal(task.fingerToTrack)];
      if pinchStrength >= task.targetStrength && !isPinching {
        isPinching := true;
        events := [PinchStarted(task.fingerToTrack)];
      } else if pinchStrength < task.targetStrength && isPinching {
        isPinching := false;
        events := [PinchEnded(task.fingerToTrack)];
      }
      ghost var afterEdge := State();
      assert afterEdge == PinchEdge(old(State()), task.fingerToTrack, pinchStrength, task.targetStrength).0;
      assert events == PinchEdge(old(State()), task.fingerToTrack, pinchStrength, task.targetStrength).1;
      ghost var edgeEvents := events;
      if task.taskType == PinchAndHold {
        if pinchStrength >= task.targetStrength {
          holdTimer := holdTimer + dt;
        } else {
          holdTimer := 0.0;
        }
        if holdTimer >= task.holdDuration {
          var ended := AdvanceToNextTask();
          events := events + ended;
        }
      }
      assert State() == HoldTask(taskSequence, afterEdge, task, pinchStrength, dt).0;
      assert events == edgeEvents + HoldTask(taskSequence, afterEdge, task, pinchStrength, dt).1;
      var record := currentSessionData.value;
      var maxes := record.maxPinchStrength;
      for i := 0 to 5
        invariant |maxes| == 5
        invariant forall j :: 0 <= j < i ==> maxes[j] == Max(record.maxPinchStrength[j], strengths[j])
        invariant forall j :: i <= j < 5 ==> maxes[j] == record.maxPinchStrength[j]
      {
        var strength := strengths[i];
        if strength > maxes[i] {
          maxes := maxes[i := strength];
        }
      }
      assert maxes == RecordMax(record.maxPinchStrength, strengths);
      currentSessionData := Some(record.(maxPinchStrength := maxes));
    }
  }
}
