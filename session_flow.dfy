/**
 * SessionManager: the scripted session, run as a Unity coroutine. After a one-second delay it
 * runs repsPerExercise pinch repetitions with finger 0, the same with finger 1, then three
 * Surya mudra holds, and finally hands the collected rows to the CSV exporter.
 *
 * Every `yield` of the coroutine is a Phase. A tick resumes the coroutine at its phase with
 * that frame's inputs and runs it to its next yield; a finished nested coroutine hands control
 * back to Start within the same frame. WaitForSeconds(d), yielded at time t, resumes on the
 * first frame whose time is at least t + d. One tick appends at most one row.
 */
module SessionFlow {
  import opened Wrappers
  import opened UnityMath
  import opened Hands
  import MD = MudraDetection
  import OvrHandsPinch
  import PE = PinchEngine
  import PEL = PinchEngineLemmas
  import CsvExporter

  /** SessionRow, field for field. */
  datatype SessionRow = SessionRow(
    timestamp: string,
    task: string,
    rep: int,
    fingerIndex: int,
    eventType: string,
    duration: real,
    strength: real)

  /** SessionRow's public fields in declaration order: the CSV header. */
  const RowFieldNames: seq<string> :=
    ["timestamp", "task", "rep", "fingerIndex", "eventType", "duration", "strength"]

  /**
   * The session's inspector settings, with the pinch component's thresholds that the
   * polling loops read.
   */
  datatype FlowSettings = FlowSettings(
    startThreshold: real,
    endThreshold: real,
    targetHoldSeconds: real,
    repsPerExercise: int)

  /** targetHoldSeconds 2 and repsPerExercise 8; the thresholds are the pinch component's defaults. */
  const Defaults := FlowSettings(0.6, 0.45, 2.0, 8)

  const StartDelay: real := 1.0
  const PauseSeconds: real := 0.8
  const MudraHolds: int := 3
  const PinchRepEvent := "PinchRep"
  const MudraHoldEvent := "MudraHold"
  /** $"Mudra-{mudra}" for MudraType.Surya. */
  const MudraTask := "Mudra-Surya"

  /** The number of rows one RunPinchReps call appends: its loop runs while currentRep < reps. */
  function Reps(s: FlowSettings): (n: nat)
    ensures s.repsPerExercise > 0 ==> n == s.repsPerExercise
    ensures s.repsPerExercise <= 0 ==> n == 0
  {
    if s.repsPerExercise > 0 then s.repsPerExercise else 0
  }

  /** The decimal digits of n. */
  function Digits(n: nat): (r: string)
    ensures |r| > 0
    decreases n
  {
    var d := [('0' as int + n % 10) as char];
    if n < 10 then d else Digits(n / 10) + d
  }

  /** int.ToString(). */
  function IntString(n: int): string {
    if n < 0 then "-" + Digits(-n) else Digits(n)
  }

  /** $"Pinch-Finger{fingerIndex}". */
  function PinchTask(finger: int): string {
    "Pinch-Finger" + IntString(finger)
  }

  /** The coroutine's yield points, with the locals live at each. */
  datatype Phase =
    | Delay(until: real)                                  // Start: WaitForSeconds(1)
    | WaitStart(finger: int, rep: int, got: bool)         // RunPinchReps: after a start poll
    | Holding(finger: int, rep: int, startTime: real)     // RunPinchReps: after a hold poll
    | RepPause(finger: int, rep: int, until: real)        // RunPinchReps: WaitForSeconds(0.8)
    | WaitMudra(hold: int, got: bool, startT: real)       // RunMudraHold: after a mudra poll
    | HoldMudra(hold: int, startT: real)                  // RunMudraHold: holding the timer
    | MudraPause(hold: int, until: real)                  // RunMudraHold: WaitForSeconds(0.8)
    | Done                                                // rows handed to the exporter
    | Faulted                                             // an exception ended the coroutine

  /** The coroutine's position and the rows list. */
  datatype Flow = Flow(phase: Phase, rows: seq<SessionRow>)

  /**
   * One frame's inputs: Time.time, the DateTime.UtcNow string, the pinch component's answer
   * for the left and right hand and the finger being polled (a Failure is a thrown exception),
   * and the mudra manager's leftDetected and rightDetected.
   */
  datatype Sample = Sample(
    now: real,
    stamp: string,
    left: Result<real, OvrHandsPinch.Fault>,
    right: Result<real, OvrHandsPinch.Fault>,
    leftMudra: MD.MudraType,
    rightMudra: MD.MudraType)

  /** Where one tick leaves the coroutine, and the row it appended, if any. */
  datatype Outcome = Outcome(phase: Phase, row: Option<SessionRow>)

  /** The row logged for a completed pinch repetition. */
  function PinchRow(finger: int, rep: int, duration: real, strength: real, stamp: string): SessionRow {
    SessionRow(stamp, PinchTask(finger), rep + 1, finger, PinchRepEvent, duration, strength)
  }

  /** The row logged for a completed mudra hold. */
  function MudraRow(s: FlowSettings, hold: int, stamp: string): SessionRow {
    SessionRow(stamp, MudraTask, hold + 1, -1, MudraHoldEvent, s.targetHoldSeconds, 1.0)
  }

  /** One turn of the start-polling loop, up to its yield. */
  function PollStart(s: FlowSettings, finger: int, rep: int, x: Sample): (o: Outcome)
    ensures o.row.None?
    ensures o.phase == Faulted <==> x.left.Failure? || x.right.Failure?
    ensures o.phase != Faulted ==> o.phase.WaitStart? && o.phase.finger == finger && o.phase.rep == rep
    ensures o.phase.WaitStart? ==> (o.phase.got <==> x.left.value >= s.startThreshold || x.right.value >= s.startThreshold)
  {
    if x.left.Failure? || x.right.Failure? then Outcome(Faulted, None)
    else Outcome(WaitStart(finger, rep, x.left.value >= s.startThreshold || x.right.value >= s.startThreshold), None)
  }

  /** One turn of the hold loop: on release the rep is logged and the pause begins. */
  function HoldCheck(s: FlowSettings, finger: int, rep: int, startTime: real, x: Sample): (o: Outcome)
    ensures o.phase == Faulted <==> x.left.Failure? || x.right.Failure?
    ensures o.row.Some? <==> o.phase != Faulted && Max(x.left.value, x.right.value) < s.endThreshold
    ensures o.row.Some? ==> o.phase == RepPause(finger, rep + 1, x.now + PauseSeconds)
    ensures o.row.Some? ==> o.row.value.rep == rep + 1 && o.row.value.fingerIndex == finger
                            && o.row.value.eventType == PinchRepEvent && o.row.value.duration == x.now - startTime
                            && o.row.value.strength == x.left.value && o.row.value.timestamp == x.stamp
    ensures o.row.None? && o.phase != Faulted ==> o.phase == Holding(finger, rep, startTime)
  {
    if x.left.Failure? || x.right.Failure? then Outcome(Faulted, None)
    else if Max(x.left.value, x.right.value) < s.endThreshold then
      Outcome(RepPause(finger, rep + 1, x.now + PauseSeconds),
              Some(PinchRow(finger, rep, x.now - startTime, x.left.value, x.stamp)))
    else Outcome(Holding(finger, rep, startTime), None)
  }

  /** One turn of the mudra-polling loop; the time is taken when the target is seen. */
  function PollMudra(hold: int, x: Sample): (o: Outcome)
    ensures o.row.None? && o.phase.WaitMudra? && o.phase.hold == hold
    ensures o.phase.got <==> x.leftMudra == MD.Surya || x.rightMudra == MD.Surya
    ensures o.phase.got ==> o.phase.startT == x.now
  {
    if x.leftMudra == MD.Surya || x.rightMudra == MD.Surya then Outcome(WaitMudra(hold, true, x.now), None)
    else Outcome(WaitMudra(hold, false, 0.0), None)
  }

  /** One turn of the hold timer: when it has run out the hold is logged and the pause begins. */
  function HoldMudraCheck(s: FlowSettings, hold: int, startT: real, x: Sample): (o: Outcome)
    ensures o.row.Some? <==> x.now - startT >= s.targetHoldSeconds
    ensures o.row.Some? ==> o.row.value == MudraRow(s, hold, x.stamp) && o.phase == MudraPause(hold + 1, x.now + PauseSeconds)
    ensures o.row.None? ==> o.phase == HoldMudra(hold, startT)
  {
    if x.now - startT < s.targetHoldSeconds then Outcome(HoldMudra(hold, startT), None)
    else Outcome(MudraPause(hold + 1, x.now + PauseSeconds), Some(MudraRow(s, hold, x.stamp)))
  }

  /** Start after RunPinchReps(finger) has returned: finger 1's reps, or the mudra holds. */
  function AfterReps(s: FlowSettings, finger: int, x: Sample): (o: Outcome)
    ensures o.row.None?
    ensures finger == 0 && 0 < s.repsPerExercise && o.phase != Faulted ==> o.phase.WaitStart? && o.phase.finger == 1 && o.phase.rep == 0
    ensures !(finger == 0 && 0 < s.repsPerExercise) ==> o.phase.WaitMudra? && o.phase.hold == 0
  {
    if finger == 0 && 0 < s.repsPerExercise then PollStart(s, 1, 0, x)
    else PollMudra(0, x)
  }

  /** Start after its first delay: RunPinchReps(0, repsPerExercise) from currentRep = 0. */
  function EnterReps(s: FlowSettings, x: Sample): (o: Outcome)
    ensures o.row.None?
    ensures 0 < s.repsPerExercise && o.phase != Faulted ==> o.phase.WaitStart? && o.phase.finger == 0 && o.phase.rep == 0
    ensures s.repsPerExercise <= 0 ==> o.phase.WaitMudra? && o.phase.hold == 0
  {
    if 0 < s.repsPerExercise then PollStart(s, 0, 0, x) else AfterReps(s, 0, x)
  }

  /** Resumes the coroutine at p with one frame's inputs and runs it to its next yield. */
  function Resume(s: FlowSettings, p: Phase, x: Sample): Outcome {
    match p
    case Delay(until) =>
      if x.now < until then Outcome(p, None) else EnterReps(s, x)
    case WaitStart(finger, rep, got) =>
      if got then HoldCheck(s, finger, rep, x.now, x) else PollStart(s, finger, rep, x)
    case Holding(finger, rep, startTime) =>
      HoldCheck(s, finger, rep, startTime, x)
    case RepPause(finger, rep, until) =>
      if x.now < until then Outcome(p, None)
      else if rep < s.repsPerExercise then PollStart(s, finger, rep, x)
      else AfterReps(s, finger, x)
    case WaitMudra(hold, got, startT) =>
      if got then HoldMudraCheck(s, hold, startT, x) else PollMudra(hold, x)
    case HoldMudra(hold, startT) =>
      HoldMudraCheck(s, hold, startT, x)
    case MudraPause(hold, until) =>
      if x.now < until then Outcome(p, None)
      else if hold < MudraHolds then PollMudra(hold, x)
      else Outcome(Done, None)
    case Done => Outcome(p, None)
    case Faulted => Outcome(p, None)
  }

  function Appended(rows: seq<SessionRow>, row: Option<SessionRow>): seq<SessionRow> {
    if row.Some? then rows + [row.value] else rows
  }

  /** One frame of the session. */
  function Step(s: FlowSettings, f: Flow, x: Sample): (f': Flow)
    ensures f.rows <= f'.rows && |f'.rows| <= |f.rows| + 1
    ensures f.phase == Done || f.phase == Faulted ==> f' == f
  {
    var o := Resume(s, f.phase, x);
    Flow(o.phase, Appended(f.rows, o.row))
  }

  /** The session as Start() leaves it at time t0: waiting one second, no rows. */
  function Initial(t0: real): Flow {
    Flow(Delay(t0 + StartDelay), [])
  }

  /** Frames one after the other. */
  function Run(s: FlowSettings, f: Flow, xs: seq<Sample>): Flow
    decreases |xs|
  {
    if |xs| == 0 then f else Run(s, Step(s, f, xs[0]), xs[1..])
  }

  // ---- The shape of the rows list ----

  /** The k-th row the script produces: finger 0's reps, finger 1's reps, then the holds. */
  predicate RowFits(s: FlowSettings, k: int, row: SessionRow) {
    var n := Reps(s);
    if k < n then
      row.task == PinchTask(0) && row.fingerIndex == 0 && row.rep == k + 1 && row.eventType == PinchRepEvent
    else if k < 2 * n then
      row.task == PinchTask(1) && row.fingerIndex == 1 && row.rep == k - n + 1 && row.eventType == PinchRepEvent
    else
      row == MudraRow(s, k - 2 * n, row.timestamp)
  }

  /** Rows logged before finger's reps begin. */
  function Offset(s: FlowSettings, finger: int): nat {
    if finger == 0 then 0 else Reps(s)
  }

  /** Where the coroutine is, matched with how many rows it has logged, every row in place. */
  predicate Inv(s: FlowSettings, f: Flow) {
    var n := Reps(s);
    && (forall k :: 0 <= k < |f.rows| ==> RowFits(s, k, f.rows[k]))
    && match f.phase
       case Delay(_) => |f.rows| == 0
       case WaitStart(finger, rep, _) =>
         (finger == 0 || finger == 1) && 0 <= rep < n && |f.rows| == Offset(s, finger) + rep
       case Holding(finger, rep, _) =>
         (finger == 0 || finger == 1) && 0 <= rep < n && |f.rows| == Offset(s, finger) + rep
       case RepPause(finger, rep, _) =>
         (finger == 0 || finger == 1) && 1 <= rep <= n && |f.rows| == Offset(s, finger) + rep
       case WaitMudra(hold, _, _) => 0 <= hold < MudraHolds && |f.rows| == 2 * n + hold
       case HoldMudra(hold, _) => 0 <= hold < MudraHolds && |f.rows| == 2 * n + hold
       case MudraPause(hold, _) => 1 <= hold <= MudraHolds && |f.rows| == 2 * n + hold
       case Done => |f.rows| == 2 * n + MudraHolds
       case Faulted => |f.rows| <= 2 * n + MudraHolds
  }

  lemma InitialInv(s: FlowSettings, t0: real)
    ensures Inv(s, Initial(t0))
  {
  }

  /** Every frame keeps the rows list in step with the coroutine's position. */
  lemma StepKeepsInv(s: FlowSettings, f: Flow, x: Sample)
    requires Inv(s, f)
    ensures Inv(s, Step(s, f, x))
  {
    var g := Step(s, f, x);
    assert |g.rows| == |f.rows| || |g.rows| == |f.rows| + 1;
    forall k | 0 <= k < |f.rows|
      ensures g.rows[k] == f.rows[k]
    {
    }
  }

  /** Rows are only ever appended, and the shape holds after any run of frames. */
  lemma {:induction false} RunKeepsInv(s: FlowSettings, f: Flow, xs: seq<Sample>)
    requires Inv(s, f)
    ensures Inv(s, Run(s, f, xs))
    ensures f.rows <= Run(s, f, xs).rows
    decreases |xs|
  {
    if |xs| > 0 {
      StepKeepsInv(s, f, xs[0]);
      RunKeepsInv(s, Step(s, f, xs[0]), xs[1..]);
    }
  }

  /**
   * The scripted session: whatever the frames, the rows are finger 0's reps, then finger 1's
   * reps, then the Surya holds, in that order; once the rows are exported there are exactly
   * 2 * repsPerExercise + 3 of them (3 when repsPerExercise is not positive).
   */
  lemma {:induction false} SessionRows(s: FlowSettings, t0: real, xs: seq<Sample>)
    ensures var f := Run(s, Initial(t0), xs);
      && (forall k :: 0 <= k < |f.rows| ==> RowFits(s, k, f.rows[k]))
      && |f.rows| <= 2 * Reps(s) + MudraHolds
      && (f.phase == Done ==> |f.rows| == 2 * Reps(s) + MudraHolds)
  {
    InitialInv(s, t0);
    RunKeepsInv(s, Initial(t0), xs);
  }

  // ---- One frame at a time ----

  /**
   * A rep starts only on a frame where the left or the right hand reads at least
   * startThreshold; until then the coroutine keeps polling and logs nothing.
   */
  lemma RepStartGate(s: FlowSettings, finger: int, rep: int, rows: seq<SessionRow>, x: Sample)
    requires x.left.Success? && x.right.Success?
    ensures var g := Step(s, Flow(WaitStart(finger, rep, false), rows), x);
      && g.rows == rows
      && g.phase.WaitStart? && g.phase.finger == finger && g.phase.rep == rep
      && (g.phase.got <==> x.left.value >= s.startThreshold || x.right.value >= s.startThreshold)
  {
  }

  /**
   * Holding: the rep ends on the first frame where the larger of the two readings is below
   * endThreshold; it then logs rep + 1, the finger, "PinchRep", the time since the hold began
   * and the left hand's reading, and pauses for 0.8 s. Otherwise it keeps holding.
   */
  lemma RepRelease(s: FlowSettings, finger: int, rep: int, startTime: real, rows: seq<SessionRow>, x: Sample)
    requires x.left.Success? && x.right.Success?
    ensures var g := Step(s, Flow(Holding(finger, rep, startTime), rows), x);
      && (Max(x.left.value, x.right.value) < s.endThreshold ==>
            g.rows == rows + [SessionRow(x.stamp, PinchTask(finger), rep + 1, finger, "PinchRep",
                                         x.now - startTime, x.left.value)]
            && g.phase == RepPause(finger, rep + 1, x.now + 0.8))
      && (Max(x.left.value, x.right.value) >= s.endThreshold ==>
            g == Flow(Holding(finger, rep, startTime), rows))
  {
  }

  /**
   * The hold begins on the frame after the start was seen, at that frame's time, so a logged
   * duration is never negative while the clock does not run backwards.
   */
  lemma RepDurationNonNegative(s: FlowSettings, finger: int, rep: int, rows: seq<SessionRow>, x: Sample, y: Sample)
    requires x.left.Success? && x.right.Success? && y.left.Success? && y.right.Success?
    requires x.now <= y.now
    ensures var g := Step(s, Flow(WaitStart(finger, rep, true), rows), x);
      && (g.phase.Holding? ==> g.phase.startTime == x.now)
      && (g.phase.Holding? ==> var h := Step(s, g, y);
            |h.rows| == |rows| + 1 ==> h.rows[|rows|].duration >= 0.0)
      && (|g.rows| == |rows| + 1 ==> g.rows[|rows|].duration == 0.0)
  {
  }

  /** A mudra hold starts on the first frame where either hand's detected mudra is Surya. */
  lemma MudraStartGate(s: FlowSettings, hold: int, startT: real, rows: seq<SessionRow>, x: Sample)
    ensures var g := Step(s, Flow(WaitMudra(hold, false, startT), rows), x);
      && g.rows == rows
      && g.phase.WaitMudra? && g.phase.hold == hold
      && (g.phase.got <==> x.leftMudra == MD.Surya || x.rightMudra == MD.Surya)
      && (g.phase.got ==> g.phase.startT == x.now)
  {
  }

  /**
   * Once seen, the hold only waits out targetHoldSeconds: the mudra is not looked at again,
   * and the row logged is hold + 1, finger -1, "MudraHold", targetHoldSeconds and strength 1.
   */
  lemma MudraHoldTimer(s: FlowSettings, hold: int, startT: real, rows: seq<SessionRow>, x: Sample, y: Sample)
    requires x.now == y.now && x.stamp == y.stamp
    ensures Step(s, Flow(HoldMudra(hold, startT), rows), x) == Step(s, Flow(HoldMudra(hold, startT), rows), y)
    ensures Step(s, Flow(WaitMudra(hold, true, startT), rows), x) == Step(s, Flow(WaitMudra(hold, true, startT), rows), y)
    ensures var g := Step(s, Flow(HoldMudra(hold, startT), rows), x);
      && (x.now - startT < s.targetHoldSeconds ==> g == Flow(HoldMudra(hold, startT), rows))
      && (x.now - startT >= s.targetHoldSeconds ==>
            g.rows == rows + [SessionRow(x.stamp, "Mudra-Surya", hold + 1, -1, "MudraHold", s.targetHoldSeconds, 1.0)]
            && g.phase == MudraPause(hold + 1, x.now + 0.8))
  {
  }

  /** A WaitForSeconds yield resumes on the first frame at or past its end; before that nothing happens. */
  lemma PauseWaits(s: FlowSettings, f: Flow, x: Sample)
    requires f.phase.Delay? || f.phase.RepPause? || f.phase.MudraPause?
    requires x.now < f.phase.until
    ensures Step(s, f, x) == f
  {
  }

  /** The script's order: finger 0's last rep hands over to finger 1, finger 1's to the holds. */
  lemma ScriptOrder(s: FlowSettings, rows: seq<SessionRow>, until: real, x: Sample)
    requires s.repsPerExercise > 0 && x.now >= until
    requires x.left.Success? && x.right.Success?
    ensures Step(s, Flow(RepPause(0, s.repsPerExercise, until), rows), x).phase.WaitStart?
    ensures Step(s, Flow(RepPause(0, s.repsPerExercise, until), rows), x).phase.finger == 1
    ensures Step(s, Flow(RepPause(1, s.repsPerExercise, until), rows), x).phase.WaitMudra?
    ensures Step(s, Flow(RepPause(1, s.repsPerExercise, until), rows), x).phase.hold == 0
    ensures Step(s, Flow(MudraPause(MudraHolds, until), rows), x) == Flow(Done, rows)
  {
  }

  // ---- Export ----

  /**
   * A row's field values as the exporter receives them; float formatting is the caller's
   * showReal (float.ToString is not part of this model).
   */
  function RowCells(r: SessionRow, showReal: real -> string): (cells: seq<CsvExporter.Cell>)
    ensures |cells| == |RowFieldNames|
    ensures forall k :: 0 <= k < |cells| ==> cells[k].Some?
    ensures cells[1] == Some(r.task) && cells[4] == Some(r.eventType) && cells[2] == Some(IntString(r.rep))
  {
    [Some(r.timestamp), Some(r.task), Some(IntString(r.rep)), Some(IntString(r.fingerIndex)),
     Some(r.eventType), Some(showReal(r.duration)), Some(showReal(r.strength))]
  }

  /** csvExporter.ExportRows(rows) as Start calls it when the holds are done. */
  function Export(f: Flow, showReal: real -> string): (r: Option<seq<string>>)
    ensures r.Some? <==> |f.rows| > 0
    ensures r.Some? ==> |r.value| == |f.rows| + 1 && r.value[0] == CsvExporter.Joined(RowFieldNames)
    ensures r.Some? ==> forall k :: 0 <= k < |f.rows| ==> r.value[k + 1] == CsvExporter.RowLine(RowCells(f.rows[k], showReal))
  {
    CsvExporter.Render(RowFieldNames, Some(seq(|f.rows|, k requires 0 <= k < |f.rows| => RowCells(f.rows[k], showReal))))
  }

  /** A finished session always writes a file: the header and one line per row, 2R + 4 lines. */
  lemma ExportedLines(s: FlowSettings, f: Flow, showReal: real -> string)
    requires Inv(s, f) && f.phase == Done
    ensures Export(f, showReal).Some?
    ensures |Export(f, showReal).value| == 2 * Reps(s) + MudraHolds + 1
    ensures Export(f, showReal).value[0] == "timestamp,task,rep,fingerIndex,eventType,duration,strength"
  {
    HeaderLine();
  }

  /** The header line: the seven field names of SessionRow, in declaration order, joined by commas. */
  lemma HeaderLine()
    ensures CsvExporter.Joined(RowFieldNames) == "timestamp,task,rep,fingerIndex,eventType,duration,strength"
  {
    var p1 := ["timestamp"];
    var p2 := p1 + ["task"];
    var p3 := p2 + ["rep"];
    var p4 := p3 + ["fingerIndex"];
    var p5 := p4 + ["eventType"];
    var p6 := p5 + ["duration"];
    var p7 := p6 + ["strength"];
    assert p7 == RowFieldNames;
    assert p2[..1] == p1 && p3[..2] == p2 && p4[..3] == p3;
    assert p5[..4] == p4 && p6[..5] == p5 && p7[..6] == p6;
    assert CsvExporter.Joined(p2) == "timestamp,task";
    assert CsvExporter.Joined(p3) == "timestamp,task,rep";
    assert CsvExporter.Joined(p4) == "timestamp,task,rep,fingerIndex";
    assert CsvExporter.Joined(p5) == "timestamp,task,rep,fingerIndex,eventType";
    assert CsvExporter.Joined(p6) == "timestamp,task,rep,fingerIndex,eventType,duration";
  }

  // ---- The reader the session polls ----

  /**
   * The session polls the pinch component's GetPinchStrength, which always throws: the first
   * poll ends the coroutine, so no row is ever logged and nothing is exported.
   */
  lemma {:induction false} StubReaderStopsSession(s: FlowSettings, t0: real, leftHand: HandRef,
                                                 fingers: seq<int>, xs: seq<Sample>)
    requires s.repsPerExercise > 0
    requires |fingers| == |xs|
    requires forall k :: 0 <= k < |xs| ==> xs[k].left == OvrHandsPinch.GetPinchStrength(leftHand, fingers[k])
    ensures Run(s, Initial(t0), xs).rows == []
    ensures Run(s, Initial(t0), xs).phase != Done
  {
    StubRun(s, Initial(t0), leftHand, fingers, xs);
  }

  lemma {:induction false} StubRun(s: FlowSettings, f: Flow, leftHand: HandRef, fingers: seq<int>, xs: seq<Sample>)
    requires s.repsPerExercise > 0
    requires f.rows == [] && (f.phase.Delay? || f.phase.Faulted?)
    requires |fingers| == |xs|
    requires forall k :: 0 <= k < |xs| ==> xs[k].left == OvrHandsPinch.GetPinchStrength(leftHand, fingers[k])
    ensures Run(s, f, xs).rows == []
    ensures Run(s, f, xs).phase.Delay? || Run(s, f, xs).phase.Faulted?
    decreases |xs|
  {
    if |xs| > 0 {
      assert xs[0].left.Failure?;
      StubRun(s, Step(s, f, xs[0]), leftHand, fingers[1..], xs[1..]);
    }
  }

  /**
   * The reading the session needs: the smoothed strength the pinch component keeps for the
   * hand and finger (0 before the first frame), which never throws and lies in [0,1].
   */
  function SmoothedReading(st: PE.EngineState, hand: HandRef, finger: int): (r: Result<real, OvrHandsPinch.Fault>)
    requires PEL.UnitState(st)
    ensures r.Success? && InUnit(r.value)
    ensures PE.Key(hand, finger) !in st.smoothed ==> r.value == 0.0
  {
    PEL.ReadSmoothedInUnit(st, PE.Key(hand, finger));
    Success(PE.ReadSmoothed(st, PE.Key(hand, finger)))
  }

  /** With readings that never throw, no frame ends the session early. */
  lemma {:induction false} ReadingsKeepSessionAlive(s: FlowSettings, f: Flow, xs: seq<Sample>)
    requires !f.phase.Faulted?
    requires forall k :: 0 <= k < |xs| ==> xs[k].left.Success? && xs[k].right.Success?
    ensures !Run(s, f, xs).phase.Faulted?
    decreases |xs|
  {
    if |xs| > 0 {
      ReadingsKeepSessionAlive(s, Step(s, f, xs[0]), xs[1..]);
    }
  }

  /** The frame's sample as the corrected session takes it from the pinch component's table. */
  function SmoothedSample(st: PE.EngineState, leftHand: HandRef, rightHand: HandRef, finger: int,
                          now: real, stamp: string, leftMudra: MD.MudraType, rightMudra: MD.MudraType): (x: Sample)
    requires PEL.UnitState(st)
    ensures x.left.Success? && x.right.Success?
    ensures InUnit(x.left.value) && InUnit(x.right.value)
  {
    Sample(now, stamp, SmoothedReading(st, leftHand, finger), SmoothedReading(st, rightHand, finger),
           leftMudra, rightMudra)
  }

  // ---- The component ----

  /** The MonoBehaviour: the coroutine's position and the rows list it appends to. */
  class Session {
    const settings: FlowSettings
    var phase: Phase
    var rows: seq<SessionRow>

    ghost predicate Valid()
      reads this
    {
      Inv(settings, Flow(phase, rows))
    }

    /** Start() at time t0, up to its first yield. */
    constructor (s: FlowSettings, t0: real)
      ensures settings == s && Flow(phase, rows) == Initial(t0)
      ensures Valid()
    {
      settings := s;
      phase := Delay(t0 + StartDelay);
      rows := [];
    }

    /** One frame: the coroutine runs from where it yielded to its next yield. */
    method Tick(x: Sample)
      requires Valid()
      modifies this
      ensures Flow(phase, rows) == Step(settings, old(Flow(phase, rows)), x)
      ensures old(rows) <= rows
      ensures Valid()
    {
      StepKeepsInv(settings, Flow(phase, rows), x);
      var o := Resume(settings, phase, x);
      phase := o.phase;
      if o.row.Some? {
        rows := rows + [o.row.value];
      }
    }
  }
}
