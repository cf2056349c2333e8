# Hand-rehabilitation gesture core, modelled in Dafny

This project models the gesture and session logic of a Unity hand-rehabilitation app for a
Meta Quest headset. Every frame, the app reads per-finger pinch strengths from the headset's
hand tracking. It smooths them and turns them into pinch Start / Hold / End and micro-movement
events. It also classifies hand postures (mudras) from the fingertip distances and runs scripted
exercise sessions. The sessions log rows that are exported as CSV.

Modules:

- `PinchEngine` (pinch_engine.dfy) is the per-(hand, finger) pinch pipeline that the three pinch
  components share.
  - Each channel has a low-pass filter, a micro-movement reporter and a hysteresis latch
    (Start at or above `startThreshold`, End below `endThreshold`, Hold every frame while pinched).
  - The three dictionaries `smoothedStrength`, `lastReportedStrength` and `isPinched` are map
    fields of the class `Engine`. Its `ProcessHand` updates them in place, channel by channel.
  - The pure function `Process` specifies that method.
- `EngineConfig` holds what differs between the components:
  - the channel count;
  - how the blend factor is formed: deltaTime / smoothing, smoothing, or 1 - smoothing;
  - whether the smoothed value is clamped;
  - what an untracked hand does: zero the smoothed values, or skip the frame.
- `PinchEngineLemmas` (pinch_engine_lemmas.dfy) holds the properties of the pipeline:
  - channels are independent;
  - values stay in [0,1];
  - a run of frames yields Start and End edges that alternate;
  - the latch holds inside the hysteresis band;
  - a concrete run (three untracked frames, then raw strengths 0.2, 0.7, 0.9, 0.3), event by event.
- The three pinch components instantiate the engine:
  - `OvrHandsPinch` (OVRHAndsPinch.cs): 5 channels, thumb first, frame-time blend with a clamp,
    untracked hands zeroed, and a distance fallback that scans the bone list.
  - `OvrHandPinch` (OVRHandPinch.cs): 4 channels, Index..Pinky, constant per-frame blend,
    untracked frames skipped, and a distance fallback that indexes the bone list.
  - `RehabManager` (OVRHandsPinchRehabManager.cs): 4 channels with blend 1 - smoothing.
- `MudraDetection` (MudradetectionManager.cs) is the distance-based mudra classifier.
  - It has safe bone lookups and gates for a missing or untracked hand.
  - Its thresholds can be scaled by hand size.
  - It tests Apan, then Surya, then Prithvi.
- `MudraDetector` (Mudradetector.cs) is the event-raising Surya detector that shares one
  remembered label between both hands.
- `SessionsManager` (SessionM.cs) is the session that walks through a list of rehab tasks.
  - Pinch edge events, the hold timer and task advance.
  - Per-finger maximum strengths.
  - A comparison with the saved previous session, banded at ±5 %.
- `SessionFlow` (SessionManager.cs) is the scripted coroutine session.
  - It waits 1 s, runs repsPerExercise pinch reps for finger 0, then for finger 1, then 3 Surya
    holds, and then exports the rows.
  - Every `yield` is a `Phase`. A tick resumes the coroutine at its phase and runs it to the next
    yield.
  - The class `Session` holds the phase and the append-only rows list.
- `CsvExporter` (CSVExperter.cs) is the exporter.
  - It writes a header and one comma-joined line per record. A value that contains a comma is
    wrapped in double quotes.
  - Its nested loops are written out as methods and proved equal to the pure `Lines`/`Text`.
  - A quote-aware reader shows that the lines round-trip.
- `UnityMath` and `Hands` provide the Mathf helpers over exact reals, the finger and bone
  numbering, and the points and skeletons. `Wrappers` provides `Option` and `Result`.

Modelling conventions:

- Floats are exact reals.
- `Vector3.Distance` is a parameter `dist` of type `Metric`. The lemmas that need it assume
  `IsDistance` (d(p,p) = 0).
- Inputs from the headset are parameters: `HandReading` (tracked flag and the five
  GetFingerPinchStrength values) and `Skeleton`. So are Time.deltaTime, Time.time and the
  DateTime strings.
- `UnityEvent.Invoke` calls become returned event lists, in the order in which they are invoked.
- A thrown exception becomes a `Failure` value.

Facts about the code that the model keeps:

- OVRHAndsPinch's blend factor is deltaTime / smoothing. Mathf.Lerp clamps it to [0,1], and the
  smoothed value is then clamped to [0,1] as well.
- No component checks that endThreshold < startThreshold, so the model does not require it.
- With the default thresholds, a frame that falls from 0.9 to 0.3 emits Hold and then End.
  Every tracked change of at least microMovementDelta also emits a micro-movement, before the
  latch's events.
- SessionManager's comment calls finger 0 "index". In OVRHAndsPinch, channel 0 is the thumb.
- A thrown exception is modelled as ending the whole session (`SessionFlow.Faulted`). This is an
  assumption about how Unity treats an exception inside a nested coroutine.

## Model

| member | source | states |
|---|---|---|
| UnityMath.Clamp01 | Assets/scripts/scriptforscen2/OVRHAndsPinch.cs:97 | Mathf.Clamp01: the result lies in [0,1], and values already in [0,1] are kept |
| UnityMath.Lerp | Assets/scripts/scriptforscen2/OVRHAndsPinch.cs:96 | Mathf.Lerp never leaves the segment between its ends; a factor ≤ 0 gives the start and ≥ 1 gives the end |
| UnityMath.InverseLerp | Assets/scripts/scriptforscen2/OVRHAndsPinch.cs:171 | Mathf.InverseLerp lies in [0,1], and is 0 for a degenerate segment |
| UnityMath.InverseLerpDescending | Assets/scripts/scriptforscen2/OVRHAndsPinch.cs:171-172 | InverseLerp(max, min, d) is 1 at or below min, 0 at or above max, and (max - d)/(max - min) in between |
| UnityMath.LerpFactorOrder | Assets/OVRHandsPinchRehabManager.cs:67 | a smaller Lerp factor lands no further from the start than a larger one |
| Hands.Ordinal | Assets/scripts/scriptforscen2/OVRHAndsPinch.cs:49-56 | HandFinger's integer values are Thumb 0 .. Pinky 4 |
| Hands.FingerOf | Assets/OVRHandsPinchRehabManager.cs:57 | the cast (HandFinger)n exists exactly for 0..4 and inverts Ordinal |
| PinchEngine.Smoothed | Assets/scripts/scriptforscen2/OVRHAndsPinch.cs:91-97 | the filtered value lies between the previous value and the raw value (a first reading starts at raw); with the clamp it is in [0,1] |
| PinchEngine.Latch | Assets/scripts/scriptforscen2/OVRHAndsPinch.cs:112-137 | hysteresis latch: Start iff not pinched and s ≥ start; Hold iff pinched; End iff pinched and s < end; the latch flips only on those edges; pinched with s ≥ end raises exactly Hold, unpinched with s < start raises nothing |
| PinchEngine.StepChannelSpec | Assets/scripts/scriptforscen2/OVRHAndsPinch.cs:89-137 | one channel's frame: lazy initialisation, the smoothed value, micro-movement iff the change is ≥ delta (which also re-baselines), then the latch's events |
| PinchEngine.StepChannel | Assets/scripts/scriptforscen2/OVRHAndsPinch.cs:89-137 | a channel raises 1 to 3 events when pinched before, at most 2 otherwise; a flip of the latch ends with Start or End at the smoothed strength; a micro-movement re-baselines |
| PinchEngine.StepChannelEventsOwn | Assets/scripts/scriptforscen2/OVRHAndsPinch.cs:89-137 | every event of a channel's frame carries that channel's hand and finger |
| PinchEngine.Apply | Assets/scripts/scriptforscen2/OVRHAndsPinch.cs:92-137 | writing one channel's outcome sets its three entries |
| PinchEngineLemmas.ApplyElsewhere | Assets/scripts/scriptforscen2/OVRHAndsPinch.cs:92-137 | writing one channel's outcome leaves every other key's entries as they were |
| PinchEngine.TrackedEventsOwn | Assets/scripts/scriptforscen2/OVRHAndsPinch.cs:83-138 | the channel loop of a tracked hand raises events only for that hand and channels 0..n-1 |
| PinchEngine.ZeroChannels | Assets/scripts/scriptforscen2/OVRHAndsPinch.cs:73-77 | channels 0..n-1 of the hand read 0 afterwards, and no key is lost |
| PinchEngine.Process | Assets/scripts/scriptforscen2/OVRHAndsPinch.cs:68-139 | a frame raises events only for its own hand and configured channels; an untracked frame raises none and keeps the latch and reports |
| PinchEngine.Engine.constructor | Assets/scripts/scriptforscen2/OVRHAndsPinch.cs:45-47 | the three dictionaries start empty |
| PinchEngine.Engine.ProcessHand | Assets/scripts/scriptforscen2/OVRHAndsPinch.cs:68-139 | the in-place per-channel loop leaves exactly the tables and events of `Process` |
| PinchEngine.Engine.StepKey | Assets/scripts/scriptforscen2/OVRHAndsPinch.cs:89-137 | one loop body updates only its own key, as `StepChannel` says |
| PinchEngine.Engine.SmoothKey | Assets/scripts/scriptforscen2/OVRHAndsPinch.cs:92-97 | writes the filtered value into smoothedStrength[key] and nothing else |
| PinchEngine.Engine.ReportKey | Assets/scripts/scriptforscen2/OVRHAndsPinch.cs:103-110 | initialises lastReportedStrength, emits a micro-movement and re-baselines iff the change is ≥ delta |
| PinchEngine.Engine.LatchKey | Assets/scripts/scriptforscen2/OVRHAndsPinch.cs:113-137 | initialises isPinched to false and applies the latch |
| PinchEngineLemmas.ZeroChannelsAt | Assets/scripts/scriptforscen2/OVRHAndsPinch.cs:73-77 | the untracked reset writes 0 for exactly channels 0..n-1 of that hand |
| PinchEngineLemmas.UntrackedFrame | Assets/scripts/scriptforscen2/OVRHAndsPinch.cs:71-80 | a null or untracked hand emits nothing and leaves the latch and reports alone; it zeroes smoothed or skips the frame, as configured |
| PinchEngineLemmas.StepChannelLocal | Assets/scripts/scriptforscen2/OVRHAndsPinch.cs:89 | a channel's frame depends only on its own key's entries |
| PinchEngineLemmas.TrackedIsPerChannel | Assets/scripts/scriptforscen2/OVRHAndsPinch.cs:83-138 | after a tracked frame each channel holds its own one-channel step, and other keys are unchanged |
| PinchEngineLemmas.TrackedEventsPerChannel | Assets/scripts/scriptforscen2/OVRHAndsPinch.cs:83-138 | the frame's events are the channels' events in channel order |
| PinchEngineLemmas.ProcessKeepsUnit | Assets/scripts/scriptforscen2/OVRHAndsPinch.cs:96-97 | smoothed and reported strengths stay in [0,1] when the raw strengths are, or when the value is clamped |
| PinchEngineLemmas.ReadAfterTracked | Assets/scripts/scriptforscen2/OVRHAndsPinch.cs:92-97 | after a tracked frame the stored value is the filter applied to the previous value and the raw one |
| PinchEngineLemmas.ProcessKeepsKeys | Assets/scripts/scriptforscen2/OVRHAndsPinch.cs:73-89 | the tables only ever hold keys with channel 0..n-1 |
| PinchEngineLemmas.ReadSmoothedInUnit | Assets/scripts/scriptforscen2/OVRHandPinch.cs:137-141 | reading a table whose values are in [0,1] gives a value in [0,1] (0 when absent) |
| PinchEngineLemmas.AlternatingAppend | Assets/scripts/scriptforscen2/OVRHAndsPinch.cs:113-137 | alternating edge sequences compose across consecutive frames |
| PinchEngineLemmas.LatchStepEdges | Assets/scripts/scriptforscen2/OVRHAndsPinch.cs:113-137 | a frame has at most one edge, and it flips the latch |
| PinchEngineLemmas.LatchFollowsLastEdge | Assets/scripts/scriptforscen2/OVRHAndsPinch.cs:113-137 | over any run the latch equals its last edge (or its start value if there was none) |
| PinchEngineLemmas.LatchEdgesAlternate | Assets/scripts/scriptforscen2/OVRHAndsPinch.cs:113-137 | over any run of frames Start and End strictly alternate, beginning opposite to the initial latch |
| PinchEngineLemmas.BandKeepsLatch | Assets/scripts/scriptforscen2/OVRHAndsPinch.cs:115-136 | values inside [end, start) never change the latch or raise an edge |
| PinchEngineLemmas.LaglessSmoothed | Assets/scripts/scriptforscen2/OVRHandPinch.cs:96 | smoothing 1 per frame makes the filter follow raw exactly |
| PinchEngineLemmas.OneChannelFrame | Assets/scripts/scriptforscen2/OVRHandPinch.cs:63-125 | a one-channel frame is that channel's step |
| PinchEngineLemmas.ApplyChannel0 | Assets/scripts/scriptforscen2/OVRHandPinch.cs:94-124 | updating channel 0's entries replaces exactly those entries |
| PinchEngineLemmas.FirstStep | Assets/scripts/scriptforscen2/OVRHandPinch.cs:95-113 | a channel's first reading below start only records itself |
| PinchEngineLemmas.ScenarioFirstTracked | Assets/scripts/scriptforscen2/OVRHandPinch.cs:94-113 | the first tracked frame at 0.2 emits nothing |
| PinchEngineLemmas.ScenarioTracked | Assets/scripts/scriptforscen2/OVRHandPinch.cs:94-124 | a tracked change of at least delta emits a micro-movement followed by the latch's events |
| PinchEngineLemmas.UntrackedThenPinchScenario | Assets/scripts/scriptforscen2/OVRHandPinch.cs:59-126 | untracked frames emit nothing; then 0.2 emits nothing; 0.7 gives Start; 0.9 gives Hold; 0.3 gives Hold and End |
| OvrHandsPinch.Config | Assets/scripts/scriptforscen2/OVRHAndsPinch.cs:24-31 | five channels, frame-time blend, clamp and untracked reset, with the inspector's thresholds |
| OvrHandsPinch.LastTransformAbsent | Assets/scripts/scriptforscen2/OVRHAndsPinch.cs:159-165 | no bone with the id leaves the transform null |
| OvrHandsPinch.LastTransform | Assets/scripts/scriptforscen2/OVRHAndsPinch.cs:155-165 | a transform found by the scan belongs to a bone with the requested id |
| OvrHandsPinch.LastTransformIsLastMatch | Assets/scripts/scriptforscen2/OVRHAndsPinch.cs:159-163 | the bone scan keeps the last bone with the id |
| OvrHandsPinch.DistanceStrength | Assets/scripts/scriptforscen2/OVRHAndsPinch.cs:144-173 | the result is in [0,1]; it is 0 for a null or empty skeleton and 0 when the thumb or finger tip is missing |
| OvrHandsPinch.DistanceStrengthBand | Assets/scripts/scriptforscen2/OVRHAndsPinch.cs:168-172 | the result is 1 at or below pinchDistanceMin, 0 at or above pinchDistanceMax, and linear in between |
| OvrHandsPinch.ThumbChannelSaturates | Assets/scripts/scriptforscen2/OVRHAndsPinch.cs:153-157 | channel 0 measures the thumb tip against itself, so its distance strength is always 1 |
| OvrHandsPinch.RawStrengthsInUnit | Assets/scripts/scriptforscen2/OVRHAndsPinch.cs:85-87 | channel i reads GetFingerPinchStrength(fingerEnums[i]) or the distance strength, and every raw strength is in [0,1] |
| OvrHandsPinch.GetPinchStrength | Assets/scripts/scriptforscen2/OVRHAndsPinch.cs:186-189 | the accessor always fails with NotImplemented |
| OvrHandsPinch.Component.constructor | Assets/scripts/scriptforscen2/OVRHAndsPinch.cs:24-47 | the component starts with empty tables |
| OvrHandsPinch.Component.CalculateDistanceStrength | Assets/scripts/scriptforscen2/OVRHAndsPinch.cs:144-173 | the bone-scanning loop returns `DistanceStrength` |
| OvrHandsPinch.Component.ProcessHand | Assets/scripts/scriptforscen2/OVRHAndsPinch.cs:68-139 | one hand's frame is the engine's `Process` with this component's configuration and raw strengths, and the invariant (values in [0,1], channels 0..4) holds |
| OvrHandsPinch.Component.Update | Assets/scripts/scriptforscen2/OVRHAndsPinch.cs:58-63 | the left hand's frame, then the right hand's, with the events in that order |
| OvrHandPinch.Config | Assets/scripts/scriptforscen2/OVRHandPinch.cs:29-32 | four channels, per-frame blend, no clamp, untracked frames skipped |
| OvrHandPinch.TipBone | Assets/scripts/scriptforscen2/OVRHandPinch.cs:76-83 | channel i measures bone IndexTip + i |
| OvrHandPinch.DistanceToStrength | Assets/scripts/scriptforscen2/OVRHandPinch.cs:128-134 | the result is in [0,1]: 1 at or below min, 0 at or above max |
| OvrHandPinch.DistanceToStrengthIsInverseLerp | Assets/scripts/scriptforscen2/OVRHandPinch.cs:128-134 | for min < max the hand-written conversion equals InverseLerp(max, min, d) |
| OvrHandPinch.FractionComplement | Assets/scripts/scriptforscen2/OVRHandPinch.cs:132-133 | strictly inside the band, 1 - t lies strictly between 0 and 1 |
| OvrHandPinch.FallbackStrength | Assets/scripts/scriptforscen2/OVRHandPinch.cs:73-91 | the result is in [0,1]; it is 0 without a skeleton or without bones |
| OvrHandPinch.RawStrengths | Assets/scripts/scriptforscen2/OVRHandPinch.cs:65-92 | four raw strengths, each in [0,1] |
| OvrHandPinch.ChannelsSkipThumb | Assets/scripts/scriptforscen2/OVRHandPinch.cs:46-51 | channel i reads finger i + 1 |
| OvrHandPinch.ZeroSmoothingFreezes | Assets/scripts/scriptforscen2/OVRHandPinch.cs:95-96 | with smoothing 0 a stored value never moves |
| OvrHandPinch.Component.constructor | Assets/scripts/scriptforscen2/OVRHandPinch.cs:42-44 | the component starts with empty tables |
| OvrHandPinch.Component.Fallback | Assets/scripts/scriptforscen2/OVRHandPinch.cs:73-91 | the fallback branch computes `FallbackStrength` |
| OvrHandPinch.FrameSkipsUntracked | Assets/scripts/scriptforscen2/OVRHandPinch.cs:59-92 | a null or untracked hand leaves the tables as they were and raises no event, whatever its skeleton; where every channel can be read, the frame is the engine's frame on the four raw strengths |
| OvrHandPinch.Component.ProcessHand | Assets/scripts/scriptforscen2/OVRHandPinch.cs:59-126 | one hand's frame is `Process` with this configuration, and the invariant holds; a null or untracked hand is accepted with any skeleton |
| OvrHandPinch.Component.Update | Assets/scripts/scriptforscen2/OVRHandPinch.cs:53-57 | the left hand's frame, then the right hand's; each hand may be null or untracked with any skeleton |
| OvrHandPinch.Component.GetPinchStrength | Assets/scripts/scriptforscen2/OVRHandPinch.cs:137-141 | the accessor returns the stored smoothed value, or 0; it is always in [0,1], 0 outside channels 0..3 and 0 for a key with no smoothed value |
| RehabManager.Config | Assets/OVRHandsPinchRehabManager.cs:27-32 | four channels, blend 1 - smoothing, no clamp, untracked frames skipped |
| RehabManager.RawStrengths | Assets/OVRHandsPinchRehabManager.cs:55-58 | channel i reads finger i + 1; every value is in [0,1] |
| RehabManager.MoreSmoothingMovesLess | Assets/OVRHandsPinchRehabManager.cs:63-67 | more smoothing keeps the value closer to the previous one |
| RehabManager.SmoothingExtremes | Assets/OVRHandsPinchRehabManager.cs:63-67 | smoothing 0 follows raw exactly; smoothing 1 never moves a stored value |
| RehabManager.Manager.constructor | Assets/OVRHandsPinchRehabManager.cs:40-42 | the tables start empty |
| RehabManager.Manager.ProcessHand | Assets/OVRHandsPinchRehabManager.cs:50-105 | the in-place per-finger loop gives `Process` with this configuration, and the invariant holds |
| RehabManager.Manager.Update | Assets/OVRHandsPinchRehabManager.cs:44-48 | the left hand's frame, then the right hand's |
| MudraDetection.TryGetBonePosition | Assets/scripts/scriptforscen2/MudradetectionManager.cs:192-205 | it succeeds iff the index is in range and the bone has a transform, giving that position; otherwise it gives the zero vector |
| MudraDetection.ScaleMultiplier | Assets/scripts/scriptforscen2/MudradetectionManager.cs:113-125 | with normalisation, both bones found and a hand length > 0.001, the multiplier is handLen / reference, positive iff the reference is; otherwise it is 1; any reference is accepted when normalisation is off |
| MudraDetection.CloseMonotone | Assets/scripts/scriptforscen2/MudradetectionManager.cs:128-137 | with thresholds that are not negative, a larger multiplier never makes a close tip not close |
| MudraDetection.TipDistances | Assets/scripts/scriptforscen2/MudradetectionManager.cs:108-111 | the four thumb-to-tip distances, never negative for a true distance |
| MudraDetection.Label | Assets/scripts/scriptforscen2/MudradetectionManager.cs:147-160 | Apan iff middle and ring are close; Surya iff ring is close and middle and index are not; Prithvi iff middle is close and ring and index are not; never Custom1 |
| MudraDetection.PinkyIgnored | Assets/scripts/scriptforscen2/MudradetectionManager.cs:137-160 | the pinky's closeness never affects the label |
| MudraDetection.CloseScaleInvariant | Assets/scripts/scriptforscen2/MudradetectionManager.cs:127-137 | scaling all distances and the multiplier by the same k > 0 leaves the closeness tests unchanged |
| MudraDetection.DetectMudra | Assets/scripts/scriptforscen2/MudradetectionManager.cs:72-161 | a null or untracked hand, a missing or empty skeleton, or a missing tip gives None; a tracked hand with all five tips gets exactly the label of the scaled closeness; never Custom1 |
| MudraDetection.NegativeReferenceDetectsNothing | Assets/scripts/scriptforscen2/MudradetectionManager.cs:37 | a negative reference length (the field has no range) with normalisation on and a measured hand length makes every scaled threshold negative, so the hand is never classified |
| MudraDetection.ReferenceHandUnscaled | Assets/scripts/scriptforscen2/MudradetectionManager.cs:118-122 | a hand exactly as long as the reference is not rescaled |
| MudraDetection.PinchValue | Assets/scripts/scriptforscen2/MudradetectionManager.cs:139-142 | the pinch value is in [0,1]: 1 at or below min distance and 0 at or above max distance |
| MudraDetection.Manager.constructor | Assets/scripts/scriptforscen2/MudradetectionManager.cs:54-55 | both detected labels start as None |
| MudraDetection.Manager.Update | Assets/scripts/scriptforscen2/MudradetectionManager.cs:57-66 | leftDetected and rightDetected become the two hands' classifications |
| MudraDetector.Detected | Assets/scripts/Mudradetector.cs:26-31 | "Surya Mudra" iff thumb and ring are both pinching, else "None" |
| MudraDetector.Payload | Assets/scripts/Mudradetector.cs:36 | the event text is side, ": ", then the label |
| MudraDetector.Step | Assets/scripts/Mudradetector.cs:21-38 | a null hand changes nothing; otherwise the label becomes the detection, and one event fires iff it changed |
| MudraDetector.StepIdempotent | Assets/scripts/Mudradetector.cs:33-37 | the same hand twice in a row raises nothing the second time |
| MudraDetector.SharedLabelFlaps | Assets/scripts/Mudradetector.cs:13-37 | when the hands disagree, every frame raises a Left and a Right event |
| MudraDetector.SharedLabelFlapsForever | Assets/scripts/Mudradetector.cs:13-37 | once the hands disagree, n more frames with the same poses raise 2n events, a Left and a Right in every frame, and the label ends as the right hand's |
| MudraDetector.Detector.constructor | Assets/scripts/Mudradetector.cs:13 | the label starts as "None" |
| MudraDetector.Detector.DetectMudra | Assets/scripts/Mudradetector.cs:21-38 | the stored label and the events follow `Step` |
| MudraDetector.Detector.Update | Assets/scripts/Mudradetector.cs:15-19 | the left hand, then the right hand, through the shared label |
| MudraDetector.PerHandSettles | Assets/scripts/Mudradetector.cs:21-38 | with one label per hand, each hand raises an event exactly when its own label changes, and a repeated frame raises nothing |
| MudraDetector.PerHandSettlesForever | Assets/scripts/Mudradetector.cs:21-38 | with one label per hand, n ≥ 1 frames of the same poses raise only the first frame's events, and each label settles on its own hand's detection |
| SessionsManager.DefaultTask | Assets/scripts/scrforpinch2/SessionM.cs:10-18 | a task's defaults: target 0.8, hold 3 s, 5 pinches |
| SessionsManager.NewRecord | Assets/scripts/scrforpinch2/SessionM.cs:21-25 | a new record has the date and five zero maxima |
| SessionsManager.Percent | Assets/scripts/scrforpinch2/SessionM.cs:135 | the change is relative to the previous value, or to 1 when that is 0, times 100 |
| SessionsManager.Banding | Assets/scripts/scrforpinch2/SessionM.cs:137-139 | Improved iff > 5; Declined iff < -5; otherwise Stable |
| SessionsManager.CompareRecords | Assets/scripts/scrforpinch2/SessionM.cs:127-142 | no previous record gives the first-session report; otherwise one line per finger 0..4 with the current maximum and its band |
| SessionsManager.BandExamples | Assets/scripts/scrforpinch2/SessionM.cs:135-139 | worked cases: +20 % improved, ±5 % stable, -40 % declined, from 0 gives 100 × current |
| SessionsManager.Advance | Assets/scripts/scrforpinch2/SessionM.cs:101-117 | ends an open pinch; resets the timer, count and flag; moves to the next task, or ends and saves the session past the last |
| SessionsManager.PinchEdge | Assets/scripts/scrforpinch2/SessionM.cs:67-76 | Started iff the value reaches the target while not pinching; Ended iff it falls below while pinching; the flag becomes value ≥ target |
| SessionsManager.RecordMax | Assets/scripts/scrforpinch2/SessionM.cs:90-98 | each maximum becomes the larger of itself and the frame's strength |
| SessionsManager.HoldTask | Assets/scripts/scrforpinch2/SessionM.cs:79-87 | keeps the invariant and the records; a SuccessivePinches task changes nothing; otherwise the task stays with the timer below the hold duration and no event, or advances with the timer and the flag reset |
| SessionsManager.Load | Assets/scripts/scrforpinch2/SessionM.cs:150-158 | the saved record, when there is one, becomes the previous one; nothing else changes |
| SessionsManager.Start | Assets/scripts/scrforpinch2/SessionM.cs:50-58 | starting loads the saved record; it writes the file only when there are no tasks (a zero record) |
| SessionsManager.Finish | Assets/scripts/scrforpinch2/SessionM.cs:119-125 | ending deactivates, saves the current record and reports the comparison with the previous one; nothing else changes |
| SessionsManager.Step | Assets/scripts/scrforpinch2/SessionM.cs:60-99 | a frame keeps the previous record, raises at most two events, and never reactivates a session |
| SessionsManager.EndingFrameSavesEarlierRecord | Assets/scripts/scrforpinch2/SessionM.cs:84-98 | the frame that completes the last task saves and compares the record before its own strengths are recorded; the record in memory includes them, so it differs from the file when that frame set a new maximum |
| SessionsManager.StepKeepsInv | Assets/scripts/scrforpinch2/SessionM.cs:60-99 | a frame keeps the session's invariant: an active session has a task and a record |
| SessionsManager.StartKeepsInv | Assets/scripts/scrforpinch2/SessionM.cs:50-58 | starting keeps the invariant |
| SessionsManager.StartBeginsAtFirstTask | Assets/scripts/scrforpinch2/SessionM.cs:50-58 | a start is at task 0 with a fresh record; with no tasks the session ends at once and saves |
| SessionsManager.StartLoadsSaved | Assets/scripts/scrforpinch2/SessionM.cs:150-158 | the saved record becomes the previous one |
| SessionsManager.InactiveIgnoresFrames | Assets/scripts/scrforpinch2/SessionM.cs:62 | an inactive session ignores frames |
| SessionsManager.StepEdges | Assets/scripts/scrforpinch2/SessionM.cs:67-103 | a frame's Started/Ended events alternate from the flag before it and leave the flag at the last edge |
| SessionsManager.Run | Assets/scripts/scrforpinch2/SessionM.cs:60-99 | any run of frames keeps the invariant |
| SessionsManager.RunEdgesAlternate | Assets/scripts/scrforpinch2/SessionM.cs:67-103 | over any run, Started and Ended alternate |
| SessionsManager.RunMaxMonotone | Assets/scripts/scrforpinch2/SessionM.cs:90-98 | recorded maxima never decrease |
| SessionsManager.RunMaxDominates | Assets/scripts/scrforpinch2/SessionM.cs:90-98 | every strength seen while the session is active is at most the final maximum |
| SessionsManager.HoldResetsBelowTarget | Assets/scripts/scrforpinch2/SessionM.cs:79-84 | below target, the hold timer resets and the current task stays |
| SessionsManager.HoldAccumulates | Assets/scripts/scrforpinch2/SessionM.cs:79-84 | at target the timer grows by dt; the current task advances exactly when it reaches the hold duration |
| SessionsManager.SuccessivePinchesStalls | Assets/scripts/scrforpinch2/SessionM.cs:79-87 | a SuccessivePinches task never completes |
| SessionsManager.Manager.constructor | Assets/scripts/scrforpinch2/SessionM.cs:41-48 | the initial fields: index -1, inactive |
| SessionsManager.Manager.StartSession | Assets/scripts/scrforpinch2/SessionM.cs:50-58 | the fields become `Start` of the old fields |
| SessionsManager.Manager.AdvanceToNextTask | Assets/scripts/scrforpinch2/SessionM.cs:101-117 | the fields become `Advance` of the old fields |
| SessionsManager.Manager.EndSession | Assets/scripts/scrforpinch2/SessionM.cs:119-125 | inactive, the record saved, the report computed |
| SessionsManager.Manager.Update | Assets/scripts/scrforpinch2/SessionM.cs:60-99 | the edge code, then the hold, then the maxima loop, as `Step` |
| SessionFlow.PollStart | Assets/scripts/scriptforscen2/SessionManager.cs:56-66 | a start poll logs nothing; it throws iff a reading throws; otherwise it notes whether either hand reached startThreshold |
| SessionFlow.HoldCheck | Assets/scripts/scriptforscen2/SessionManager.cs:69-94 | a hold poll throws iff a reading throws; it logs a row iff max(left, right) < endThreshold: rep + 1, the finger, PinchRep, now - startTime, the left reading and the stamp, then pauses 0.8 s; otherwise it keeps holding |
| SessionFlow.PollMudra | Assets/scripts/scriptforscen2/SessionManager.cs:107-115 | a mudra poll logs nothing; it sees the target iff either hand's label is Surya, and then takes the time |
| SessionFlow.HoldMudraCheck | Assets/scripts/scriptforscen2/SessionManager.cs:117-132 | once targetHoldSeconds have passed it logs the hold row and pauses 0.8 s; before that it keeps holding |
| SessionFlow.EnterReps | Assets/scripts/scriptforscen2/SessionManager.cs:34-36 | after the first second, finger 0's first rep begins, or the mudra holds when repsPerExercise ≤ 0 |
| SessionFlow.AfterReps | Assets/scripts/scriptforscen2/SessionManager.cs:36-38 | after finger 0's reps come finger 1's; after finger 1's (or with no reps) the first mudra hold |
| SessionFlow.Step | Assets/scripts/scriptforscen2/SessionManager.cs:32-134 | a frame appends at most one row and never removes one; a finished or faulted session stays as it is |
| SessionFlow.InitialInv | Assets/scripts/scriptforscen2/SessionManager.cs:32-34 | the session starts waiting, with no rows |
| SessionFlow.StepKeepsInv | Assets/scripts/scriptforscen2/SessionManager.cs:32-134 | every frame keeps the row count matched to the coroutine's position, with each row in its scripted place |
| SessionFlow.RunKeepsInv | Assets/scripts/scriptforscen2/SessionManager.cs:22-134 | rows are only ever appended, and the shape holds over any run |
| SessionFlow.SessionRows | Assets/scripts/scriptforscen2/SessionManager.cs:32-41 | finger 0's reps, then finger 1's, then the Surya holds, in order; each finger logs max(repsPerExercise, 0) rows, so at export there are exactly 2 × that + 3 rows |
| SessionFlow.RepStartGate | Assets/scripts/scriptforscen2/SessionManager.cs:56-66 | a rep starts only on a frame where either hand reads ≥ startThreshold; nothing is logged while waiting |
| SessionFlow.RepRelease | Assets/scripts/scriptforscen2/SessionManager.cs:70-94 | the rep ends on the first frame with max(left, right) < endThreshold; it logs rep + 1, the finger, "PinchRep", the elapsed time and the LEFT reading, then pauses 0.8 s |
| SessionFlow.RepDurationNonNegative | Assets/scripts/scriptforscen2/SessionManager.cs:69-89 | the hold starts at the frame after the start was seen, so durations are ≥ 0 on a forward clock |
| SessionFlow.MudraStartGate | Assets/scripts/scriptforscen2/SessionManager.cs:107-115 | a hold starts iff either hand's detected mudra is Surya, and the time is taken then |
| SessionFlow.MudraHoldTimer | Assets/scripts/scriptforscen2/SessionManager.cs:117-132 | the hold ignores the mudra; once targetHoldSeconds have passed it logs (hold + 1, -1, "MudraHold", targetHoldSeconds, 1) |
| SessionFlow.PauseWaits | Assets/scripts/scriptforscen2/SessionManager.cs:94 | a WaitForSeconds yield does nothing before its time |
| SessionFlow.ScriptOrder | Assets/scripts/scriptforscen2/SessionManager.cs:36-40 | the last rep of finger 0 hands over to finger 1, the last of finger 1 to the holds, and the third hold to export |
| SessionFlow.ExportedLines | Assets/scripts/scriptforscen2/SessionManager.cs:40 | a finished session writes the header line and 2 × reps + 3 record lines |
| SessionFlow.RowCells | Assets/scripts/scriptforscen2/SessionManager.cs:137-146 | a row becomes seven non-null cells in the field order of the header |
| SessionFlow.Export | Assets/scripts/scriptforscen2/SessionManager.cs:40 | the export writes nothing for no rows; otherwise the header line, then each row's line in order |
| SessionFlow.StubReaderStopsSession | Assets/scripts/scriptforscen2/SessionManager.cs:58-59 | polling the throwing accessor ends the session before any row: nothing is logged and nothing is exported |
| SessionFlow.StubRun | Assets/scripts/scriptforscen2/SessionManager.cs:58-59 | the same, from any waiting or ended state |
| SessionFlow.SmoothedReading | Assets/scripts/scriptforscen2/OVRHandPinch.cs:137-141 | the corrected reading never fails and is in [0,1] (0 before the first frame) |
| SessionFlow.SmoothedSample | Assets/scripts/scriptforscen2/SessionManager.cs:72-73 | a frame sampled from the smoothed table has two successful readings in [0,1] |
| SessionFlow.ReadingsKeepSessionAlive | Assets/scripts/scriptforscen2/SessionManager.cs:56-79 | readings that do not throw never end the session early |
| SessionFlow.Session.constructor | Assets/scripts/scriptforscen2/SessionManager.cs:32-34 | Start() up to its first yield |
| SessionFlow.Session.Tick | Assets/scripts/scriptforscen2/SessionManager.cs:44-134 | a frame resumes the coroutine; the rows are only appended, and the invariant holds |
| CsvExporter.Show | Assets/scripts/scriptforscen2/CSVExperter.cs:36 | null is written as "" |
| CsvExporter.Field | Assets/scripts/scriptforscen2/CSVExperter.cs:35-38 | a value shown and escaped; its contract is that of `Escape` |
| CsvExporter.Joined | Assets/scripts/scriptforscen2/CSVExperter.cs:23-27 | parts separated by single commas; `JoinedCommas` and `SplitJoined` state its properties |
| CsvExporter.JoinedCommas | Assets/scripts/scriptforscen2/CSVExperter.cs:23-27 | comma-free parts are joined with exactly one comma fewer than there are parts |
| CsvExporter.RowLine | Assets/scripts/scriptforscen2/CSVExperter.cs:32-41 | a record's line; `RowLineCommas` and `RowLineRoundTrip` state its properties |
| CsvExporter.RowLineCommas | Assets/scripts/scriptforscen2/CSVExperter.cs:32-41 | a record with no comma in any value has exactly one comma between each two values |
| CsvExporter.Text | Assets/scripts/scriptforscen2/CSVExperter.cs:28-42 | each line followed by a newline; `TextLineCount` states its property |
| CsvExporter.Escape | Assets/scripts/scriptforscen2/CSVExperter.cs:38 | a value changes iff it contains a comma, and then it is wrapped in quotes |
| CsvExporter.Lines | Assets/scripts/scriptforscen2/CSVExperter.cs:22-43 | the header first, then one line per record, in order |
| CsvExporter.Render | Assets/scripts/scriptforscen2/CSVExperter.cs:12-16 | a null or empty list writes nothing; otherwise rows + 1 lines |
| CsvExporter.TextLineCount | Assets/scripts/scriptforscen2/CSVExperter.cs:28-42 | the text ends every line with one newline |
| CsvExporter.WriteHeader | Assets/scripts/scriptforscen2/CSVExperter.cs:22-28 | the header loop joins the names with "," and no trailing comma |
| CsvExporter.WriteRow | Assets/scripts/scriptforscen2/CSVExperter.cs:32-42 | the row loop joins the escaped values with "," |
| CsvExporter.ExportRows | Assets/scripts/scriptforscen2/CSVExperter.cs:10-50 | the nested loops produce exactly the text of `Lines`, or nothing for a null or empty list |
| CsvExporter.EscapedIsOneField | Assets/scripts/scriptforscen2/CSVExperter.cs:38 | an escaped quote-free value reads back as one field and unescapes to itself |
| CsvExporter.SplitJoined | Assets/scripts/scriptforscen2/CSVExperter.cs:23-27 | joined fields split back into the same fields |
| CsvExporter.RowLineRoundTrip | Assets/scripts/scriptforscen2/CSVExperter.cs:30-43 | a record line reads back as its values (null as "") when no value holds a quote |
| CsvExporter.EmbeddedQuoteSplits | Assets/scripts/scriptforscen2/CSVExperter.cs:38 | embedded quotes are not escaped: the value a",b reads back as two fields |

## Left out

- UI and presentation are not modelled: sliders (`UpdateFingerStrength`), text, sprites and debug strings (`UpdateUI`, `GetSpriteForMudra`, `UpdateStatusText`, `UpdateTaskProgress`, `uiDisplay`). They only display values.
- The Debug.Log calls and `showDebugLogs`/`verboseDebug` are left out. They are output only.
- Float rounding is not modelled: every float is an exact real.
- `Vector3.Distance` is a parameter (`Metric`), because Dafny has no square root.
- File I/O is not modelled:
  - SessionsManager's JSON save and load become the `saved` field and the `previous` record.
  - CSVExporter's `File.WriteAllText` becomes the returned text.
  - The timestamped file name is not modelled.
- `DateTime.Now`/`UtcNow` strings are parameters (`date`, `stamp`). `Time.time` and `Time.deltaTime` are parameters too.
- The OVR SDK (OVRHand, OVRSkeleton) is replaced by plain inputs (`HandReading`, `Skeleton`). HandDataReader's `RightHandPinchStrengths` is the `strengths` parameter of `SessionsManager.Step`.
- A null entry in a bone list is not modelled (`Skeleton` entries are never null). TryGetBonePosition's `bone == null` guard therefore has no counterpart.
- The commented-out block at the end of OVRHAndsPinch.cs (lines 191-368) is not compiled, so it is not modelled.
- OvrHandsPinch.Component.ProcessHand: the settings are held to their inspector `[Range]`s. smoothing = 0, which divides by zero, is not modelled.
- MudraDetection.DetectMudra: with normalisation on, a reference length of exactly 0 is excluded. The float division then gives an infinite or NaN multiplier, and reals have no such values. Any reference is accepted with normalisation off, and any non-zero one with it on.
- OvrHandPinch.Component.ProcessHand: for a tracked hand with the fallback on, the skeleton must be `Readable` (bones 19..23 present with transforms). The source's IndexOutOfRange and null exceptions for a short list are not modelled. A null or untracked hand returns before any bone is read, so it is accepted with any skeleton.
- CsvExporter.Text: every line ends in `'\n'` (`NewLine`). `StringBuilder.AppendLine` writes `Environment.NewLine`, which is `"\r\n"` on Windows. The platform's line terminator is not modelled.
- SessionFlow.RowFieldNames: the columns follow the declaration order of the row's fields. `Type.GetFields()` does not guarantee any order. The model assumes declaration order, which is what the runtime usually returns.
- RehabManager.Manager.ProcessHand: the events are invoked without `?.`, so an unassigned UnityEvent would throw. The model assumes all four are assigned.
- OvrHandsPinch.Component.ProcessHand: the five raw strengths are computed before the channel updates rather than inside each loop turn. This is equivalent, because a raw strength does not depend on the tables.
- SessionsManager.Manager.constructor: loaded JSON records must have five maxima (`FiveSlots`). A malformed file is not modelled.
- SessionsManager: `successfulPinches` is only ever reset and never counted, so it is kept as a field with no behaviour.
- SessionFlow: `isHolding`, `holdStartTime`, `currentFinger` and `currentTaskName` are assigned or unused locals of the coroutine. The phase and the rows carry their roles.
- SessionFlow.Sample: each frame's pinch readings are those for the finger the coroutine is polling. Which finger that is follows from the phase.
- SessionFlow.RowCells: float and int formatting (`ToString`) is the `showReal` parameter and `IntString`. Culture settings are not modelled.
- SessionFlow: `Faulted` ends the whole session when a nested coroutine throws. This is an assumption of the model. Whether Unity resumes Start() after a nested coroutine throws is not modelled. If it does resume, finger 1's reps throw too, and the Surya holds would still be logged and exported. Unity's logging of the exception is not modelled either.
- MudraDetector.Detector.DetectMudra: `OnMudraDetected` is invoked without `?.` (Mudradetector.cs:36), so an unassigned UnityEvent would throw. The model assumes it is assigned.

## Findings

| source | as written | input that shows it | evidently intended | confidence | as-written member | corrected member |
|---|---|---|---|---|---|---|
| Assets/scripts/scriptforscen2/SessionManager.cs:58-59 | the session polls OVRHAndsPinch.GetPinchStrength, which always throws NotImplementedException (OVRHAndsPinch.cs:186-189) | any frame after the 1 s delay with repsPerExercise > 0: the first poll throws, so no PinchRep row is ever logged (`StubRun`; with `Faulted` ending the session, nothing is exported either) | read the smoothed strength the pinch component stores for that hand and finger, as OVRHandPinch.GetPinchStrength does (`SmoothedReading`; `ReadingsKeepSessionAlive` shows the session then logs its rows) | high; not executed | SessionFlow.StubReaderStopsSession | SessionFlow.SmoothedSample |
| Assets/scripts/Mudradetector.cs:13 | one `currentMudra` is shared by both hands | left hand pinching thumb and ring, right hand not: every frame raises "Left: Surya Mudra" and then "Right: None" (`SharedLabelFlaps` for one frame) | remember the label per hand, so that an event marks a real change (`PerHandSettles` for one frame) | medium; not executed | MudraDetector.SharedLabelFlapsForever | MudraDetector.PerHandSettlesForever |
