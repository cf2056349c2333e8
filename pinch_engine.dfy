/**
 * The per-frame pinch latch shared by the three pinch components
 * (OVRHAndsPinch, OVRHandPinch, OVRHandsPinchRehabManager).
 *
 * For every (hand, channel) key the engine keeps three lazily created table
 * entries: the smoothed strength, the strength at which a micro-movement was
 * last reported, and the pinch latch. Each tracked frame low-pass filters the
 * raw strength, reports a micro-movement when the drift reaches a delta, and
 * runs a two-threshold hysteresis latch that emits Start, Hold and End. The
 * three components differ only in the configuration below.
 */
module PinchEngine {
  import opened Wrappers
  import opened UnityMath
  import opened Hands

  /** A dictionary key (OVRHand, fingerIndex). */
  datatype Key = Key(hand: HandRef, channel: int)

  /** How the interpolation factor of the low-pass filter is obtained. */
  datatype BlendPolicy =
    | FrameTime(smoothing: real)   // t = deltaTime * (1 / smoothing)
    | PerFrame(smoothing: real)    // t = smoothing, a constant per frame
    | Complement(smoothing: real)  // t = 1 - smoothing

  /** What an untracked (or null) hand does to the tables. */
  datatype UntrackedPolicy =
    | ZeroSmoothed    // every channel's smoothed strength is set to 0
    | LeaveUnchanged  // the frame is skipped

  datatype EngineConfig = EngineConfig(
    channels: nat,
    blend: BlendPolicy,
    clampSmoothed: bool,
    onUntracked: UntrackedPolicy,
    startThreshold: real,
    endThreshold: real,
    microMovementDelta: real)

  /** The frame-time policy divides by its smoothing, which the inspector keeps in [0.01, 1]. */
  predicate ValidConfig(c: EngineConfig) {
    c.blend.FrameTime? ==> c.blend.smoothing > 0.0
  }

  function BlendFactor(b: BlendPolicy, dt: real): real
    requires b.FrameTime? ==> b.smoothing > 0.0
  {
    match b
    case FrameTime(s) => dt * (1.0 / s)
    case PerFrame(s) => s
    case Complement(s) => 1.0 - s
  }

  /** The events a frame emits; UnityEvent.Invoke calls become these values. */
  datatype PinchEvent =
    | Start(hand: HandRef, finger: int, strength: real)
    | Hold(hand: HandRef, finger: int, strength: real)
    | End(hand: HandRef, finger: int, strength: real)
    | MicroMovement(hand: HandRef, finger: int)

  /** The three dictionaries smoothedStrength, lastReportedStrength and isPinched. */
  datatype EngineState = EngineState(
    smoothed: map<Key, real>,
    lastReported: map<Key, real>,
    pinched: map<Key, bool>)

  const EmptyState := EngineState(map[], map[], map[])

  function Lookup(m: map<Key, real>, k: Key): Option<real> {
    if k in m then Some(m[k]) else None
  }

  /** isPinched[key], where a missing entry reads as false. */
  function IsPinched(st: EngineState, k: Key): bool {
    k in st.pinched && st.pinched[k]
  }

  /**
   * The new smoothed strength of one channel: the previous value (or the raw value
   * on the first observation) blended towards the raw value, then clamped when
   * the configuration asks for it.
   */
  function Smoothed(c: EngineConfig, prev: Option<real>, raw: real, dt: real): (s: real)
    requires ValidConfig(c)
    ensures c.clampSmoothed ==> InUnit(s)
    ensures !c.clampSmoothed ==> Between(s, prev.GetOr(raw), raw)
    ensures InUnit(prev.GetOr(raw)) && InUnit(raw) ==> Between(s, prev.GetOr(raw), raw) && InUnit(s)
    ensures prev.None? && (InUnit(raw) || !c.clampSmoothed) ==> s == raw
  {
    var from := prev.GetOr(raw);
    var blended := Lerp(from, raw, BlendFactor(c.blend, dt));
    if c.clampSmoothed then Clamp01(blended) else blended
  }

  predicate HasStart(evs: seq<PinchEvent>) { exists e :: e in evs && e.Start? }
  predicate HasHold(evs: seq<PinchEvent>) { exists e :: e in evs && e.Hold? }
  predicate HasEnd(evs: seq<PinchEvent>) { exists e :: e in evs && e.End? }
  predicate HasMicro(evs: seq<PinchEvent>) { exists e :: e in evs && e.MicroMovement? }

  datatype LatchOut = LatchOut(pinched: bool, events: seq<PinchEvent>)

  /** The hysteresis latch of one channel for one frame, given the smoothed strength s. */
  function Latch(c: EngineConfig, hand: HandRef, i: int, was: bool, s: real): (r: LatchOut)
    ensures r.pinched != was ==> (if was then s < c.endThreshold else s >= c.startThreshold)
    ensures r.pinched <==> (if was then s >= c.endThreshold else s >= c.startThreshold)
    ensures HasStart(r.events) <==> !was && s >= c.startThreshold
    ensures HasHold(r.events) <==> was
    ensures HasEnd(r.events) <==> was && s < c.endThreshold
    ensures !HasMicro(r.events)
    ensures HasStart(r.events) ==> r.events == [Start(hand, i, s)]
    ensures HasEnd(r.events) ==> r.events == [Hold(hand, i, s), End(hand, i, s)]
    ensures was && s >= c.endThreshold ==> r.events == [Hold(hand, i, s)]
    ensures !was && s < c.startThreshold ==> r.events == []
  {
    if !was then
      if s >= c.startThreshold then
        assert Start(hand, i, s) in [Start(hand, i, s)];
        LatchOut(true, [Start(hand, i, s)])
      else LatchOut(false, [])
    else
      if s < c.endThreshold then
        var evs := [Hold(hand, i, s), End(hand, i, s)];
        assert evs[0] in evs && evs[1] in evs;
        LatchOut(false, evs)
      else
        assert Hold(hand, i, s) in [Hold(hand, i, s)];
        LatchOut(true, [Hold(hand, i, s)])
  }

  datatype ChannelOut = ChannelOut(
    smoothed: real, lastReported: real, pinched: bool, micro: bool, events: seq<PinchEvent>)

  /** The last reported strength a channel compares against: the stored one, or s itself at first. */
  function ReportedBefore(st: EngineState, k: Key, s: real): real {
    if k in st.lastReported then st.lastReported[k] else s
  }

  /** One tracked frame of channel i of a hand, read against the state st. */
  function StepChannel(c: EngineConfig, st: EngineState, hand: HandRef, i: int, raw: real, dt: real): (r: ChannelOut)
    requires ValidConfig(c)
    ensures 1 <= |r.events| + (if IsPinched(st, Key(hand, i)) then 0 else 1) <= 3
    ensures r.micro ==> r.lastReported == r.smoothed
    ensures r.pinched && !IsPinched(st, Key(hand, i)) ==> |r.events| > 0 && r.events[|r.events| - 1] == Start(hand, i, r.smoothed)
    ensures !r.pinched && IsPinched(st, Key(hand, i)) ==> |r.events| > 0 && r.events[|r.events| - 1] == End(hand, i, r.smoothed)
  {
    var k := Key(hand, i);
    var s := Smoothed(c, Lookup(st.smoothed, k), raw, dt);
    var last := ReportedBefore(st, k, s);
    var micro := Abs(s - last) >= c.microMovementDelta;
    var latch := Latch(c, hand, i, IsPinched(st, k), s);
    ChannelOut(s, if micro then s else last, latch.pinched, micro,
               (if micro then [MicroMovement(hand, i)] else []) + latch.events)
  }

  /**
   * What one channel's frame does: smooth, report a micro-movement exactly when the
   * drift from the last reported strength reaches the delta (never on the first
   * observation when the delta is positive), then run the latch on the smoothed
   * strength; the micro-movement event, if any, precedes the latch's events.
   */
  lemma StepChannelSpec(c: EngineConfig, st: EngineState, hand: HandRef, i: int, raw: real, dt: real)
    requires ValidConfig(c)
    ensures var r := StepChannel(c, st, hand, i, raw, dt);
      && r.smoothed == Smoothed(c, Lookup(st.smoothed, Key(hand, i)), raw, dt)
      && (r.micro <==> Abs(r.smoothed - ReportedBefore(st, Key(hand, i), r.smoothed)) >= c.microMovementDelta)
      && r.lastReported == (if r.micro then r.smoothed else ReportedBefore(st, Key(hand, i), r.smoothed))
      && (Key(hand, i) !in st.lastReported && c.microMovementDelta > 0.0 ==> !r.micro && r.lastReported == r.smoothed)
      && (HasMicro(r.events) <==> r.micro)
      && r.events[..if r.micro then 1 else 0] == (if r.micro then [MicroMovement(hand, i)] else [])
      && r.events[if r.micro then 1 else 0..] == Latch(c, hand, i, IsPinched(st, Key(hand, i)), r.smoothed).events
      && r.pinched == Latch(c, hand, i, IsPinched(st, Key(hand, i)), r.smoothed).pinched
  {
    var r := StepChannel(c, st, hand, i, raw, dt);
    var latch := Latch(c, hand, i, IsPinched(st, Key(hand, i)), r.smoothed);
    var microEvents := if r.micro then [MicroMovement(hand, i)] else [];
    assert r.events == microEvents + latch.events;
    assert !HasMicro(latch.events);
    assert r.micro ==> r.events[0] in r.events;
  }

  /** Writes one channel's outcome into the three tables. */
  function Apply(st: EngineState, k: Key, r: ChannelOut): (st': EngineState)
    ensures k in st'.smoothed && st'.smoothed[k] == r.smoothed
    ensures k in st'.lastReported && st'.lastReported[k] == r.lastReported
    ensures k in st'.pinched && st'.pinched[k] == r.pinched
  {
    EngineState(st.smoothed[k := r.smoothed], st.lastReported[k := r.lastReported], st.pinched[k := r.pinched])
  }

  /** Channels 0 .. n-1 of a tracked hand, processed in order. */
  function Tracked(c: EngineConfig, st: EngineState, hand: HandRef, raw: seq<real>, dt: real, n: nat)
    : (r: (EngineState, seq<PinchEvent>))
    requires ValidConfig(c) && n <= |raw|
  {
    if n == 0 then (st, [])
    else
      var (st', evs) := Tracked(c, st, hand, raw, dt, n - 1);
      var r := StepChannel(c, st', hand, n - 1, raw[n - 1], dt);
      (Apply(st', Key(hand, n - 1), r), evs + r.events)
  }

  /** Every event of a channel's frame carries that channel's hand and finger. */
  lemma StepChannelEventsOwn(c: EngineConfig, st: EngineState, hand: HandRef, i: int, raw: real, dt: real)
    requires ValidConfig(c)
    ensures forall e :: e in StepChannel(c, st, hand, i, raw, dt).events ==> e.hand == hand && e.finger == i
  {
    var r := StepChannel(c, st, hand, i, raw, dt);
    var latch := Latch(c, hand, i, IsPinched(st, Key(hand, i)), r.smoothed);
    assert r.events == (if r.micro then [MicroMovement(hand, i)] else []) + latch.events;
  }

  /** The channel loop of a tracked hand raises events only for that hand and channels 0 .. n-1. */
  lemma {:induction false} TrackedEventsOwn(
    c: EngineConfig, st: EngineState, hand: HandRef, raw: seq<real>, dt: real, n: nat)
    requires ValidConfig(c) && n <= |raw|
    ensures forall e :: e in Tracked(c, st, hand, raw, dt, n).1 ==> e.hand == hand && 0 <= e.finger < n
  {
    if n > 0 {
      TrackedEventsOwn(c, st, hand, raw, dt, n - 1);
      var prev := Tracked(c, st, hand, raw, dt, n - 1);
      StepChannelEventsOwn(c, prev.0, hand, n - 1, raw[n - 1], dt);
      var r := StepChannel(c, prev.0, hand, n - 1, raw[n - 1], dt);
      assert Tracked(c, st, hand, raw, dt, n).1 == prev.1 + r.events;
    }
  }

  /** The smoothed table with channels 0 .. n-1 of a hand set to 0. */
  function ZeroChannels(m: map<Key, real>, hand: HandRef, n: nat): (z: map<Key, real>)
    ensures forall i :: 0 <= i < n ==> Key(hand, i) in z && z[Key(hand, i)] == 0.0
    ensures forall k :: k in m ==> k in z
  {
    if n == 0 then m else ZeroChannels(m, hand, n - 1)[Key(hand, n - 1) := 0.0]
  }

  predicate Untracked(hand: HandRef, tracked: bool) {
    hand.NullHand? || !tracked
  }

  /** ProcessHand: one frame of one hand. */
  function Process(c: EngineConfig, st: EngineState, hand: HandRef, tracked: bool, raw: seq<real>, dt: real)
    : (r: (EngineState, seq<PinchEvent>))
    requires ValidConfig(c) && |raw| == c.channels
    ensures forall e :: e in r.1 ==> e.hand == hand && 0 <= e.finger < c.channels
    ensures Untracked(hand, tracked) ==> r.1 == [] && r.0.pinched == st.pinched && r.0.lastReported == st.lastReported
  {
    if Untracked(hand, tracked) then
      if c.onUntracked == ZeroSmoothed then
        (st.(smoothed := ZeroChannels(st.smoothed, hand, c.channels)), [])
      else (st, [])
    else
      TrackedEventsOwn(c, st, hand, raw, dt, c.channels);
      Tracked(c, st, hand, raw, dt, c.channels)
  }

  /** The stored smoothed strength of a key, 0 for a key never seen. */
  function ReadSmoothed(st: EngineState, k: Key): real {
    if k in st.smoothed then st.smoothed[k] else 0.0
  }

  /** The engine object: its three dictionaries are fields that ProcessHand updates in place. */
  class Engine {
    const config: EngineConfig
    var smoothed: map<Key, real>
    var lastReported: map<Key, real>
    var pinched: map<Key, bool>

    function State(): EngineState
      reads this
    {
      EngineState(smoothed, lastReported, pinched)
    }

    constructor(c: EngineConfig)
      ensures config == c && State() == EmptyState
    {
      config := c;
      smoothed := map[];
      lastReported := map[];
      pinched := map[];
    }

    method ProcessHand(hand: HandRef, tracked: bool, raw: seq<real>, dt: real)
      returns (events: seq<PinchEvent>)
      requires ValidConfig(config) && |raw| == config.channels
      modifies this
      ensures (State(), events) == Process(config, old(State()), hand, tracked, raw, dt)
    {
      events := [];
      if hand.NullHand? || !tracked {
        if config.onUntracked == ZeroSmoothed {
          var i := 0;
          while i < config.channels
            invariant 0 <= i <= config.channels
            invariant smoothed == ZeroChannels(old(smoothed), hand, i)
            invariant lastReported == old(lastReported) && pinched == old(pinched)
          {
            smoothed := smoothed[Key(hand, i) := 0.0];
            i := i + 1;
          }
        }
        return;
      }
      var i := 0;
      while i < config.channels
        invariant 0 <= i <= config.channels
        invariant (State(), events) == Tracked(config, old(State()), hand, raw, dt, i)
      {
        var evs := StepKey(hand, i, raw[i], dt);
        events := events + evs;
        i := i + 1;
      }
    }

    /** The body of ProcessHand's per-finger loop for one key. */
    method StepKey(hand: HandRef, i: int, r: real, dt: real) returns (evs: seq<PinchEvent>)
      requires ValidConfig(config)
      modifies this
      ensures State() == Apply(old(State()), Key(hand, i), StepChannel(config, old(State()), hand, i, r, dt))
      ensures evs == StepChannel(config, old(State()), hand, i, r, dt).events
    {
      var key := Key(hand, i);
      var s := SmoothKey(key, r, dt);
      var microEvents := ReportKey(key, s);
      var latchEvents := LatchKey(key, s);
      evs := microEvents + latchEvents;
    }

    /** Smoothing: the first observation starts at the raw value, then the blend (and clamp). */
    method SmoothKey(key: Key, r: real, dt: real) returns (s: real)
      requires ValidConfig(config)
      modifies this
      ensures s == Smoothed(config, Lookup(old(smoothed), key), r, dt)
      ensures smoothed == old(smoothed)[key := s]
      ensures lastReported == old(lastReported) && pinched == old(pinched)
    {
      if key !in smoothed {
        smoothed := smoothed[key := r];
      }
      s := Lerp(smoothed[key], r, BlendFactor(config.blend, dt));
      if config.clampSmoothed {
        s := Clamp01(s);
      }
      smoothed := smoothed[key := s];
    }

    /** Micro-movement: report when the drift from the last reported strength reaches the delta. */
    method ReportKey(key: Key, s: real) returns (evs: seq<PinchEvent>)
      modifies this
      ensures var last := if key in old(lastReported) then old(lastReported)[key] else s;
              var micro := Abs(s - last) >= config.microMovementDelta;
              && evs == (if micro then [MicroMovement(key.hand, key.channel)] else [])
              && lastReported == old(lastReported)[key := if micro then s else last]
      ensures smoothed == old(smoothed) && pinched == old(pinched)
    {
      if key !in lastReported {
        lastReported := lastReported[key := s];
      }
      evs := [];
      if Abs(s - lastReported[key]) >= config.microMovementDelta {
        evs := [MicroMovement(key.hand, key.channel)];
        lastReported := lastReported[key := s];
      }
    }

    /** The hysteresis latch: Start when released, Hold every latched frame, End below the end threshold. */
    method LatchKey(key: Key, s: real) returns (evs: seq<PinchEvent>)
      modifies this
      ensures var out := Latch(config, key.hand, key.channel, key in old(pinched) && old(pinched)[key], s);
              evs == out.events && pinched == old(pinched)[key := out.pinched]
      ensures smoothed == old(smoothed) && lastReported == old(lastReported)
    {
      if key !in pinched {
        pinched := pinched[key := false];
      }
      evs := [];
      if !pinched[key] {
        if s >= config.startThreshold {
          pinched := pinched[key := true];
          evs := [Start(key.hand, key.channel, s)];
        }
      } else {
        evs := [Hold(key.hand, key.channel, s)];
        if s < config.endThreshold {
          pinched := pinched[key := false];
          evs := evs + [End(key.hand, key.channel, s)];
        }
      }
    }
  }
}
