/**
 * OVRHandPinch: the four-finger pinch component (index to pinky, channels 0-3).
 * The raw strength comes from the hand tracker or from the distance between
 * the bones at the thumb-tip and finger-tip positions of the skeleton's bone
 * list; the smoothing factor is a constant per frame, there is no clamp, and an
 * untracked hand leaves the tables as they are. GetPinchStrength reads the
 * smoothed table.
 */
module OvrHandPinch {
  import opened Wrappers
  import opened UnityMath
  import opened Hands
  import opened PinchEngine
  import opened PinchEngineLemmas

  /** The inspector settings of the component. */
  datatype Settings = Settings(
    useOvrStrength: bool,
    pinchDistanceMin: real,
    pinchDistanceMax: real,
    startThreshold: real,
    endThreshold: real,
    smoothing: real,
    microMovementDelta: real)

  const Defaults := Settings(true, 0.015, 0.05, 0.6, 0.45, 0.15, 0.01)

  /** The inspector ranges: the thresholds and the smoothing factor in [0,1]; the distances are unconstrained. */
  predicate ValidSettings(s: Settings) {
    InUnit(s.startThreshold) && InUnit(s.endThreshold) && InUnit(s.smoothing)
  }

  /** Four channels, blend factor smoothing per frame, no clamp, untracked frames skipped. */
  function Config(s: Settings): (c: EngineConfig)
    ensures ValidConfig(c) && c.channels == 4
  {
    EngineConfig(4, PerFrame(s.smoothing), false, LeaveUnchanged, s.startThreshold, s.endThreshold, s.microMovementDelta)
  }

  /** Channel i is the finger fingerEnums[i]: Index, Middle, Ring, Pinky. */
  const Fingers: seq<HandFinger> := [Index, Middle, Ring, Pinky]

  /** The tip bone compared against the thumb tip for channel i. */
  function TipBone(i: int): (id: int)
    ensures 0 <= i < 4 ==> id == IndexTip + i
  {
    if i == 1 then MiddleTip
    else if i == 2 then RingTip
    else if i == 3 then PinkyTip
    else IndexTip
  }

  /**
   * DistanceToStrength: 1 at or below pinchDistanceMin, 0 at or above pinchDistanceMax,
   * and 1 - (d - min) / (max - min) in between; never outside [0,1].
   */
  function DistanceToStrength(s: Settings, d: real): (r: real)
    ensures InUnit(r)
    ensures d <= s.pinchDistanceMin ==> r == 1.0
    ensures d > s.pinchDistanceMin && d >= s.pinchDistanceMax ==> r == 0.0
  {
    if d <= s.pinchDistanceMin then 1.0
    else if d >= s.pinchDistanceMax then 0.0
    else
      var t := (d - s.pinchDistanceMin) / (s.pinchDistanceMax - s.pinchDistanceMin);
      FractionComplement(d - s.pinchDistanceMin, s.pinchDistanceMax - d);
      1.0 - t
  }

  /**
   * On a proper band (min < max) this conversion and the InverseLerp(max, min, d) of the
   * five-finger component give the same strength for every distance.
   */
  lemma DistanceToStrengthIsInverseLerp(s: Settings, d: real)
    requires s.pinchDistanceMin < s.pinchDistanceMax
    ensures DistanceToStrength(s, d) == InverseLerp(s.pinchDistanceMax, s.pinchDistanceMin, d)
  {
    InverseLerpDescending(s.pinchDistanceMax, s.pinchDistanceMin, d);
    if s.pinchDistanceMin < d < s.pinchDistanceMax {
      FractionComplement(d - s.pinchDistanceMin, s.pinchDistanceMax - d);
      assert (d - s.pinchDistanceMin) + (s.pinchDistanceMax - d) == s.pinchDistanceMax - s.pinchDistanceMin;
    }
  }

  /** Two positive parts of a whole: each fraction lies strictly inside (0, 1) and they sum to 1. */
  lemma FractionComplement(a: real, b: real)
    requires a > 0.0 && b > 0.0
    ensures 0.0 < a / (a + b) < 1.0
    ensures 1.0 - a / (a + b) == b / (a + b)
  {
    var q := a / (a + b);
    var r := b / (a + b);
    assert q * (a + b) == a;
    assert r * (a + b) == b;
    var e := q + r - 1.0;
    assert e * (a + b) == 0.0;
    assert e == (e * (a + b)) / (a + b);
  }

  /**
   * The fallback indexes skeleton.Bones by position and dereferences the Transforms
   * of the thumb tip and the four finger tips: a non-empty bone list must reach
   * the pinky tip and those five bones must have a Transform.
   */
  predicate Readable(sk: Skeleton) {
    sk.Some? && |sk.value| > 0 ==>
      |sk.value| > PinkyTip && forall id :: ThumbTip <= id <= PinkyTip ==> sk.value[id].transform.Some?
  }

  /** The raw strength of channel i in distance mode: 0 without bones, else from the two positions. */
  function FallbackStrength(s: Settings, sk: Skeleton, i: int, dist: Metric): (r: real)
    requires Readable(sk) && 0 <= i < 4
    ensures InUnit(r)
    ensures sk.None? || |sk.value| == 0 ==> r == 0.0
  {
    if sk.Some? && |sk.value| > 0 then
      var thumb := sk.value[ThumbTip].transform.value;
      var tip := sk.value[TipBone(i)].transform.value;
      DistanceToStrength(s, dist(thumb, tip))
    else 0.0
  }

  /** The raw strength of channel i: the tracker's strength for fingerEnums[i], or the fallback. */
  function RawStrength(s: Settings, reading: HandReading, sk: Skeleton, dist: Metric, i: int): real
    requires WellFormed(reading) && (s.useOvrStrength || Readable(sk)) && 0 <= i < 4
  {
    if s.useOvrStrength then PinchOf(reading, Fingers[i]) else FallbackStrength(s, sk, i, dist)
  }

  function RawStrengths(s: Settings, reading: HandReading, sk: Skeleton, dist: Metric): (raw: seq<real>)
    requires WellFormed(reading) && (s.useOvrStrength || Readable(sk))
    ensures |raw| == 4 && forall i :: 0 <= i < 4 ==> raw[i] == RawStrength(s, reading, sk, dist, i)
    ensures forall i :: 0 <= i < 4 ==> InUnit(raw[i])
  {
    seq(4, i requires 0 <= i < 4 => RawStrength(s, reading, sk, dist, i))
  }

  /** Channel i reads the tracker's strength of finger i + 1 (the thumb is skipped). */
  lemma ChannelsSkipThumb(s: Settings, reading: HandReading, sk: Skeleton, dist: Metric, i: int)
    requires WellFormed(reading) && s.useOvrStrength && 0 <= i < 4
    ensures RawStrengths(s, reading, sk, dist)[i] == reading.pinch[i + 1]
    ensures Ordinal(Fingers[i]) == i + 1
  {
  }

  /**
   * The inputs ProcessHand handles without a fault: a null or untracked hand returns
   * before any bone is read, the tracker's strengths read no bone, and the fallback
   * needs a readable skeleton.
   */
  predicate Processable(s: Settings, reading: HandReading, sk: Skeleton) {
    WellFormed(reading) && (Untracked(reading.hand, reading.tracked) || s.useOvrStrength || Readable(sk))
  }

  /** The raw strengths ProcessHand hands to the engine: none are read for an untracked hand, which the engine skips. */
  function FrameRaw(s: Settings, reading: HandReading, sk: Skeleton, dist: Metric): seq<real>
    requires Processable(s, reading, sk)
  {
    if Untracked(reading.hand, reading.tracked) then [0.0, 0.0, 0.0, 0.0] else RawStrengths(s, reading, sk, dist)
  }

  /** One ProcessHand call on one hand, as a function of the tables before it. */
  function Frame(s: Settings, st: EngineState, reading: HandReading, sk: Skeleton, dist: Metric, dt: real)
    : (EngineState, seq<PinchEvent>)
    requires Processable(s, reading, sk)
  {
    Process(Config(s), st, reading.hand, reading.tracked, FrameRaw(s, reading, sk, dist), dt)
  }

  /**
   * A null or untracked hand changes nothing and raises nothing, whatever its skeleton;
   * wherever every channel can be read, the frame is the engine's frame on those four
   * raw strengths.
   */
  lemma FrameSkipsUntracked(s: Settings, st: EngineState, reading: HandReading, sk: Skeleton, dist: Metric, dt: real)
    requires Processable(s, reading, sk)
    ensures Untracked(reading.hand, reading.tracked) ==> Frame(s, st, reading, sk, dist, dt) == (st, [])
    ensures s.useOvrStrength || Readable(sk) ==>
      Frame(s, st, reading, sk, dist, dt) == Process(Config(s), st, reading.hand, reading.tracked, RawStrengths(s, reading, sk, dist), dt)
  {
  }

  /**
   * With smoothing 0 a channel never leaves its first observation: the blend factor
   * is 0 on every frame after the first.
   */
  lemma ZeroSmoothingFreezes(s: Settings, st: EngineState, reading: HandReading, sk: Skeleton, dist: Metric, dt: real, i: int)
    requires Processable(s, reading, sk) && s.smoothing == 0.0
    requires reading.hand.HandObj? && reading.tracked && 0 <= i < 4 && Key(reading.hand, i) in st.smoothed
    ensures ReadSmoothed(Frame(s, st, reading, sk, dist, dt).0, Key(reading.hand, i)) == st.smoothed[Key(reading.hand, i)]
  {
    ReadAfterTracked(Config(s), st, reading.hand, RawStrengths(s, reading, sk, dist), dt, i);
  }

  /** The component: its settings and the engine holding its three dictionaries. */
  class Component {
    const settings: Settings
    const engine: Engine

    /** The engine runs this component's configuration; its tables hold strengths in [0,1] for the four channels only. */
    ghost predicate Valid()
      reads engine
    {
      && ValidSettings(settings) && engine.config == Config(settings)
      && UnitState(engine.State()) && KeysIn(engine.State(), 4)
    }

    constructor(s: Settings)
      requires ValidSettings(s)
      ensures settings == s && Valid() && fresh(engine) && engine.State() == EmptyState
    {
      settings := s;
      engine := new Engine(Config(s));
    }

    /** The distance fallback of channel i, read from the bone list by position. */
    method Fallback(sk: Skeleton, i: int, dist: Metric) returns (r: real)
      requires Readable(sk) && 0 <= i < 4
      ensures r == FallbackStrength(settings, sk, i, dist)
    {
      r := 0.0;
      if sk.Some? && |sk.value| > 0 {
        var thumb := sk.value[ThumbTip].transform.value;
        var tipId := IndexTip;
        if i == 0 {
          tipId := IndexTip;
        } else if i == 1 {
          tipId := MiddleTip;
        } else if i == 2 {
          tipId := RingTip;
        } else if i == 3 {
          tipId := PinkyTip;
        }
        var tip := sk.value[tipId].transform.value;
        var d := dist(thumb, tip);
        if d <= settings.pinchDistanceMin {
          r := 1.0;
        } else if d >= settings.pinchDistanceMax {
          r := 0.0;
        } else {
          var t := (d - settings.pinchDistanceMin) / (settings.pinchDistanceMax - settings.pinchDistanceMin);
          r := 1.0 - t;
        }
      }
    }

    /** ProcessHand(hand, skeleton): nothing when untracked, else the four channels' raw strengths and the engine's frame. */
    method ProcessHand(reading: HandReading, sk: Skeleton, dist: Metric, dt: real) returns (events: seq<PinchEvent>)
      requires Valid() && Processable(settings, reading, sk)
      modifies engine
      ensures (engine.State(), events) == Frame(settings, old(engine.State()), reading, sk, dist, dt)
      ensures Valid()
    {
      var raw: seq<real> := [0.0, 0.0, 0.0, 0.0];
      if !Untracked(reading.hand, reading.tracked) {
        raw := [];
        var i := 0;
        while i < 4
          invariant 0 <= i <= 4
          invariant raw == RawStrengths(settings, reading, sk, dist)[..i]
          invariant unchanged(engine)
        {
          var r: real;
          if settings.useOvrStrength {
            r := PinchOf(reading, Fingers[i]);
          } else {
            r := Fallback(sk, i, dist);
          }
          raw := raw + [r];
          i := i + 1;
        }
        assert raw == RawStrengths(settings, reading, sk, dist);
      }
      ProcessKeepsUnit(engine.config, engine.State(), reading.hand, reading.tracked, raw, dt);
      ProcessKeepsKeys(engine.config, engine.State(), reading.hand, reading.tracked, raw, dt);
      events := engine.ProcessHand(reading.hand, reading.tracked, raw, dt);
    }

    /** Update: the left hand, then the right hand; the events in that order. */
    method Update(left: HandReading, leftSkeleton: Skeleton, right: HandReading, rightSkeleton: Skeleton,
                  dist: Metric, dt: real) returns (events: seq<PinchEvent>)
      requires Valid() && Processable(settings, left, leftSkeleton) && Processable(settings, right, rightSkeleton)
      modifies engine
      ensures engine.State() == Frame(settings, Frame(settings, old(engine.State()), left, leftSkeleton, dist, dt).0,
                                      right, rightSkeleton, dist, dt).0
      ensures events == Frame(settings, old(engine.State()), left, leftSkeleton, dist, dt).1
                      + Frame(settings, Frame(settings, old(engine.State()), left, leftSkeleton, dist, dt).0,
                              right, rightSkeleton, dist, dt).1
      ensures Valid()
    {
      ghost var before := engine.State();
      var l := ProcessHand(left, leftSkeleton, dist, dt);
      assert engine.State() == Frame(settings, before, left, leftSkeleton, dist, dt).0;
      assert l == Frame(settings, before, left, leftSkeleton, dist, dt).1;
      ghost var middle := engine.State();
      var r := ProcessHand(right, rightSkeleton, dist, dt);
      assert engine.State() == Frame(settings, middle, right, rightSkeleton, dist, dt).0;
      assert r == Frame(settings, middle, right, rightSkeleton, dist, dt).1;
      events := l + r;
    }

    /** GetPinchStrength: the stored smoothed strength, 0 for a key never seen; always in [0,1] and 0 outside channels 0-3. */
    function GetPinchStrength(hand: HandRef, fingerIndex: int): (r: real)
      requires Valid()
      reads engine
      ensures InUnit(r)
      ensures !(0 <= fingerIndex < 4) ==> r == 0.0
      ensures Key(hand, fingerIndex) in engine.smoothed ==> r == engine.smoothed[Key(hand, fingerIndex)]
      ensures Key(hand, fingerIndex) !in engine.smoothed ==> r == 0.0
    {
      ReadSmoothedInUnit(engine.State(), Key(hand, fingerIndex));
      if Key(hand, fingerIndex) in engine.smoothed then engine.smoothed[Key(hand, fingerIndex)] else 0.0
    }
  }
}
