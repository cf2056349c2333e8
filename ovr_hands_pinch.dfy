/**
 * OVRHAndsPinch: the five-finger pinch component. Each frame it reads a raw
 * strength per finger (from the hand tracker, or from the thumb-to-tip distance
 * of the tracked skeleton), smooths it with a frame-time blend and a clamp,
 * and runs the shared latch. An untracked hand has its five smoothed strengths
 * reset to 0.
 */
module OvrHandsPinch {
  import opened Wrappers
  import opened UnityMath
  import opened Hands
  import opened PinchEngine
  import opened PinchEngineLemmas

  /** The inspector settings of the component. */
  datatype Settings = Settings(
    useOvrStrength: bool,
    pinchDistanceMin: real,
    pinchDistanceMax: real,
    startThreshold: real,
    endThreshold: real,
    smoothing: real,
    microMovementDelta: real)

  const Defaults := Settings(true, 0.015, 0.05, 0.6, 0.45, 0.15, 0.01)

  /** The inspector ranges of the settings. */
  predicate ValidSettings(s: Settings) {
    && 0.01 <= s.pinchDistanceMin <= 0.1
    && 0.02 <= s.pinchDistanceMax <= 0.1
    && InUnit(s.startThreshold) && InUnit(s.endThreshold)
    && 0.01 <= s.smoothing <= 1.0
    && 0.001 <= s.microMovementDelta <= 0.05
  }

  /** Five channels, blend factor deltaTime / smoothing, clamped, zeroed when untracked. */
  function Config(s: Settings): (c: EngineConfig)
    requires ValidSettings(s)
    ensures ValidConfig(c) && c.channels == 5
  {
    EngineConfig(5, FrameTime(s.smoothing), true, ZeroSmoothed, s.startThreshold, s.endThreshold, s.microMovementDelta)
  }

  /** The tip bone of each finger, thumb first. */
  const TipIndices: seq<int> := [ThumbTip, IndexTip, MiddleTip, RingTip, PinkyTip]

  /**
   * The Transform that a scan over the bones leaves for an id: every bone with
   * that id overwrites the previous one, so the last such bone wins.
   */
  function LastTransform(bones: seq<Bone>, id: int): (r: Option<Point>)
    ensures r.Some? ==> exists j :: 0 <= j < |bones| && bones[j].id == id && bones[j].transform == r
  {
    if |bones| == 0 then None
    else if bones[|bones| - 1].id == id then bones[|bones| - 1].transform
    else LastTransform(bones[..|bones| - 1], id)
  }

  /** No bone with the id: nothing is found. */
  lemma {:induction false} LastTransformAbsent(bones: seq<Bone>, id: int)
    requires forall j :: 0 <= j < |bones| ==> bones[j].id != id
    ensures LastTransform(bones, id) == None
  {
    if |bones| > 0 {
      LastTransformAbsent(bones[..|bones| - 1], id);
    }
  }

  /** The last bone with the id decides the result, whatever precedes it. */
  lemma {:induction false} LastTransformIsLastMatch(bones: seq<Bone>, id: int, j: int)
    requires 0 <= j < |bones| && bones[j].id == id
    requires forall k :: j < k < |bones| ==> bones[k].id != id
    ensures LastTransform(bones, id) == bones[j].transform
  {
    if j < |bones| - 1 {
      LastTransformIsLastMatch(bones[..|bones| - 1], id, j);
    }
  }

  /**
   * CalculateDistanceStrength: 0 without a skeleton, without bones, or without a thumb
   * tip or finger tip Transform; otherwise the thumb-to-tip distance mapped from
   * [pinchDistanceMax, pinchDistanceMin] onto [0, 1].
   */
  function DistanceStrength(s: Settings, sk: Skeleton, i: int, dist: Metric): (r: real)
    requires 0 <= i < 5
    ensures InUnit(r)
    ensures sk.None? || |sk.value| == 0 ==> r == 0.0
    ensures sk.Some? && (LastTransform(sk.value, ThumbTip).None? || LastTransform(sk.value, TipIndices[i]).None?) ==> r == 0.0
  {
    if sk.None? || |sk.value| == 0 then 0.0
    else
      var thumb := LastTransform(sk.value, ThumbTip);
      var tip := LastTransform(sk.value, TipIndices[i]);
      if thumb.None? || tip.None? then 0.0
      else Clamp01(InverseLerp(s.pinchDistanceMax, s.pinchDistanceMin, dist(thumb.value, tip.value)))
  }

  /**
   * With both tips present the distance strength is 1 at or below pinchDistanceMin,
   * 0 at or above pinchDistanceMax, and falls linearly in between.
   */
  lemma DistanceStrengthBand(s: Settings, sk: Skeleton, i: int, dist: Metric, thumb: Point, tip: Point)
    requires 0 <= i < 5 && s.pinchDistanceMin < s.pinchDistanceMax
    requires sk.Some? && LastTransform(sk.value, ThumbTip) == Some(thumb) && LastTransform(sk.value, TipIndices[i]) == Some(tip)
    ensures var d := dist(thumb, tip);
      && (d <= s.pinchDistanceMin ==> DistanceStrength(s, sk, i, dist) == 1.0)
      && (d >= s.pinchDistanceMax ==> DistanceStrength(s, sk, i, dist) == 0.0)
      && (s.pinchDistanceMin < d < s.pinchDistanceMax ==>
            DistanceStrength(s, sk, i, dist) == (s.pinchDistanceMax - d) / (s.pinchDistanceMax - s.pinchDistanceMin))
  {
    InverseLerpDescending(s.pinchDistanceMax, s.pinchDistanceMin, dist(thumb, tip));
  }

  /**
   * Channel 0 measures the thumb tip against itself: whenever the thumb tip is
   * present its distance strength is 1, so in distance mode the thumb channel is
   * always fully pinched.
   */
  lemma ThumbChannelSaturates(s: Settings, sk: Skeleton, dist: Metric)
    requires IsDistance(dist) && 0.0 <= s.pinchDistanceMin < s.pinchDistanceMax
    requires sk.Some? && LastTransform(sk.value, ThumbTip).Some?
    ensures DistanceStrength(s, sk, 0, dist) == 1.0
  {
    var p := LastTransform(sk.value, ThumbTip).value;
    assert dist(p, p) == 0.0;
    DistanceStrengthBand(s, sk, 0, dist, p, p);
  }

  /** The raw strength of finger i: the tracker's pinch strength, or the distance strength. */
  function RawStrength(s: Settings, reading: HandReading, sk: Skeleton, dist: Metric, i: int): real
    requires WellFormed(reading) && 0 <= i < 5
  {
    if s.useOvrStrength then PinchOf(reading, FingerOf(i).value) else DistanceStrength(s, sk, i, dist)
  }

  function RawStrengths(s: Settings, reading: HandReading, sk: Skeleton, dist: Metric): (raw: seq<real>)
    requires WellFormed(reading)
    ensures |raw| == 5 && forall i :: 0 <= i < 5 ==> raw[i] == RawStrength(s, reading, sk, dist, i)
  {
    seq(5, i requires 0 <= i < 5 => RawStrength(s, reading, sk, dist, i))
  }

  /** Every raw strength lies in [0,1], in either mode. */
  lemma RawStrengthsInUnit(s: Settings, reading: HandReading, sk: Skeleton, dist: Metric)
    requires WellFormed(reading)
    ensures forall i :: 0 <= i < 5 ==> InUnit(RawStrengths(s, reading, sk, dist)[i])
  {
    forall i | 0 <= i < 5 ensures InUnit(RawStrengths(s, reading, sk, dist)[i]) {
      var f := FingerOf(i).value;
      assert Ordinal(f) == i;
    }
  }

  /** One ProcessHand call on one hand, as a function of the tables before it. */
  function Frame(s: Settings, st: EngineState, reading: HandReading, sk: Skeleton, dist: Metric, dt: real)
    : (EngineState, seq<PinchEvent>)
    requires ValidSettings(s) && WellFormed(reading)
  {
    Process(Config(s), st, reading.hand, reading.tracked, RawStrengths(s, reading, sk, dist), dt)
  }

  /** The failure of an accessor the component declares but does not implement. */
  datatype Fault = NotImplemented

  /** GetPinchStrength is declared but always throws NotImplementedException. */
  function GetPinchStrength(hand: HandRef, fingerIndex: int): (r: Result<real, Fault>)
    ensures r == Failure(NotImplemented)
  {
    Failure(NotImplemented)
  }

  /** The component: its settings and the engine holding its three dictionaries. */
  class Component {
    const settings: Settings
    const engine: Engine

    /** The engine runs this component's configuration; its tables hold strengths in [0,1] for the five channels only. */
    ghost predicate Valid()
      reads engine
    {
      && ValidSettings(settings) && engine.config == Config(settings)
      && UnitState(engine.State()) && KeysIn(engine.State(), 5)
    }

    constructor(s: Settings)
      requires ValidSettings(s)
      ensures settings == s && Valid() && fresh(engine) && engine.State() == EmptyState
    {
      settings := s;
      engine := new Engine(Config(s));
    }

    /** The distance fallback of one finger: a scan over the bones for the two tips. */
    method CalculateDistanceStrength(sk: Skeleton, fingerIndex: int, dist: Metric) returns (r: real)
      requires 0 <= fingerIndex < 5
      ensures r == DistanceStrength(settings, sk, fingerIndex, dist)
    {
      if sk.None? || |sk.value| == 0 {
        return 0.0;
      }
      var bones := sk.value;
      var thumbTip: Option<Point> := None;
      var fingerTip: Option<Point> := None;
      var fingerTipIndex := TipIndices[fingerIndex];
      var k := 0;
      while k < |bones|
        invariant 0 <= k <= |bones|
        invariant thumbTip == LastTransform(bones[..k], ThumbTip)
        invariant fingerTip == LastTransform(bones[..k], fingerTipIndex)
      {
        var bone := bones[k];
        if bone.id == ThumbTip {
          thumbTip := bone.transform;
        }
        if bone.id == fingerTipIndex {
          fingerTip := bone.transform;
        }
        assert bones[..k + 1][..k] == bones[..k];
        k := k + 1;
      }
      assert bones[..k] == bones;
      if thumbTip.None? || fingerTip.None? {
        return 0.0;
      }
      r := Clamp01(InverseLerp(settings.pinchDistanceMax, settings.pinchDistanceMin, dist(thumbTip.value, fingerTip.value)));
    }

    /** ProcessHand(hand, skeleton): the raw strengths of the five fingers, then the engine's frame. */
    method ProcessHand(reading: HandReading, sk: Skeleton, dist: Metric, dt: real) returns (events: seq<PinchEvent>)
      requires Valid() && WellFormed(reading)
      modifies engine
      ensures (engine.State(), events) == Frame(settings, old(engine.State()), reading, sk, dist, dt)
      ensures Valid()
    {
      var raw: seq<real> := [0.0, 0.0, 0.0, 0.0, 0.0];
      if !Untracked(reading.hand, reading.tracked) {
        raw := [];
        var i := 0;
        while i < 5
          invariant 0 <= i <= 5
          invariant raw == RawStrengths(settings, reading, sk, dist)[..i]
        invariant unchanged(engine)
        {
          var r: real;
          if settings.useOvrStrength {
            r := PinchOf(reading, FingerOf(i).value);
          } else {
            r := CalculateDistanceStrength(sk, i, dist);
          }
          raw := raw + [r];
          i := i + 1;
        }
        assert raw == RawStrengths(settings, reading, sk, dist);
      }
      ProcessKeepsUnit(engine.config, engine.State(), reading.hand, reading.tracked, raw, dt);
      ProcessKeepsKeys(engine.config, engine.State(), reading.hand, reading.tracked, raw, dt);
      events := engine.ProcessHand(reading.hand, reading.tracked, raw, dt);
    }

    /** Update: the left hand, then the right hand; the events in that order. */
    method Update(left: HandReading, leftSkeleton: Skeleton, right: HandReading, rightSkeleton: Skeleton,
                  dist: Metric, dt: real) returns (events: seq<PinchEvent>)
      requires Valid() && WellFormed(left) && WellFormed(right)
      modifies engine
      ensures engine.State() == Frame(settings, Frame(settings, old(engine.State()), left, leftSkeleton, dist, dt).0,
                                      right, rightSkeleton, dist, dt).0
      ensures events == Frame(settings, old(engine.State()), left, leftSkeleton, dist, dt).1
                      + Frame(settings, Frame(settings, old(engine.State()), left, leftSkeleton, dist, dt).0,
                              right, rightSkeleton, dist, dt).1
      ensures Valid()
    {
      ghost var before := engine.State();
      var l := ProcessHand(left, leftSkeleton, dist, dt);
      assert engine.State() == Frame(settings, before, left, leftSkeleton, dist, dt).0;
      assert l == Frame(settings, before, left, leftSkeleton, dist, dt).1;
      ghost var middle := engine.State();
      var r := ProcessHand(right, rightSkeleton, dist, dt);
      assert engine.State() == Frame(settings, middle, right, rightSkeleton, dist, dt).0;
      assert r == Frame(settings, middle, right, rightSkeleton, dist, dt).1;
      events := l + r;
    }
  }
}
