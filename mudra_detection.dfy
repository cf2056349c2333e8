/**
 * MudraDetectionManager: classifies a hand posture (mudra) from the distances
 * between the thumb tip and the four other finger tips. The four thresholds are
 * scaled by the hand's length when auto-normalisation is on; the label is chosen
 * by priority Apan, Surya, Prithvi.
 */
module MudraDetection {
  import opened UnityMath
  import opened Hands

  /** MudraType; Custom1 is declared but never produced. */
  datatype MudraType = None | Surya | Prithvi | Apan | Custom1

  /** The inspector settings of the classifier. */
  datatype MudraConfig = MudraConfig(
    thumbToIndexThreshold: real,
    thumbToMiddleThreshold: real,
    thumbToRingThreshold: real,
    thumbToPinkyThreshold: real,
    pinchMaxDistance: real,
    pinchMinDistance: real,
    autoNormalize: bool,
    handReferenceLength: real)

  const Defaults := MudraConfig(0.04, 0.035, 0.03, 0.04, 0.06, 0.015, true, 0.10)

  /** The outcome of TryGetBonePosition: whether the bone was found, and its position (zero when not). */
  datatype Lookup = Lookup(found: bool, pos: Point)

  /**
   * TryGetBonePosition: the bone at position boneId of the bone list, when the
   * list exists, the position is in range and the bone has a Transform.
   */
  function TryGetBonePosition(sk: Skeleton, boneId: int): (r: Lookup)
    ensures r.found <==> sk.Some? && 0 <= boneId < |sk.value| && sk.value[boneId].transform.Some?
    ensures r.found ==> r.pos == sk.value[boneId].transform.value
    ensures !r.found ==> r.pos == Origin
  {
    if sk.None? then Lookup(false, Origin)
    else if boneId < 0 || boneId >= |sk.value| then Lookup(false, Origin)
    else if sk.value[boneId].transform.None? then Lookup(false, Origin)
    else Lookup(true, sk.value[boneId].transform.value)
  }

  /** The thumb-to-tip distances of the index, middle, ring and pinky fingers. */
  datatype Distances = Distances(index: real, middle: real, ring: real, pinky: real)

  /** Which of the four tips is close to the thumb tip. */
  datatype Closeness = Closeness(index: bool, middle: bool, ring: bool, pinky: bool)

  /**
   * The factor applied to the thresholds: the hand length (wrist to middle tip) over
   * the reference length, when auto-normalisation is on, both bones are found and
   * the hand length exceeds 0.001; 1 otherwise.
   */
  function ScaleMultiplier(c: MudraConfig, sk: Skeleton, dist: Metric): (m: real)
    requires c.autoNormalize ==> c.handReferenceLength != 0.0
    ensures var w := TryGetBonePosition(sk, WristRoot);
            var t := TryGetBonePosition(sk, MiddleTip);
            if c.autoNormalize && w.found && t.found && dist(w.pos, t.pos) > 0.001
            then m * c.handReferenceLength == dist(w.pos, t.pos) && (m > 0.0 <==> c.handReferenceLength > 0.0)
            else m == 1.0
    ensures c.handReferenceLength > 0.0 ==> m > 0.0
  {
    if c.autoNormalize then
      var wrist := TryGetBonePosition(sk, WristRoot);
      var middleTip := TryGetBonePosition(sk, MiddleTip);
      if wrist.found && middleTip.found then
        var handLen := dist(wrist.pos, middleTip.pos);
        if handLen > 0.001 then handLen / c.handReferenceLength else 1.0
      else 1.0
    else 1.0
  }

  /** A tip is close when its distance is at most its threshold scaled by the multiplier. */
  predicate Within(dist: real, threshold: real, m: real) {
    dist <= threshold * m
  }

  /** Closeness is distance at most the scaled threshold, every threshold scaled by the same factor. */
  function Close(c: MudraConfig, d: Distances, m: real): Closeness {
    Closeness(
      Within(d.index, c.thumbToIndexThreshold, m),
      Within(d.middle, c.thumbToMiddleThreshold, m),
      Within(d.ring, c.thumbToRingThreshold, m),
      Within(d.pinky, c.thumbToPinkyThreshold, m))
  }

  /** The label by priority: Apan, then Surya, then Prithvi, else None. */
  function Label(cl: Closeness): (r: MudraType)
    ensures r == Apan <==> cl.middle && cl.ring
    ensures r == Surya <==> cl.ring && !cl.middle && !cl.index
    ensures r == Prithvi <==> cl.middle && !cl.ring && !cl.index
    ensures r != Custom1
  {
    if cl.middle && cl.ring then Apan
    else if cl.ring && !cl.middle && !cl.index then Surya
    else if cl.middle && !cl.ring && !cl.index then Prithvi
    else None
  }

  /** The pinky never affects the label. */
  lemma PinkyIgnored(cl: Closeness, b: bool)
    ensures Label(cl.(pinky := b)) == Label(cl)
  {
  }

  /** Every distance multiplied by k. */
  function Scale(d: Distances, k: real): Distances {
    Distances(d.index * k, d.middle * k, d.ring * k, d.pinky * k)
  }

  /**
   * Scaling every distance and the multiplier by the same positive factor (a larger
   * or smaller hand in the same posture) leaves every closeness flag unchanged.
   */
  lemma CloseScaleInvariant(c: MudraConfig, d: Distances, m: real, k: real)
    requires k > 0.0
    ensures Close(c, Scale(d, k), m * k) == Close(c, d, m)
  {
    WithinScaled(d.index, c.thumbToIndexThreshold, m, k);
    WithinScaled(d.middle, c.thumbToMiddleThreshold, m, k);
    WithinScaled(d.ring, c.thumbToRingThreshold, m, k);
    WithinScaled(d.pinky, c.thumbToPinkyThreshold, m, k);
  }

  lemma WithinScaled(x: real, t: real, m: real, k: real)
    requires k > 0.0
    ensures Within(x * k, t, m * k) == Within(x, t, m)
  {
    assert t * (m * k) == (t * m) * k;
    if x <= t * m {
      assert (t * m - x) * k >= 0.0;
    } else {
      assert (x - t * m) * k > 0.0;
    }
  }

  /**
   * With thresholds that are not negative, a larger multiplier (a larger hand) never
   * makes a close tip not close.
   */
  lemma CloseMonotone(c: MudraConfig, d: Distances, m: real, m': real)
    requires m <= m'
    requires c.thumbToIndexThreshold >= 0.0 && c.thumbToMiddleThreshold >= 0.0
    requires c.thumbToRingThreshold >= 0.0 && c.thumbToPinkyThreshold >= 0.0
    ensures Close(c, d, m).index ==> Close(c, d, m').index
    ensures Close(c, d, m).middle ==> Close(c, d, m').middle
    ensures Close(c, d, m).ring ==> Close(c, d, m').ring
    ensures Close(c, d, m).pinky ==> Close(c, d, m').pinky
  {
    WithinGrows(d.index, c.thumbToIndexThreshold, m, m');
    WithinGrows(d.middle, c.thumbToMiddleThreshold, m, m');
    WithinGrows(d.ring, c.thumbToRingThreshold, m, m');
    WithinGrows(d.pinky, c.thumbToPinkyThreshold, m, m');
  }

  lemma WithinGrows(x: real, t: real, m: real, m': real)
    requires t >= 0.0 && m <= m'
    ensures Within(x, t, m) ==> Within(x, t, m')
  {
    assert t * m' - t * m == t * (m' - m);
    assert t * (m' - m) >= 0.0;
  }

  /** All five tips (thumb, index, middle, ring, pinky) are found. */
  predicate TipsFound(sk: Skeleton) {
    && TryGetBonePosition(sk, ThumbTip).found
    && TryGetBonePosition(sk, IndexTip).found
    && TryGetBonePosition(sk, MiddleTip).found
    && TryGetBonePosition(sk, RingTip).found
    && TryGetBonePosition(sk, PinkyTip).found
  }

  /** The four thumb-to-tip distances of a skeleton whose tips are found. */
  function TipDistances(sk: Skeleton, dist: Metric): (d: Distances)
    requires TipsFound(sk)
    ensures IsDistance(dist) ==> d.index >= 0.0 && d.middle >= 0.0 && d.ring >= 0.0 && d.pinky >= 0.0
  {
    var thumb := TryGetBonePosition(sk, ThumbTip).pos;
    Distances(
      dist(thumb, TryGetBonePosition(sk, IndexTip).pos),
      dist(thumb, TryGetBonePosition(sk, MiddleTip).pos),
      dist(thumb, TryGetBonePosition(sk, RingTip).pos),
      dist(thumb, TryGetBonePosition(sk, PinkyTip).pos))
  }

  /**
   * DetectMudra: None for a null hand or skeleton, an untracked hand, an empty bone
   * list or a missing tip; otherwise the label of the closeness flags.
   */
  function DetectMudra(c: MudraConfig, hand: HandRef, tracked: bool, sk: Skeleton, dist: Metric): (r: MudraType)
    requires c.autoNormalize ==> c.handReferenceLength != 0.0
    ensures hand.NullHand? || !tracked || sk.None? || |sk.value| == 0 || !TipsFound(sk) ==> r == None
    ensures r != Custom1
    ensures r != None ==> TipsFound(sk) && r == Label(Close(c, TipDistances(sk, dist), ScaleMultiplier(c, sk, dist)))
    ensures hand.HandObj? && tracked && sk.Some? && |sk.value| > 0 && TipsFound(sk) ==> r == Label(Close(c, TipDistances(sk, dist), ScaleMultiplier(c, sk, dist)))
  {
    if hand.NullHand? || sk.None? then None
    else if !tracked then None
    else if |sk.value| == 0 then None
    else if !TipsFound(sk) then None
    else Label(Close(c, TipDistances(sk, dist), ScaleMultiplier(c, sk, dist)))
  }

  /**
   * In the reference posture of a hand of the reference length the thresholds are
   * the configured ones: the multiplier is 1 when the hand length equals the reference.
   */
  lemma ReferenceHandUnscaled(c: MudraConfig, sk: Skeleton, dist: Metric)
    requires c.handReferenceLength > 0.001
    requires TryGetBonePosition(sk, WristRoot).found && TryGetBonePosition(sk, MiddleTip).found
    requires dist(TryGetBonePosition(sk, WristRoot).pos, TryGetBonePosition(sk, MiddleTip).pos) == c.handReferenceLength
    ensures ScaleMultiplier(c, sk, dist) == 1.0
  {
    if c.autoNormalize {
      var w := c.handReferenceLength;
      var e := w / w - 1.0;
      assert e * w == 0.0;
      assert e == (e * w) / w;
    }
  }

  /**
   * The reference length has no range restriction: a negative one with normalisation
   * on turns every scaled threshold negative, so no tip is ever close and a hand
   * whose length is measured is never classified.
   */
  lemma NegativeReferenceDetectsNothing(c: MudraConfig, hand: HandRef, tracked: bool, sk: Skeleton, dist: Metric)
    requires IsDistance(dist) && c.autoNormalize && c.handReferenceLength < 0.0
    requires c.thumbToMiddleThreshold > 0.0 && c.thumbToRingThreshold > 0.0
    requires TryGetBonePosition(sk, WristRoot).found && TryGetBonePosition(sk, MiddleTip).found
    requires dist(TryGetBonePosition(sk, WristRoot).pos, TryGetBonePosition(sk, MiddleTip).pos) > 0.001
    ensures DetectMudra(c, hand, tracked, sk, dist) == None
  {
    if hand.HandObj? && tracked && sk.Some? && |sk.value| > 0 && TipsFound(sk) {
      var m := ScaleMultiplier(c, sk, dist);
      var d := TipDistances(sk, dist);
      NegativeScaleNeverWithin(d.middle, c.thumbToMiddleThreshold, m);
      NegativeScaleNeverWithin(d.ring, c.thumbToRingThreshold, m);
    }
  }

  /** A positive threshold scaled by a negative multiplier is below every distance. */
  lemma NegativeScaleNeverWithin(x: real, t: real, m: real)
    requires x >= 0.0 && t > 0.0 && m < 0.0
    ensures !Within(x, t, m)
  {
    assert t * m < 0.0;
  }

  /** The debug pinch value: the thumb-to-index distance mapped from [pinchMaxDistance, pinchMinDistance] to [0,1]. */
  function PinchValue(c: MudraConfig, dIndex: real): (r: real)
    ensures InUnit(r)
    ensures c.pinchMinDistance < c.pinchMaxDistance && dIndex <= c.pinchMinDistance ==> r == 1.0
    ensures c.pinchMinDistance < c.pinchMaxDistance && dIndex >= c.pinchMaxDistance ==> r == 0.0
  {
    var v := Clamp01(InverseLerp(c.pinchMaxDistance, c.pinchMinDistance, dIndex));
    if c.pinchMinDistance < c.pinchMaxDistance then
      InverseLerpDescending(c.pinchMaxDistance, c.pinchMinDistance, dIndex);
      v
    else v
  }

  /** The component: its settings and the labels last detected for each hand. */
  class Manager {
    const config: MudraConfig
    var leftDetected: MudraType
    var rightDetected: MudraType

    constructor(c: MudraConfig)
      ensures config == c && leftDetected == None && rightDetected == None
    {
      config := c;
      leftDetected := None;
      rightDetected := None;
    }

    /** Update: classify each hand and store the two labels. */
    method Update(left: HandReading, leftSkeleton: Skeleton, right: HandReading, rightSkeleton: Skeleton, dist: Metric)
      requires config.autoNormalize ==> config.handReferenceLength != 0.0
      modifies this
      ensures leftDetected == DetectMudra(config, left.hand, left.tracked, leftSkeleton, dist)
      ensures rightDetected == DetectMudra(config, right.hand, right.tracked, rightSkeleton, dist)
    {
      leftDetected := DetectMudra(config, left.hand, left.tracked, leftSkeleton, dist);
      rightDetected := DetectMudra(config, right.hand, right.tracked, rightSkeleton, dist);
    }
  }
}
