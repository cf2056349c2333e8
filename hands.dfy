/**
 * Types shared by the gesture components: finger identities, hand references,
 * points and the tracked skeleton's bone list.
 */
module Hands {
  import opened Wrappers

  /** OVRHand.HandFinger; its enum value is Ordinal (Thumb = 0 ... Pinky = 4). */
  datatype HandFinger = Thumb | Index | Middle | Ring | Pinky

  function Ordinal(f: HandFinger): (n: nat)
    ensures n < 5
  {
    match f
    case Thumb => 0
    case Index => 1
    case Middle => 2
    case Ring => 3
    case Pinky => 4
  }

  /** The cast (OVRHand.HandFinger)n for the five named fingers. */
  function FingerOf(n: int): (r: Option<HandFinger>)
    ensures r.Some? <==> 0 <= n < 5
    ensures r.Some? ==> Ordinal(r.value) == n
  {
    if n == 0 then Some(Thumb)
    else if n == 1 then Some(Index)
    else if n == 2 then Some(Middle)
    else if n == 3 then Some(Ring)
    else if n == 4 then Some(Pinky)
    else None
  }

  /** An OVRHand reference: null, or a hand object identified by its identity. */
  datatype HandRef = NullHand | HandObj(id: nat)

  /** A Vector3 position. */
  datatype Point = Point(x: real, y: real, z: real)

  const Origin := Point(0.0, 0.0, 0.0)

  /**
   * Vector3.Distance is a square root, which is not modelled; every use of it is
   * given as a metric parameter that is non-negative and zero from a point to itself.
   */
  type Metric = (Point, Point) -> real

  ghost predicate IsDistance(dist: Metric) {
    forall p, q :: dist(p, q) >= 0.0 && (p == q ==> dist(p, q) == 0.0)
  }

  /** OVRSkeleton.BoneId values used by the gesture code. */
  const WristRoot: int := 0
  const ThumbTip: int := 19
  const IndexTip: int := 20
  const MiddleTip: int := 21
  const RingTip: int := 22
  const PinkyTip: int := 23

  /** An OVRBone: its id and its Transform's position, None when the Transform is null. */
  datatype Bone = Bone(id: int, transform: Option<Point>)

  /** skeleton.Bones: None when the skeleton or its bone list is null. */
  type Skeleton = Option<seq<Bone>>

  /**
   * One frame of one hand as the gesture code reads it: the OVRHand reference,
   * IsTracked, and GetFingerPinchStrength for each finger, indexed by its ordinal.
   */
  datatype HandReading = HandReading(hand: HandRef, tracked: bool, pinch: seq<real>)

  /** A reading with one strength per finger, each in [0,1] as the tracking runtime reports it. */
  predicate WellFormed(r: HandReading) {
    |r.pinch| == 5 && forall k :: 0 <= k < 5 ==> 0.0 <= r.pinch[k] <= 1.0
  }

  /** hand.GetFingerPinchStrength(f). */
  function PinchOf(r: HandReading, f: HandFinger): real
    requires WellFormed(r)
  {
    r.pinch[Ordinal(f)]
  }
}

