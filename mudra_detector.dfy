/**
 * MudraDetector: a minimal mudra notifier. Each hand is labelled "Surya Mudra"
 * when its thumb and ring finger both report pinching, "None" otherwise, and an
 * event carrying "<side>: <label>" is raised whenever the label differs from the
 * remembered one. The detector remembers a single label shared by both hands.
 */
module MudraDetector {
  import opened Hands

  const NoneLabel: string := "None"
  const SuryaLabel: string := "Surya Mudra"

  /** What one DetectMudra call reads: the hand reference and GetFingerIsPinching of thumb and ring. */
  datatype Pose = Pose(hand: HandRef, thumbPinching: bool, ringPinching: bool)

  /** The label of a pose. */
  function Detected(p: Pose): (name: string)
    ensures name == SuryaLabel <==> p.thumbPinching && p.ringPinching
    ensures name == NoneLabel <==> !(p.thumbPinching && p.ringPinching)
  {
    if p.thumbPinching && p.ringPinching then SuryaLabel else NoneLabel
  }

  /** The event payload: the side, a colon and a space, then the label. */
  function Payload(side: string, name: string): (r: string)
    ensures |r| == |side| + 2 + |name|
    ensures r[..|side|] == side && r[|side|..|side| + 2] == ": " && r[|side| + 2..] == name
  {
    side + ": " + name
  }

  /** One DetectMudra(hand, side) call: the new remembered label and the events raised. */
  function Step(current: string, p: Pose, side: string): (r: (string, seq<string>))
    ensures p.hand.NullHand? ==> r.0 == current && r.1 == []
    ensures p.hand.HandObj? ==> r.0 == Detected(p)
    ensures p.hand.HandObj? ==> (r.1 != [] <==> Detected(p) != current)
    ensures r.1 == [] || r.1 == [Payload(side, Detected(p))]
  {
    if p.hand.NullHand? then (current, [])
    else
      var detected := Detected(p);
      if detected != current then (detected, [Payload(side, detected)]) else (current, [])
  }

  /** Repeating a call with the same pose raises nothing the second time. */
  lemma StepIdempotent(current: string, p: Pose, side: string)
    ensures Step(Step(current, p, side).0, p, side).1 == []
    ensures Step(Step(current, p, side).0, p, side).0 == Step(current, p, side).0
  {
  }

  /** Update: the left hand, then the right hand, against the one shared label. */
  function Frame(current: string, left: Pose, right: Pose): (string, seq<string>) {
    var l := Step(current, left, "Left");
    var r := Step(l.0, right, "Right");
    (r.0, l.1 + r.1)
  }

  /**
   * As written, two tracked hands that disagree make the shared label flip twice
   * per frame: after any frame the label is the right hand's, and every following
   * frame with the same poses raises one event for each hand.
   */
  lemma SharedLabelFlaps(current: string, left: Pose, right: Pose)
    requires left.hand.HandObj? && right.hand.HandObj? && Detected(left) != Detected(right)
    ensures Frame(current, left, right).0 == Detected(right)
    ensures var next := Frame(Frame(current, left, right).0, left, right);
            next.0 == Detected(right)
            && next.1 == [Payload("Left", Detected(left)), Payload("Right", Detected(right))]
  {
    var settled := Frame(current, left, right).0;
    var l := Step(settled, left, "Left");
    assert l.1 == [Payload("Left", Detected(left))];
    var r := Step(l.0, right, "Right");
    assert r.1 == [Payload("Right", Detected(right))];
    assert l.1 + r.1 == [Payload("Left", Detected(left)), Payload("Right", Detected(right))];
  }

  /** n calls of Update with the same two poses, from a remembered label: the final label and every event raised. */
  function SharedRun(current: string, left: Pose, right: Pose, n: nat): (string, seq<string>)
    decreases n
  {
    if n == 0 then (current, [])
    else
      var f := Frame(current, left, right);
      var rest := SharedRun(f.0, left, right, n - 1);
      (rest.0, f.1 + rest.1)
  }

  /**
   * Once the hands disagree, the flapping never stops: n further frames with the
   * same poses raise 2n events, a Left event and a Right event in every frame.
   */
  lemma {:induction false} SharedLabelFlapsForever(left: Pose, right: Pose, n: nat)
    requires left.hand.HandObj? && right.hand.HandObj? && Detected(left) != Detected(right)
    ensures var run := SharedRun(Detected(right), left, right, n);
            run.0 == Detected(right)
            && |run.1| == 2 * n
            && forall k :: 0 <= k < n ==>
                 run.1[2 * k] == Payload("Left", Detected(left))
                 && run.1[2 * k + 1] == Payload("Right", Detected(right))
    decreases n
  {
    if n > 0 {
      SharedLabelFlaps(Detected(right), left, right);
      var f := Frame(Detected(right), left, right);
      assert f.0 == Detected(right);
      SharedLabelFlapsForever(left, right, n - 1);
      var rest := SharedRun(Detected(right), left, right, n - 1);
      var run := SharedRun(Detected(right), left, right, n);
      assert run.1 == f.1 + rest.1;
      forall k | 0 <= k < n
        ensures run.1[2 * k] == Payload("Left", Detected(left))
        ensures run.1[2 * k + 1] == Payload("Right", Detected(right))
      {
        if k > 0 {
          assert run.1[2 * k] == rest.1[2 * (k - 1)];
          assert run.1[2 * k + 1] == rest.1[2 * (k - 1) + 1];
        }
      }
    }
  }

  /** The detector object: the one label it remembers is a field both calls overwrite. */
  class Detector {
    var currentMudra: string

    constructor()
      ensures currentMudra == NoneLabel
    {
      currentMudra := NoneLabel;
    }

    method DetectMudra(p: Pose, side: string) returns (events: seq<string>)
      modifies this
      ensures (currentMudra, events) == Step(old(currentMudra), p, side)
    {
      events := [];
      if p.hand.NullHand? {
        return;
      }
      var detectedMudra := NoneLabel;
      if p.thumbPinching && p.ringPinching {
        detectedMudra := SuryaLabel;
      }
      if detectedMudra != currentMudra {
        currentMudra := detectedMudra;
        events := [Payload(side, currentMudra)];
      }
    }

    method Update(left: Pose, right: Pose) returns (events: seq<string>)
      modifies this
      ensures (currentMudra, events) == Frame(old(currentMudra), left, right)
    {
      var l := DetectMudra(left, "Left");
      var r := DetectMudra(right, "Right");
      events := l + r;
    }
  }

  /** The remembered labels of the corrected detector, one per hand. */
  datatype PerHand = PerHand(left: string, right: string)

  /** The corrected Update: each hand is compared with its own remembered label. */
  function PerHandFrame(s: PerHand, left: Pose, right: Pose): (PerHand, seq<string>) {
    var l := Step(s.left, left, "Left");
    var r := Step(s.right, right, "Right");
    (PerHand(l.0, r.0), l.1 + r.1)
  }

  /**
   * With a label per hand, a hand raises an event exactly when its own label
   * changes, and a repeated frame raises nothing, whatever the two hands show.
   */
  lemma PerHandSettles(s: PerHand, left: Pose, right: Pose)
    requires left.hand.HandObj? && right.hand.HandObj?
    ensures PerHandFrame(s, left, right).1
         == (if Detected(left) != s.left then [Payload("Left", Detected(left))] else [])
          + (if Detected(right) != s.right then [Payload("Right", Detected(right))] else [])
    ensures PerHandFrame(PerHandFrame(s, left, right).0, left, right).1 == []
  {
    var s' := PerHandFrame(s, left, right).0;
    StepIdempotent(s.left, left, "Left");
    StepIdempotent(s.right, right, "Right");
    assert Step(s'.left, left, "Left").1 == [];
    assert Step(s'.right, right, "Right").1 == [];
  }

  /** n corrected Updates with the same two poses. */
  function PerHandRun(s: PerHand, left: Pose, right: Pose, n: nat): (PerHand, seq<string>)
    decreases n
  {
    if n == 0 then (s, [])
    else
      var f := PerHandFrame(s, left, right);
      var rest := PerHandRun(f.0, left, right, n - 1);
      (rest.0, f.1 + rest.1)
  }

  /**
   * With a label per hand, holding the same poses raises the changes once: n frames
   * raise exactly the first frame's events, and the labels settle on each hand's own.
   */
  lemma {:induction false} PerHandSettlesForever(s: PerHand, left: Pose, right: Pose, n: nat)
    requires left.hand.HandObj? && right.hand.HandObj?
    requires n >= 1
    ensures PerHandRun(s, left, right, n).0 == PerHand(Detected(left), Detected(right))
    ensures PerHandRun(s, left, right, n).1 == PerHandFrame(s, left, right).1
    decreases n
  {
    var f := PerHandFrame(s, left, right);
    assert f.0 == PerHand(Detected(left), Detected(right));
    if n > 1 {
      PerHandSettlesForever(f.0, left, right, n - 1);
      PerHandSettles(s, left, right);
      assert PerHandRun(f.0, left, right, n - 1).1 == [];
    }
  }
}
