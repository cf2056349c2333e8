/**
 * OVRHandsPinchRehabManager: the four-finger pinch component driven by the
 * hand tracker alone. Channel i reads finger i + 1 (index to pinky); the blend
 * factor is 1 - smoothing, so a larger smoothing value means more lag; there is
 * no clamp, and an untracked hand leaves the tables as they are.
 */
module RehabManager {
  import opened Wrappers
  import opened UnityMath
  import opened Hands
  import opened PinchEngine
  import opened PinchEngineLemmas

  /** The inspector settings the frame uses (the two distance settings are declared but never read). */
  datatype Settings = Settings(startThreshold: real, endThreshold: real, smoothing: real, microMovementDelta: real)

  const Defaults := Settings(0.6, 0.45, 0.15, 0.01)

  predicate ValidSettings(s: Settings) {
    InUnit(s.startThreshold) && InUnit(s.endThreshold) && InUnit(s.smoothing)
  }

  /** Four channels, blend factor 1 - smoothing, no clamp, untracked frames skipped. */
  function Config(s: Settings): (c: EngineConfig)
    ensures ValidConfig(c) && c.channels == 4
  {
    EngineConfig(4, Complement(s.smoothing), false, LeaveUnchanged, s.startThreshold, s.endThreshold, s.microMovementDelta)
  }

  /** Channel i reads GetFingerPinchStrength((HandFinger)(i + 1)). */
  function RawStrengths(reading: HandReading): (raw: seq<real>)
    requires WellFormed(reading)
    ensures |raw| == 4
    ensures forall i :: 0 <= i < 4 ==> raw[i] == reading.pinch[i + 1] && InUnit(raw[i])
  {
    seq(4, i requires 0 <= i < 4 => PinchOf(reading, FingerOf(i + 1).value))
  }

  function Frame(s: Settings, st: EngineState, reading: HandReading, dt: real): (EngineState, seq<PinchEvent>)
    requires WellFormed(reading)
  {
    Process(Config(s), st, reading.hand, reading.tracked, RawStrengths(reading), dt)
  }

  /**
   * More smoothing, less movement: from the same previous value and raw value, the
   * result under a larger smoothing lies between the previous value and the result
   * under the smaller one.
   */
  lemma MoreSmoothingMovesLess(s1: Settings, s2: Settings, prev: Option<real>, raw: real, dt: real)
    requires s1.smoothing <= s2.smoothing
    ensures Between(Smoothed(Config(s2), prev, raw, dt), prev.GetOr(raw), Smoothed(Config(s1), prev, raw, dt))
  {
    LerpFactorOrder(prev.GetOr(raw), raw, 1.0 - s2.smoothing, 1.0 - s1.smoothing);
  }

  /** Smoothing 0 follows the raw strength with no lag; smoothing 1 never leaves the first observation. */
  lemma SmoothingExtremes(s: Settings, st: EngineState, reading: HandReading, dt: real, i: int)
    requires WellFormed(reading) && reading.hand.HandObj? && reading.tracked && 0 <= i < 4
    ensures s.smoothing == 0.0 ==> ReadSmoothed(Frame(s, st, reading, dt).0, Key(reading.hand, i)) == reading.pinch[i + 1]
    ensures s.smoothing == 1.0 && Key(reading.hand, i) in st.smoothed ==>
              ReadSmoothed(Frame(s, st, reading, dt).0, Key(reading.hand, i)) == st.smoothed[Key(reading.hand, i)]
  {
    ReadAfterTracked(Config(s), st, reading.hand, RawStrengths(reading), dt, i);
  }

  /** The component: its settings and the engine holding its three dictionaries. */
  class Manager {
    const settings: Settings
    const engine: Engine

    /** The engine runs this component's configuration; its tables hold strengths in [0,1] for the four channels only. */
    ghost predicate Valid()
      reads engine
    {
      && ValidSettings(settings) && engine.config == Config(settings)
      && UnitState(engine.State()) && KeysIn(engine.State(), 4)
    }

    constructor(s: Settings)
      requires ValidSettings(s)
      ensures settings == s && Valid() && fresh(engine) && engine.State() == EmptyState
    {
      settings := s;
      engine := new Engine(Config(s));
    }

    /** ProcessHand(hand): nothing when untracked, else the four fingers' strengths and the engine's frame. */
    method ProcessHand(reading: HandReading, dt: real) returns (events: seq<PinchEvent>)
      requires Valid() && WellFormed(reading)
      modifies engine
      ensures (engine.State(), events) == Frame(settings, old(engine.State()), reading, dt)
      ensures Valid()
    {
      var raw: seq<real> := [0.0, 0.0, 0.0, 0.0];
      if !Untracked(reading.hand, reading.tracked) {
        raw := [];
        var i := 0;
        while i < 4
          invariant 0 <= i <= 4
          invariant raw == RawStrengths(reading)[..i]
        {
          var finger := FingerOf(i + 1).value;
          raw := raw + [PinchOf(reading, finger)];
          i := i + 1;
        }
        assert raw == RawStrengths(reading);
      }
      ProcessKeepsUnit(engine.config, engine.State(), reading.hand, reading.tracked, raw, dt);
      ProcessKeepsKeys(engine.config, engine.State(), reading.hand, reading.tracked, raw, dt);
      events := engine.ProcessHand(reading.hand, reading.tracked, raw, dt);
    }

    /** Update: the left hand, then the right hand; the events in that order. */
    method Update(left: HandReading, right: HandReading, dt: real) returns (events: seq<PinchEvent>)
      requires Valid() && WellFormed(left) && WellFormed(right)
      modifies engine
      ensures engine.State() == Frame(settings, Frame(settings, old(engine.State()), left, dt).0, right, dt).0
      ensures events == Frame(settings, old(engine.State()), left, dt).1
                      + Frame(settings, Frame(settings, old(engine.State()), left, dt).0, right, dt).1
      ensures Valid()
    {
      ghost var before := engine.State();
      var l := ProcessHand(left, dt);
      assert engine.State() == Frame(settings, before, left, dt).0;
      assert l == Frame(settings, before, left, dt).1;
      ghost var middle := engine.State();
      var r := ProcessHand(right, dt);
      assert engine.State() == Frame(settings, middle, right, dt).0;
      assert r == Frame(settings, middle, right, dt).1;
      events := l + r;
    }
  }
}
