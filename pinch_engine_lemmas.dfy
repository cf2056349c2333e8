/**
 * Properties of the pinch latch over whole frames and over sequences of frames.
 */
module PinchEngineLemmas {
  import opened Wrappers
  import opened UnityMath
  import opened Hands
  import opened PinchEngine

  /** Zeroing channels 0 .. n-1 adds or overwrites exactly those keys with 0. */
  lemma {:induction false} ZeroChannelsAt(m: map<Key, real>, hand: HandRef, n: nat, k: Key)
    ensures k in ZeroChannels(m, hand, n) <==> k in m || (k.hand == hand && 0 <= k.channel < n)
    ensures k in ZeroChannels(m, hand, n) ==>
              ZeroChannels(m, hand, n)[k] == if k.hand == hand && 0 <= k.channel < n then 0.0 else m[k]
  {
    if n > 0 {
      ZeroChannelsAt(m, hand, n - 1, k);
    }
  }

  /**
   * An untracked or null hand emits nothing and never touches the latch or the
   * last reported strengths; with ZeroSmoothed every channel of that hand reads 0
   * afterwards and every other key is unchanged, with LeaveUnchanged nothing changes.
   */
  lemma UntrackedFrame(c: EngineConfig, st: EngineState, hand: HandRef, tracked: bool, raw: seq<real>, dt: real)
    requires ValidConfig(c) && |raw| == c.channels && Untracked(hand, tracked)
    ensures Process(c, st, hand, tracked, raw, dt).1 == []
    ensures Process(c, st, hand, tracked, raw, dt).0.lastReported == st.lastReported
    ensures Process(c, st, hand, tracked, raw, dt).0.pinched == st.pinched
    ensures c.onUntracked == LeaveUnchanged ==> Process(c, st, hand, tracked, raw, dt).0 == st
    ensures c.onUntracked == ZeroSmoothed ==>
              forall i :: 0 <= i < c.channels ==> ReadSmoothed(Process(c, st, hand, tracked, raw, dt).0, Key(hand, i)) == 0.0
    ensures c.onUntracked == ZeroSmoothed ==>
              forall k: Key :: k.hand != hand ==>
                Lookup(Process(c, st, hand, tracked, raw, dt).0.smoothed, k) == Lookup(st.smoothed, k)
  {
    if c.onUntracked == ZeroSmoothed {
      var z := ZeroChannels(st.smoothed, hand, c.channels);
      forall i | 0 <= i < c.channels
        ensures ReadSmoothed(Process(c, st, hand, tracked, raw, dt).0, Key(hand, i)) == 0.0
      {
        ZeroChannelsAt(st.smoothed, hand, c.channels, Key(hand, i));
      }
      forall k: Key | k.hand != hand
        ensures Lookup(Process(c, st, hand, tracked, raw, dt).0.smoothed, k) == Lookup(st.smoothed, k)
      {
        ZeroChannelsAt(st.smoothed, hand, c.channels, k);
      }
    }
  }

  /** The three table entries of a key agree in two states. */
  predicate SameAt(a: EngineState, b: EngineState, k: Key) {
    && Lookup(a.smoothed, k) == Lookup(b.smoothed, k)
    && (k in a.lastReported <==> k in b.lastReported)
    && (k in a.lastReported ==> a.lastReported[k] == b.lastReported[k])
    && (k in a.pinched <==> k in b.pinched)
    && (k in a.pinched ==> a.pinched[k] == b.pinched[k])
  }

  /** A channel's step reads nothing but its own key. */
  lemma StepChannelLocal(c: EngineConfig, a: EngineState, b: EngineState, hand: HandRef, i: int, raw: real, dt: real)
    requires ValidConfig(c) && SameAt(a, b, Key(hand, i))
    ensures StepChannel(c, a, hand, i, raw, dt) == StepChannel(c, b, hand, i, raw, dt)
  {
  }

  /** The events of channels 0 .. n-1, each computed against the state before the frame. */
  function ChannelEvents(c: EngineConfig, st: EngineState, hand: HandRef, raw: seq<real>, dt: real, n: nat)
    : seq<PinchEvent>
    requires ValidConfig(c) && n <= |raw|
  {
    if n == 0 then []
    else ChannelEvents(c, st, hand, raw, dt, n - 1) + StepChannel(c, st, hand, n - 1, raw[n - 1], dt).events
  }

  /** The entries a channel's step leaves for its key. */
  predicate HoldsStep(st: EngineState, k: Key, r: ChannelOut) {
    && k in st.smoothed && st.smoothed[k] == r.smoothed
    && k in st.lastReported && st.lastReported[k] == r.lastReported
    && k in st.pinched && st.pinched[k] == r.pinched
  }

  /**
   * Channels are independent: after a tracked frame, channel i of the hand holds
   * exactly what its own step computes from the state before the frame, and every
   * other key is untouched.
   */
  lemma {:induction false} TrackedIsPerChannel(
    c: EngineConfig, st: EngineState, hand: HandRef, raw: seq<real>, dt: real, n: nat, k: Key)
    requires ValidConfig(c) && n <= |raw|
    ensures k.hand == hand && 0 <= k.channel < n ==>
              HoldsStep(Tracked(c, st, hand, raw, dt, n).0, k, StepChannel(c, st, hand, k.channel, raw[k.channel], dt))
    ensures !(k.hand == hand && 0 <= k.channel < n) ==> SameAt(Tracked(c, st, hand, raw, dt, n).0, st, k)
    decreases n, 2
  {
    if n > 0 {
      var prev := Tracked(c, st, hand, raw, dt, n - 1).0;
      var last := Key(hand, n - 1);
      var r := LastChannel(c, st, hand, raw, dt, n);
      if k == last {
        ApplyHolds(prev, last, r);
      } else {
        TrackedIsPerChannel(c, st, hand, raw, dt, n - 1, k);
        ApplyElsewhere(prev, last, r, k);
        if k.hand == hand && 0 <= k.channel < n {
          HoldsStepSame(Tracked(c, st, hand, raw, dt, n).0, prev, k, StepChannel(c, st, hand, k.channel, raw[k.channel], dt));
        } else {
          SameAtTrans(Tracked(c, st, hand, raw, dt, n).0, prev, st, k);
        }
      }
    }
  }

  /**
   * The last turn of a tracked frame: channel n-1 steps against the state the earlier
   * channels left, which agrees at its key with the state before the frame.
   */
  lemma LastChannel(c: EngineConfig, st: EngineState, hand: HandRef, raw: seq<real>, dt: real, n: nat)
    returns (r: ChannelOut)
    requires ValidConfig(c) && 0 < n <= |raw|
    ensures r == StepChannel(c, st, hand, n - 1, raw[n - 1], dt)
    ensures Tracked(c, st, hand, raw, dt, n).0 == Apply(Tracked(c, st, hand, raw, dt, n - 1).0, Key(hand, n - 1), r)
    ensures Tracked(c, st, hand, raw, dt, n).1 == Tracked(c, st, hand, raw, dt, n - 1).1 + r.events
    decreases n, 1
  {
    EarlierChannelsKeepKey(c, st, hand, raw, dt, n);
    r := StepChannel(c, Tracked(c, st, hand, raw, dt, n - 1).0, hand, n - 1, raw[n - 1], dt);
  }

  /** Channel n-1 steps alike against the state before the frame and the state channels 0 .. n-2 leave. */
  lemma EarlierChannelsKeepKey(c: EngineConfig, st: EngineState, hand: HandRef, raw: seq<real>, dt: real, n: nat)
    requires ValidConfig(c) && 0 < n <= |raw|
    ensures StepChannel(c, Tracked(c, st, hand, raw, dt, n - 1).0, hand, n - 1, raw[n - 1], dt)
         == StepChannel(c, st, hand, n - 1, raw[n - 1], dt)
    decreases n, 0
  {
    TrackedIsPerChannel(c, st, hand, raw, dt, n - 1, Key(hand, n - 1));
    StepChannelLocal(c, Tracked(c, st, hand, raw, dt, n - 1).0, st, hand, n - 1, raw[n - 1], dt);
  }

  /** The events of the last turn of a tracked frame are channel n-1's own, read against the state before the frame. */
  lemma LastChannelEvents(c: EngineConfig, st: EngineState, hand: HandRef, raw: seq<real>, dt: real, n: nat)
    requires ValidConfig(c) && 0 < n <= |raw|
    ensures Tracked(c, st, hand, raw, dt, n).1
         == Tracked(c, st, hand, raw, dt, n - 1).1 + StepChannel(c, st, hand, n - 1, raw[n - 1], dt).events
  {
    var r := LastChannel(c, st, hand, raw, dt, n);
  }

  lemma ApplyHolds(st: EngineState, k: Key, r: ChannelOut)
    ensures HoldsStep(Apply(st, k, r), k, r)
  {
  }

  /** Writing one channel's outcome leaves every other key's three entries as they were. */
  lemma ApplyElsewhere(st: EngineState, k: Key, r: ChannelOut, k': Key)
    requires k' != k
    ensures SameAt(Apply(st, k, r), st, k')
  {
  }

  lemma HoldsStepSame(a: EngineState, b: EngineState, k: Key, r: ChannelOut)
    requires SameAt(a, b, k) && HoldsStep(b, k, r)
    ensures HoldsStep(a, k, r)
  {
  }

  lemma SameAtTrans(a: EngineState, b: EngineState, d: EngineState, k: Key)
    requires SameAt(a, b, k) && SameAt(b, d, k)
    ensures SameAt(a, d, k)
  {
  }

  /** The events of a tracked frame are the channels' own events, in channel order. */
  lemma {:induction false} TrackedEventsPerChannel(
    c: EngineConfig, st: EngineState, hand: HandRef, raw: seq<real>, dt: real, n: nat)
    requires ValidConfig(c) && n <= |raw|
    ensures Tracked(c, st, hand, raw, dt, n).1 == ChannelEvents(c, st, hand, raw, dt, n)
  {
    if n > 0 {
      TrackedEventsPerChannel(c, st, hand, raw, dt, n - 1);
      EventsStep(c, st, hand, raw, dt, n);
    }
  }

  /** If the first n-1 channels' events agree, so do the first n channels'. */
  lemma EventsStep(c: EngineConfig, st: EngineState, hand: HandRef, raw: seq<real>, dt: real, n: nat)
    requires ValidConfig(c) && 0 < n <= |raw|
    ensures Tracked(c, st, hand, raw, dt, n - 1).1 == ChannelEvents(c, st, hand, raw, dt, n - 1) ==>
              Tracked(c, st, hand, raw, dt, n).1 == ChannelEvents(c, st, hand, raw, dt, n)
  {
    LastChannelEvents(c, st, hand, raw, dt, n);
  }

  /** Every stored smoothed and last reported strength lies in [0,1]. */
  ghost predicate UnitState(st: EngineState) {
    && (forall k :: k in st.smoothed ==> InUnit(st.smoothed[k]))
    && (forall k :: k in st.lastReported ==> InUnit(st.lastReported[k]))
  }

  ghost predicate UnitRaw(raw: seq<real>) {
    forall i :: 0 <= i < |raw| ==> InUnit(raw[i])
  }

  /**
   * With raw strengths in [0,1], or with the clamp on whatever the raw strengths are,
   * every frame keeps every stored strength in [0,1].
   */
  lemma ProcessKeepsUnit(c: EngineConfig, st: EngineState, hand: HandRef, tracked: bool, raw: seq<real>, dt: real)
    requires ValidConfig(c) && |raw| == c.channels && UnitState(st) && (UnitRaw(raw) || c.clampSmoothed)
    ensures UnitState(Process(c, st, hand, tracked, raw, dt).0)
  {
    var st' := Process(c, st, hand, tracked, raw, dt).0;
    if Untracked(hand, tracked) {
      if c.onUntracked == ZeroSmoothed {
        forall k | k in st'.smoothed ensures InUnit(st'.smoothed[k]) {
          ZeroChannelsAt(st.smoothed, hand, c.channels, k);
        }
      }
    } else {
      forall k | k in st'.smoothed || k in st'.lastReported
        ensures k in st'.smoothed ==> InUnit(st'.smoothed[k])
        ensures k in st'.lastReported ==> InUnit(st'.lastReported[k])
      {
        TrackedIsPerChannel(c, st, hand, raw, dt, c.channels, k);
      }
    }
  }

  /**
   * What a reader of the smoothed table sees for channel i right after a tracked frame:
   * the previous value (or the raw value at first) blended towards raw[i].
   */
  lemma ReadAfterTracked(c: EngineConfig, st: EngineState, hand: HandRef, raw: seq<real>, dt: real, i: int)
    requires ValidConfig(c) && |raw| == c.channels && hand.HandObj? && 0 <= i < c.channels
    ensures ReadSmoothed(Process(c, st, hand, true, raw, dt).0, Key(hand, i))
         == Smoothed(c, Lookup(st.smoothed, Key(hand, i)), raw[i], dt)
  {
    TrackedIsPerChannel(c, st, hand, raw, dt, c.channels, Key(hand, i));
    StepChannelSpec(c, st, hand, i, raw[i], dt);
  }

  /** Every key in the three tables names one of the first n channels. */
  ghost predicate KeysIn(st: EngineState, n: nat) {
    && (forall k :: k in st.smoothed ==> 0 <= k.channel < n)
    && (forall k :: k in st.lastReported ==> 0 <= k.channel < n)
    && (forall k :: k in st.pinched ==> 0 <= k.channel < n)
  }

  /** A frame only creates entries for the configured channels. */
  lemma ProcessKeepsKeys(c: EngineConfig, st: EngineState, hand: HandRef, tracked: bool, raw: seq<real>, dt: real)
    requires ValidConfig(c) && |raw| == c.channels && KeysIn(st, c.channels)
    ensures KeysIn(Process(c, st, hand, tracked, raw, dt).0, c.channels)
  {
    var st' := Process(c, st, hand, tracked, raw, dt).0;
    if Untracked(hand, tracked) {
      if c.onUntracked == ZeroSmoothed {
        forall k | k in st'.smoothed ensures 0 <= k.channel < c.channels {
          ZeroChannelsAt(st.smoothed, hand, c.channels, k);
        }
      }
    } else {
      forall k | k in st'.smoothed || k in st'.lastReported || k in st'.pinched
        ensures 0 <= k.channel < c.channels
      {
        TrackedIsPerChannel(c, st, hand, raw, dt, c.channels, k);
      }
    }
  }

  /** The smoothed strength a reader sees is in [0,1] while the tables are. */
  lemma ReadSmoothedInUnit(st: EngineState, k: Key)
    requires UnitState(st)
    ensures InUnit(ReadSmoothed(st, k))
  {
  }

  /** A sequence of smoothed strengths fed to one channel's latch: the final latch and all events. */
  function LatchRun(c: EngineConfig, hand: HandRef, i: int, was: bool, ss: seq<real>): LatchOut {
    if |ss| == 0 then LatchOut(was, [])
    else
      var prev := LatchRun(c, hand, i, was, ss[..|ss| - 1]);
      var step := Latch(c, hand, i, prev.pinched, ss[|ss| - 1]);
      LatchOut(step.pinched, prev.events + step.events)
  }

  /** The Start (true) and End (false) events of an event list, in order. */
  function Edges(evs: seq<PinchEvent>): seq<bool> {
    if |evs| == 0 then []
    else
      var e := evs[|evs| - 1];
      Edges(evs[..|evs| - 1]) + (if e.Start? then [true] else if e.End? then [false] else [])
  }

  lemma {:induction false} EdgesAppend(a: seq<PinchEvent>, b: seq<PinchEvent>)
    ensures Edges(a + b) == Edges(a) + Edges(b)
  {
    if |b| > 0 {
      assert (a + b)[..|a + b| - 1] == a + b[..|b| - 1];
      EdgesAppend(a, b[..|b| - 1]);
    } else {
      assert a + b == a;
    }
  }

  /** The first edge flips the initial latch and every later edge flips the one before it. */
  predicate Alternating(edges: seq<bool>, was: bool) {
    && (|edges| > 0 ==> edges[0] == !was)
    && forall j :: 0 < j < |edges| ==> edges[j] == !edges[j - 1]
  }

  lemma AlternatingSnoc(e: seq<bool>, b: bool, was: bool)
    requires Alternating(e, was) && b == !(if |e| == 0 then was else e[|e| - 1])
    ensures Alternating(e + [b], was)
  {
  }

  /** The direction the edges leave: the last edge, or the initial direction when there is none. */
  function FinalEdge(edges: seq<bool>, was: bool): bool {
    if |edges| == 0 then was else edges[|edges| - 1]
  }

  /** Two alternating runs, the second starting where the first ends, alternate together. */
  lemma AlternatingAppend(a: seq<bool>, b: seq<bool>, was: bool)
    requires Alternating(a, was) && Alternating(b, FinalEdge(a, was))
    ensures Alternating(a + b, was)
    ensures FinalEdge(a + b, was) == FinalEdge(b, FinalEdge(a, was))
  {
    var ab := a + b;
    forall j | 0 < j < |ab| ensures ab[j] == !ab[j - 1] {
      if j > |a| {
        assert ab[j] == b[j - |a|] && ab[j - 1] == b[j - 1 - |a|];
      }
    }
  }

  /** One latch step contributes a Start edge, an End edge, or none. */
  lemma LatchStepEdges(c: EngineConfig, hand: HandRef, i: int, was: bool, s: real)
    ensures Edges(Latch(c, hand, i, was, s).events) ==
            if !was && s >= c.startThreshold then [true]
            else if was && s < c.endThreshold then [false]
            else []
  {
    assert Edges([Hold(hand, i, s)]) == [];
    assert Edges([Start(hand, i, s)]) == [true];
  }

  /** The final latch is the direction of the last edge: latched after a Start, released after an End. */
  lemma {:induction false} LatchFollowsLastEdge(c: EngineConfig, hand: HandRef, i: int, was: bool, ss: seq<real>)
    ensures var e := Edges(LatchRun(c, hand, i, was, ss).events);
            LatchRun(c, hand, i, was, ss).pinched == if |e| == 0 then was else e[|e| - 1]
  {
    if |ss| > 0 {
      var prev := LatchRun(c, hand, i, was, ss[..|ss| - 1]);
      var s := ss[|ss| - 1];
      var step := Latch(c, hand, i, prev.pinched, s);
      LatchFollowsLastEdge(c, hand, i, was, ss[..|ss| - 1]);
      EdgesAppend(prev.events, step.events);
      LatchStepFollowsEdge(c, hand, i, prev.pinched, s);
      FinalEdgeAppend(Edges(prev.events), Edges(step.events), was);
    }
  }

  /** After one latch step the latch points the way of that step's edge, or stays put without one. */
  lemma LatchStepFollowsEdge(c: EngineConfig, hand: HandRef, i: int, was: bool, s: real)
    ensures Latch(c, hand, i, was, s).pinched == FinalEdge(Edges(Latch(c, hand, i, was, s).events), was)
  {
    LatchStepEdges(c, hand, i, was, s);
  }

  lemma FinalEdgeAppend(a: seq<bool>, b: seq<bool>, was: bool)
    ensures FinalEdge(a + b, was) == FinalEdge(b, FinalEdge(a, was))
  {
    if |b| == 0 {
      assert a + b == a;
    }
  }

  /**
   * Start and End strictly alternate on every channel, beginning with Start from a
   * released latch and with End from a latched one.
   */
  lemma {:induction false} LatchEdgesAlternate(c: EngineConfig, hand: HandRef, i: int, was: bool, ss: seq<real>)
    ensures Alternating(Edges(LatchRun(c, hand, i, was, ss).events), was)
  {
    if |ss| > 0 {
      var prev := LatchRun(c, hand, i, was, ss[..|ss| - 1]);
      var s := ss[|ss| - 1];
      var step := Latch(c, hand, i, prev.pinched, s);
      LatchEdgesAlternate(c, hand, i, was, ss[..|ss| - 1]);
      LatchFollowsLastEdge(c, hand, i, was, ss[..|ss| - 1]);
      EdgesAppend(prev.events, step.events);
      LatchStepEdges(c, hand, i, prev.pinched, s);
      var e0 := Edges(prev.events);
      if step.pinched != prev.pinched {
        AlternatingSnoc(e0, !prev.pinched, was);
      } else {
        assert e0 + [] == e0;
      }
    }
  }

  /**
   * Hysteresis: strengths that stay in [endThreshold, startThreshold) never move
   * the latch, in either direction, and emit no Start or End.
   */
  lemma {:induction false} BandKeepsLatch(c: EngineConfig, hand: HandRef, i: int, was: bool, ss: seq<real>)
    requires forall j :: 0 <= j < |ss| ==> c.endThreshold <= ss[j] < c.startThreshold
    ensures LatchRun(c, hand, i, was, ss).pinched == was
    ensures Edges(LatchRun(c, hand, i, was, ss).events) == []
  {
    if |ss| > 0 {
      var prev := LatchRun(c, hand, i, was, ss[..|ss| - 1]);
      var s := ss[|ss| - 1];
      BandKeepsLatch(c, hand, i, was, ss[..|ss| - 1]);
      EdgesAppend(prev.events, Latch(c, hand, i, prev.pinched, s).events);
      LatchStepEdges(c, hand, i, prev.pinched, s);
    }
  }

  /** One channel with no smoothing lag: the per-frame blend factor is 1. */
  const LaglessConfig := EngineConfig(1, PerFrame(1.0), false, LeaveUnchanged, 0.6, 0.45, 0.01)

  /** A state holding channel 0 of hand h only. */
  function Channel0(h: HandRef, smoothed: real, lastReported: real, pinched: bool): EngineState {
    EngineState(map[Key(h, 0) := smoothed], map[Key(h, 0) := lastReported], map[Key(h, 0) := pinched])
  }

  lemma LaglessSmoothed(prev: Option<real>, raw: real, dt: real)
    ensures Smoothed(LaglessConfig, prev, raw, dt) == raw
  {
  }

  lemma OneChannelFrame(st: EngineState, h: HandRef, raw: real, dt: real, expected: ChannelOut)
    requires h.HandObj? && StepChannel(LaglessConfig, st, h, 0, raw, dt) == expected
    ensures Process(LaglessConfig, st, h, true, [raw], dt).0 == Apply(st, Key(h, 0), expected)
    ensures Process(LaglessConfig, st, h, true, [raw], dt).1 == expected.events
  {
    assert Tracked(LaglessConfig, st, h, [raw], dt, 0) == (st, []);
    assert [] + expected.events == expected.events;
  }

  lemma ApplyChannel0(h: HandRef, smoothed: real, lastReported: real, pinched: bool, out: ChannelOut)
    ensures Apply(Channel0(h, smoothed, lastReported, pinched), Key(h, 0), out)
              == Channel0(h, out.smoothed, out.lastReported, out.pinched)
  {
    var k := Key(h, 0);
    assert map[k := smoothed][k := out.smoothed] == map[k := out.smoothed];
    assert map[k := lastReported][k := out.lastReported] == map[k := out.lastReported];
    assert map[k := pinched][k := out.pinched] == map[k := out.pinched];
  }

  /** A channel's first observation below the start threshold only records the strength. */
  lemma FirstStep(st: EngineState, h: HandRef, raw: real, dt: real)
    requires Key(h, 0) !in st.smoothed && Key(h, 0) !in st.lastReported && Key(h, 0) !in st.pinched
    requires raw < 0.6
    ensures StepChannel(LaglessConfig, st, h, 0, raw, dt) == ChannelOut(raw, raw, false, false, [])
  {
    LaglessSmoothed(None, raw, dt);
    var r := StepChannel(LaglessConfig, st, h, 0, raw, dt);
    assert Latch(LaglessConfig, h, 0, false, raw) == LatchOut(false, []);
    assert r.events == [];
  }

  /** The first tracked frame only records the strength: no micro-movement, no Start below 0.6. */
  lemma ScenarioFirstTracked(h: HandRef, dt: real)
    requires h.HandObj?
    ensures Process(LaglessConfig, EmptyState, h, true, [0.2], dt).0 == Channel0(h, 0.2, 0.2, false)
    ensures Process(LaglessConfig, EmptyState, h, true, [0.2], dt).1 == []
  {
    FirstStep(EmptyState, h, 0.2, dt);
    OneChannelFrame(EmptyState, h, 0.2, dt, ChannelOut(0.2, 0.2, false, false, []));
  }

  /** A tracked frame from channel-0 state (prev, prev, was) to raw, with a micro-movement. */
  lemma ScenarioTracked(h: HandRef, dt: real, prev: real, was: bool, raw: real, now: bool, evs: seq<PinchEvent>, all: seq<PinchEvent>)
    requires h.HandObj? && Abs(raw - prev) >= 0.01
    requires now == Latch(LaglessConfig, h, 0, was, raw).pinched
    requires evs == Latch(LaglessConfig, h, 0, was, raw).events && all == [MicroMovement(h, 0)] + evs
    ensures Process(LaglessConfig, Channel0(h, prev, prev, was), h, true, [raw], dt).0 == Channel0(h, raw, raw, now)
    ensures Process(LaglessConfig, Channel0(h, prev, prev, was), h, true, [raw], dt).1 == all
  {
    LaglessSmoothed(Some(prev), raw, dt);
    var r := StepChannel(LaglessConfig, Channel0(h, prev, prev, was), h, 0, raw, dt);
    assert r == ChannelOut(raw, raw, now, true, all);
    OneChannelFrame(Channel0(h, prev, prev, was), h, raw, dt, r);
    ApplyChannel0(h, prev, prev, was, r);
  }

  /**
   * Any hand, any frame time: untracked for three frames, then raw strengths 0.2,
   * 0.7, 0.9, 0.3 with no smoothing lag and thresholds 0.6 / 0.45. An untracked
   * frame leaves the empty tables empty and emits nothing (so three of them do
   * too); then nothing at 0.2 (its first observation), Start at 0.7, Hold at 0.9,
   * Hold and End at 0.3, each tracked change also reported as a micro-movement.
   * Each clause names the state the previous frame leaves.
   */
  lemma UntrackedThenPinchScenario(h: HandRef, dt: real)
    requires h.HandObj?
    ensures Process(LaglessConfig, EmptyState, h, false, [0.0], dt) == (EmptyState, [])
    ensures Process(LaglessConfig, EmptyState, h, true, [0.2], dt).0 == Channel0(h, 0.2, 0.2, false)
    ensures Process(LaglessConfig, EmptyState, h, true, [0.2], dt).1 == []
    ensures Process(LaglessConfig, Channel0(h, 0.2, 0.2, false), h, true, [0.7], dt).0 == Channel0(h, 0.7, 0.7, true)
    ensures Process(LaglessConfig, Channel0(h, 0.2, 0.2, false), h, true, [0.7], dt).1
              == [MicroMovement(h, 0), Start(h, 0, 0.7)]
    ensures Process(LaglessConfig, Channel0(h, 0.7, 0.7, true), h, true, [0.9], dt).0 == Channel0(h, 0.9, 0.9, true)
    ensures Process(LaglessConfig, Channel0(h, 0.7, 0.7, true), h, true, [0.9], dt).1
              == [MicroMovement(h, 0), Hold(h, 0, 0.9)]
    ensures Process(LaglessConfig, Channel0(h, 0.9, 0.9, true), h, true, [0.3], dt).0 == Channel0(h, 0.3, 0.3, false)
    ensures Process(LaglessConfig, Channel0(h, 0.9, 0.9, true), h, true, [0.3], dt).1
              == [MicroMovement(h, 0), Hold(h, 0, 0.3), End(h, 0, 0.3)]
  {
    ScenarioUntracked(h, dt);
    ScenarioFirstTracked(h, dt);
    ScenarioPress(h, dt);
    ScenarioSqueeze(h, dt);
    ScenarioRelease(h, dt);
  }

  lemma ScenarioUntracked(h: HandRef, dt: real)
    ensures Process(LaglessConfig, EmptyState, h, false, [0.0], dt) == (EmptyState, [])
  {
  }

  /** 0.2 to 0.7: a micro-movement, then Start. */
  lemma ScenarioPress(h: HandRef, dt: real)
    requires h.HandObj?
    ensures Process(LaglessConfig, Channel0(h, 0.2, 0.2, false), h, true, [0.7], dt).0 == Channel0(h, 0.7, 0.7, true)
    ensures Process(LaglessConfig, Channel0(h, 0.2, 0.2, false), h, true, [0.7], dt).1
              == [MicroMovement(h, 0), Start(h, 0, 0.7)]
  {
    ScenarioTracked(h, dt, 0.2, false, 0.7, true, [Start(h, 0, 0.7)], [MicroMovement(h, 0), Start(h, 0, 0.7)]);
  }

  /** 0.7 to 0.9: a micro-movement, then Hold. */
  lemma ScenarioSqueeze(h: HandRef, dt: real)
    requires h.HandObj?
    ensures Process(LaglessConfig, Channel0(h, 0.7, 0.7, true), h, true, [0.9], dt).0 == Channel0(h, 0.9, 0.9, true)
    ensures Process(LaglessConfig, Channel0(h, 0.7, 0.7, true), h, true, [0.9], dt).1
              == [MicroMovement(h, 0), Hold(h, 0, 0.9)]
  {
    ScenarioTracked(h, dt, 0.7, true, 0.9, true, [Hold(h, 0, 0.9)], [MicroMovement(h, 0), Hold(h, 0, 0.9)]);
  }

  /** 0.9 to 0.3: a micro-movement, then Hold and End. */
  lemma ScenarioRelease(h: HandRef, dt: real)
    requires h.HandObj?
    ensures Process(LaglessConfig, Channel0(h, 0.9, 0.9, true), h, true, [0.3], dt).0 == Channel0(h, 0.3, 0.3, false)
    ensures Process(LaglessConfig, Channel0(h, 0.9, 0.9, true), h, true, [0.3], dt).1
              == [MicroMovement(h, 0), Hold(h, 0, 0.3), End(h, 0, 0.3)]
  {
    ScenarioTracked(h, dt, 0.9, true, 0.3, false, [Hold(h, 0, 0.3), End(h, 0, 0.3)],
                    [MicroMovement(h, 0), Hold(h, 0, 0.3), End(h, 0, 0.3)]);
  }
}
