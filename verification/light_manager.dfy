/** The ambient-light throttle: sensor events are accepted at most once per
    200 ms, and an accepted reading is reported raw and then classified as
    dark (at or below the dark threshold) or bright (at or above 100 lux).
    Lux values are only compared, so they are reals here. */
module LightSensor {
  import opened Common

  const IntervalTime: int := 200
  const DarkLux: real := 45.0
  const BrightLux: real := 100.0

  /** What the listener receives: the raw reading, then possibly a
      dark/bright verdict whose second argument is the dark threshold (not
      the reading). */
  datatype LightEvent = LuxChanged(lux: real) | DarkChanged(dark: bool, lightLux: real)

  /** The manager's state, as one value. */
  datatype SensorState = SensorState(enabled: bool, lastTime: int, darkLightLux: real, hasListener: bool)

  /** One sensor reading and the clock when it arrived. */
  datatype Reading = Reading(lux: real, time: int)

  /** The dark test comes first: a reading at or below the dark threshold
      is dark even if it is also at or above the bright threshold. */
  function Classify(lux: real, darkLightLux: real): (verdict: Option<bool>)
    ensures verdict == Some(true) <==> lux <= darkLightLux
    ensures verdict == Some(false) <==> darkLightLux < lux && BrightLux <= lux
    ensures verdict.None? <==> darkLightLux < lux < BrightLux
  {
    if lux <= darkLightLux then Some(true)
    else if lux >= BrightLux then Some(false)
    else None
  }

  predicate Accepts(s: SensorState, now: int)
  {
    s.enabled && now - s.lastTime >= IntervalTime
  }

  /** `onSensorChanged`: the new state and the events the listener gets. */
  function SensorStep(s: SensorState, r: Reading): (SensorState, seq<LightEvent>)
  {
    if !Accepts(s, r.time) then (s, [])
    else
      var s' := s.(lastTime := r.time);
      if !s.hasListener then (s', [])
      else
        var verdict := Classify(r.lux, s.darkLightLux);
        (s', [LuxChanged(r.lux)] + (if verdict.Some? then [DarkChanged(verdict.value, s.darkLightLux)] else []))
  }

  /** A stream of readings: the final state and the times of the accepted
      readings. */
  function Feed(s: SensorState, rs: seq<Reading>): (SensorState, seq<int>)
    decreases |rs|
  {
    if rs == [] then (s, [])
    else
      var accepted := Accepts(s, rs[0].time);
      var next := SensorStep(s, rs[0]).0;
      var tail := Feed(next, rs[1..]);
      (tail.0, (if accepted then [rs[0].time] else []) + tail.1)
  }

  /** A disabled sensor changes nothing and tells nobody. */
  lemma DisabledIsInert(s: SensorState, r: Reading)
    requires !s.enabled
    ensures SensorStep(s, r) == (s, [])
  {
  }

  /** A reading less than 200 ms after the last accepted one is dropped
      and leaves the timestamp as it was. */
  lemma TooSoonIsDropped(s: SensorState, r: Reading)
    requires r.time - s.lastTime < IntervalTime
    ensures SensorStep(s, r) == (s, [])
  {
  }

  /** An accepted reading moves the timestamp even when no listener is
      registered; only the threshold-free fields stay. */
  lemma AcceptedMovesTimestamp(s: SensorState, r: Reading)
    requires Accepts(s, r.time)
    ensures SensorStep(s, r).0 == s.(lastTime := r.time)
    ensures !s.hasListener ==> SensorStep(s, r).1 == []
  {
  }

  /** With a listener, an accepted reading is reported raw first, then at
      most one verdict follows, carrying the dark threshold. */
  lemma AcceptedEvents(s: SensorState, r: Reading)
    requires Accepts(s, r.time) && s.hasListener
    ensures var evs := SensorStep(s, r).1;
      1 <= |evs| <= 2 && evs[0] == LuxChanged(r.lux)
      && (|evs| == 2 <==> Classify(r.lux, s.darkLightLux).Some?)
      && (|evs| == 2 ==> evs[1] == DarkChanged(r.lux <= s.darkLightLux, s.darkLightLux))
  {
  }

  /** Accepted readings are at least 200 ms apart, and the first one at
      least 200 ms after the starting timestamp. */
  lemma {:induction false} FeedSpacing(s: SensorState, rs: seq<Reading>)
    ensures var acc := Feed(s, rs).1;
      (acc != [] ==> acc[0] - s.lastTime >= IntervalTime)
      && forall k :: 0 < k < |acc| ==> acc[k] - acc[k - 1] >= IntervalTime
    decreases |rs|
  {
    if rs != [] {
      var next := SensorStep(s, rs[0]).0;
      FeedSpacing(next, rs[1..]);
      var tail := Feed(next, rs[1..]).1;
      if Accepts(s, rs[0].time) {
        assert next.lastTime == rs[0].time;
      } else {
        assert next == s;
      }
    }
  }

  /** The manager (one per scanning screen). */
  class LightManager {
    const hasSensor: bool
    var darkLightLux: real
    var lastTime: int
    var isLightSensorEnabled: bool
    var hasListener: bool
    var registered: bool

    function State(): SensorState
      reads this
    {
      SensorState(isLightSensorEnabled, lastTime, darkLightLux, hasListener)
    }

    /** Enabled, dark threshold 45 lux, timestamp 0, no listener. */
    constructor (hasSensor: bool)
      ensures this.hasSensor == hasSensor
      ensures State() == SensorState(true, 0, DarkLux, false)
      ensures !registered
    {
      this.hasSensor := hasSensor;
      darkLightLux := DarkLux;
      lastTime := 0;
      isLightSensorEnabled := true;
      hasListener := false;
      registered := false;
    }

    /** Listening to the sensor needs the sensor to exist. */
    method Register()
      modifies this
      ensures registered == (old(registered) || hasSensor)
      ensures State() == old(State())
    {
      if hasSensor {
        registered := true;
      }
    }

    method Unregister()
      modifies this
      ensures registered == (old(registered) && !hasSensor)
      ensures State() == old(State())
    {
      if hasSensor {
        registered := false;
      }
    }

    method OnSensorChanged(r: Reading) returns (emitted: seq<LightEvent>)
      modifies this
      ensures (State(), emitted) == SensorStep(old(State()), r)
      ensures registered == old(registered)
    {
      emitted := [];
      if isLightSensorEnabled {
        var currentTime := r.time;
        if currentTime - lastTime < IntervalTime {
          return;
        }
        lastTime := currentTime;
        if hasListener {
          var lightLux := r.lux;
          emitted := [LuxChanged(lightLux)];
          if lightLux <= darkLightLux {
            emitted := emitted + [DarkChanged(true, darkLightLux)];
          } else if lightLux >= BrightLux {
            emitted := emitted + [DarkChanged(false, darkLightLux)];
          }
          ghost var verdict := Classify(lightLux, darkLightLux);
          assert emitted == [LuxChanged(lightLux)] + (if verdict.Some? then [DarkChanged(verdict.value, darkLightLux)] else []);
        }
      }
    }

    method SetDarkLightLux(lightLux: real)
      modifies this
      ensures State() == old(State()).(darkLightLux := lightLux)
      ensures registered == old(registered)
    {
      darkLightLux := lightLux;
    }

    /** Overwrites the dark threshold too; the bright threshold stays the
        constant 100 lux. */
    method SetBrightLightLux(lightLux: real)
      modifies this
      ensures State() == old(State()).(darkLightLux := lightLux)
      ensures registered == old(registered)
    {
      darkLightLux := lightLux;
    }

    method SetLightSensorEnabled(enabled: bool)
      modifies this
      ensures State() == old(State()).(enabled := enabled)
      ensures registered == old(registered)
    {
      isLightSensorEnabled := enabled;
    }

    method SetOnLightSensorEventListener(present: bool)
      modifies this
      ensures State() == old(State()).(hasListener := present)
      ensures registered == old(registered)
    {
      hasListener := present;
    }
  }

  /** After `setBrightLightLux(x)` a reading is dark exactly when it is at
      most x, and bright only from 100 lux up: the bright threshold never
      moves. */
  lemma BrightSetterMovesDarkThreshold(s: SensorState, x: real, lux: real)
    ensures Classify(lux, s.(darkLightLux := x).darkLightLux) == Some(true) <==> lux <= x
    ensures Classify(lux, s.(darkLightLux := x).darkLightLux) == Some(false) <==> x < lux && BrightLux <= lux
  {
  }
}
