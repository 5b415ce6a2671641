/** The live scanning session: the per-frame gate, the result gate with its
    intercept-and-reopen path, the rate-limited auto-zoom decision,
    tap-to-focus recognition and the flashlight button's reaction to the
    light sensor. The clock, the consumer's verdict, the touch events and
    the point distances are parameters; beep, zoom, callback, finish and
    focus requests are recorded in a ghost event log. */
module CameraScan {
  import opened Common
  import LightSensor

  const HoverTapTimeout: int := 150
  const HoverTapSlop: int := 20
  const AutoZoomInterval: int := 100

  /** Side effects the session triggers, in order. */
  datatype ScanEvent = Beep | ZoomIn | Callback(result: DecodeResult) | Finish(text: string) | Focus(x: real, y: real)

  /** `(int) ResultPoint.distance(p, q)`: the truncated distance between two
      finder points (truncation is monotone, so truncating the maximum of
      the float distances equals the maximum of the truncated ones). */
  type PointDistance = (ResultPoint, ResultPoint) -> nat

  /** The fields the result gate reads and writes. */
  datatype GateState = GateState(isAnalyze: bool, isAnalyzeResult: bool, lastAutoZoomTime: int)

  /** Fixed inputs of the auto-zoom decision: the auto-zoom switch and the
      screen size from the display metrics. */
  datatype ZoomSetup = ZoomSetup(needAutoZoom: bool, screenWidth: int, screenHeight: int)

  /** Who receives a result: whether a scan-result callback is set, what it
      returns (true = intercept), and whether there is an activity to
      finish. */
  datatype Consumer = Consumer(hasCallback: bool, intercepts: bool, hasActivity: bool)

  /** The flashlight button, if one is bound. */
  datatype Flashlight = NoView | View(visible: bool, selected: bool)

  datatype TouchAction = ActionDown | ActionMove | ActionUp | ActionOther

  /** A touch event on the preview and the clock when it arrived. */
  datatype Touch = Touch(pointerCount: int, action: TouchAction, x: real, y: real, time: int)

  /** The fields of tap-to-focus recognition. */
  datatype TapState = TapState(isClickTap: bool, downX: real, downY: real, lastHoveTapTime: int)

  function Count(evs: seq<ScanEvent>, e: ScanEvent): nat
  {
    if evs == [] then 0 else (if evs[0] == e then 1 else 0) + Count(evs[1..], e)
  }

  lemma {:induction false} CountAppend(a: seq<ScanEvent>, b: seq<ScanEvent>, e: ScanEvent)
    ensures Count(a + b, e) == Count(a, e) + Count(b, e)
  {
    if a != [] {
      assert (a + b)[0] == a[0];
      assert (a + b)[1..] == a[1..] + b;
      CountAppend(a[1..], b, e);
    } else {
      assert a + b == b;
    }
  }

  // ---------------------------------------------------------------------
  // The result gate and the auto-zoom decision

  /** The size estimate of a QR code: the distance between the first two
      points, or the largest distance among the first three. */
  function FinderSpan(points: seq<ResultPoint>, dist: PointDistance): (span: nat)
    requires |points| >= 2
    ensures span >= dist(points[0], points[1])
    ensures |points| >= 3 ==> span >= dist(points[1], points[2]) && span >= dist(points[0], points[2])
    ensures span == dist(points[0], points[1])
            || (|points| >= 3 && (span == dist(points[1], points[2]) || span == dist(points[0], points[2])))
  {
    var d1 := dist(points[0], points[1]);
    if |points| >= 3 then Max(Max(d1, dist(points[1], points[2])), dist(points[0], points[2])) else d1
  }

  /** Auto-zoom is considered only for a QR code, with auto-zoom on, more
      than 100 ms after the last auto-zoom, and with at least two points. */
  predicate AutoZoomConsidered(g: GateState, r: DecodeResult, z: ZoomSetup, now: int)
  {
    r.format == QrCode && z.needAutoZoom && g.lastAutoZoomTime + AutoZoomInterval < now && |r.points| >= 2
  }

  /** ... and fires when the code spans less than a quarter of the shorter
      screen side. */
  predicate AutoZoomFires(g: GateState, r: DecodeResult, z: ZoomSetup, now: int, dist: PointDistance)
  {
    AutoZoomConsidered(g, r, z, now) && FinderSpan(r.points, dist) * 4 < Min(z.screenWidth, z.screenHeight)
  }

  /** `scanResultCallback`: whether the gate reopens, and the events. */
  function Deliver(r: DecodeResult, c: Consumer): (bool, seq<ScanEvent>)
  {
    if c.hasCallback && c.intercepts then (true, [Callback(r)])
    else (false, (if c.hasCallback then [Callback(r)] else []) + (if c.hasActivity then [Finish(r.text)] else []))
  }

  /** `handleAnalyzeResult`: the new gate state and the events. */
  function HandleResult(g: GateState, r: DecodeResult, z: ZoomSetup, c: Consumer, now: int, dist: PointDistance): (GateState, seq<ScanEvent>)
  {
    if g.isAnalyzeResult || !g.isAnalyze then (g, [])
    else
      var fires := AutoZoomFires(g, r, z, now, dist);
      var delivered := Deliver(r, c);
      (GateState(g.isAnalyze, !delivered.0, if fires then now else g.lastAutoZoomTime),
       [Beep] + (if fires then [ZoomIn] else []) + delivered.1)
  }

  /** A held result or disabled analysis (after `release` or
      `setAnalyzeImage(false)`) makes a result a no-op. */
  lemma HeldOrDisabledIgnoresResult(g: GateState, r: DecodeResult, z: ZoomSetup, c: Consumer, now: int, dist: PointDistance)
    requires g.isAnalyzeResult || !g.isAnalyze
    ensures HandleResult(g, r, z, c, now, dist) == (g, [])
  {
  }

  /** A result through an open gate: one beep, first; one zoom-in exactly
      when the code is small and the cooldown has passed, and then the
      timestamp moves to now; the callback once whether or not a zoom
      fired; the activity finishes unless the callback intercepted, and an
      intercept reopens the gate. */
  lemma OpenGateHandlesResult(g: GateState, r: DecodeResult, z: ZoomSetup, c: Consumer, now: int, dist: PointDistance)
    requires !g.isAnalyzeResult && g.isAnalyze
    ensures var (g', evs) := HandleResult(g, r, z, c, now, dist);
      var fires := AutoZoomConsidered(g, r, z, now) && FinderSpan(r.points, dist) * 4 < Min(z.screenWidth, z.screenHeight);
      var intercepted := c.hasCallback && c.intercepts;
      && evs != [] && evs[0] == Beep && Count(evs, Beep) == 1
      && Count(evs, ZoomIn) == (if fires then 1 else 0)
      && g'.lastAutoZoomTime == (if fires then now else g.lastAutoZoomTime)
      && Count(evs, Callback(r)) == (if c.hasCallback then 1 else 0)
      && Count(evs, Finish(r.text)) == (if c.hasActivity && !intercepted then 1 else 0)
      && g'.isAnalyze && g'.isAnalyzeResult == !intercepted
      && evs == [Beep] + (if fires then [ZoomIn] else []) + (if c.hasCallback then [Callback(r)] else [])
                + (if c.hasActivity && !intercepted then [Finish(r.text)] else [])
  {
    var fires := AutoZoomFires(g, r, z, now, dist);
    var zoom := if fires then [ZoomIn] else [];
    var callback := if c.hasCallback then [Callback(r)] else [];
    var finish := if c.hasActivity && !(c.hasCallback && c.intercepts) then [Finish(r.text)] else [];
    var delivered := Deliver(r, c).1;
    assert delivered == callback + finish;
    var evs := HandleResult(g, r, z, c, now, dist).1;
    assert evs == [Beep] + zoom + callback + finish;
    forall e: ScanEvent
      ensures Count(evs, e) == Count([Beep], e) + Count(zoom, e) + Count(callback, e) + Count(finish, e)
    {
      CountAppend([Beep] + zoom + callback, finish, e);
      CountAppend([Beep] + zoom, callback, e);
      CountAppend([Beep], zoom, e);
    }
    forall x: ScanEvent, e: ScanEvent ensures Count([x], e) == if x == e then 1 else 0 {
      assert [x][1..] == [];
    }
    assert evs[0] == Beep;
  }

  /** Two results less than 100 ms apart (by the clock) cause at most one
      zoom-in, whatever their sizes and whatever the consumer answers. */
  lemma AutoZoomRateLimited(g: GateState, r1: DecodeResult, r2: DecodeResult, z: ZoomSetup,
                            c1: Consumer, c2: Consumer, t1: int, t2: int, dist: PointDistance)
    requires t2 <= t1 + AutoZoomInterval
    ensures var (g1, e1) := HandleResult(g, r1, z, c1, t1, dist);
      var (g2, e2) := HandleResult(g1, r2, z, c2, t2, dist);
      Count(e1 + e2, ZoomIn) <= 1
  {
    var (g1, e1) := HandleResult(g, r1, z, c1, t1, dist);
    var (g2, e2) := HandleResult(g1, r2, z, c2, t2, dist);
    CountAppend(e1, e2, ZoomIn);
    if g.isAnalyzeResult || !g.isAnalyze {
      HeldOrDisabledIgnoresResult(g, r1, z, c1, t1, dist);
    } else {
      OpenGateHandlesResult(g, r1, z, c1, t1, dist);
    }
    if g1.isAnalyzeResult || !g1.isAnalyze {
      HeldOrDisabledIgnoresResult(g1, r2, z, c2, t2, dist);
    } else {
      OpenGateHandlesResult(g1, r2, z, c2, t2, dist);
    }
  }

  /** The gate is single-assignment: once a result was accepted without an
      intercept, every later result is ignored; after an intercept the next
      result goes through. */
  lemma GateSingleAssignment(g: GateState, r1: DecodeResult, r2: DecodeResult, z: ZoomSetup,
                             c1: Consumer, c2: Consumer, t1: int, t2: int, dist: PointDistance)
    requires !g.isAnalyzeResult && g.isAnalyze
    ensures var (g1, _) := HandleResult(g, r1, z, c1, t1, dist);
      var second := HandleResult(g1, r2, z, c2, t2, dist);
      (!(c1.hasCallback && c1.intercepts) ==> second == (g1, []))
      && (c1.hasCallback && c1.intercepts ==> second.1 != [] && second.1[0] == Beep)
  {
    var (g1, _) := HandleResult(g, r1, z, c1, t1, dist);
    OpenGateHandlesResult(g, r1, z, c1, t1, dist);
    if !(c1.hasCallback && c1.intercepts) {
      HeldOrDisabledIgnoresResult(g1, r2, z, c2, t2, dist);
    } else {
      OpenGateHandlesResult(g1, r2, z, c2, t2, dist);
    }
  }

  // ---------------------------------------------------------------------
  // Tap-to-focus

  /** `MathUtils.distance(downX, downY, x, y) < 20`, compared squared. */
  predicate WithinSlop(dx: real, dy: real)
  {
    dx * dx + dy * dy < (HoverTapSlop * HoverTapSlop) as real
  }

  /** `handlePreviewViewClickTap`: the new state, and whether focus is
      requested at the event's point. */
  function TapStep(t: TapState, e: Touch): (TapState, bool)
  {
    if e.pointerCount != 1 then (t, false)
    else
      match e.action
      case ActionDown => (TapState(true, e.x, e.y, e.time), false)
      case ActionMove => (t.(isClickTap := WithinSlop(e.x - t.downX, e.y - t.downY)), false)
      case ActionUp => (t, t.isClickTap && t.lastHoveTapTime + HoverTapTimeout > e.time)
      case ActionOther => (t, false)
  }

  function TapRun(t: TapState, es: seq<Touch>): (TapState, seq<ScanEvent>)
    decreases |es|
  {
    if es == [] then (t, [])
    else
      var step := TapStep(t, es[0]);
      var rest := TapRun(step.0, es[1..]);
      (rest.0, (if step.1 then [Focus(es[0].x, es[0].y)] else []) + rest.1)
  }

  lemma {:induction false} TapRunAppend(t: TapState, a: seq<Touch>, b: seq<Touch>)
    ensures var first := TapRun(t, a);
      var second := TapRun(first.0, b);
      TapRun(t, a + b) == (second.0, first.1 + second.1)
    decreases |a|
  {
    if a != [] {
      assert (a + b)[0] == a[0];
      assert (a + b)[1..] == a[1..] + b;
      var step := TapStep(t, a[0]);
      var focus: seq<ScanEvent> := if step.1 then [Focus(a[0].x, a[0].y)] else [];
      TapRunAppend(step.0, a[1..], b);
      var inner := TapRun(step.0, a[1..]);
      var second := TapRun(inner.0, b);
      assert TapRun(t, a) == (inner.0, focus + inner.1);
      assert TapRun(t, a + b) == (second.0, focus + (inner.1 + second.1));
      assert focus + (inner.1 + second.1) == (focus + inner.1) + second.1;
    } else {
      assert a + b == b;
      assert TapRun(t, a) == (t, []);
      assert [] + TapRun(t, b).1 == TapRun(t, b).1;
    }
  }

  predicate SingleMove(e: Touch)
  {
    e.pointerCount == 1 && e.action == ActionMove
  }

  /** Moves only rewrite the click flag, and only the last move counts: it
      says whether the finger is within the slop of the down point. */
  lemma {:induction false} MovesDecideClickFlag(t: TapState, moves: seq<Touch>)
    requires forall i :: 0 <= i < |moves| ==> SingleMove(moves[i])
    ensures TapRun(t, moves) ==
      (t.(isClickTap := if moves == [] then t.isClickTap
                        else WithinSlop(Last(moves).x - t.downX, Last(moves).y - t.downY)), [])
    decreases |moves|
  {
    if moves != [] {
      assert SingleMove(moves[0]);
      var t1 := TapStep(t, moves[0]).0;
      assert t1 == t.(isClickTap := WithinSlop(moves[0].x - t.downX, moves[0].y - t.downY));
      assert forall i :: 0 <= i < |moves[1..]| ==> SingleMove(moves[1..][i]) by {
        forall i | 0 <= i < |moves[1..]| ensures SingleMove(moves[1..][i]) {
          assert moves[1..][i] == moves[i + 1];
        }
      }
      MovesDecideClickFlag(t1, moves[1..]);
      if |moves| > 1 {
        assert Last(moves[1..]) == Last(moves);
      } else {
        assert moves[1..] == [];
        assert Last(moves) == moves[0];
        assert TapRun(t1, moves[1..]) == (t1, []);
        assert TapStep(t, moves[0]) == (t1, false);
        var none: seq<ScanEvent> := [];
        assert TapRun(t, moves) == (TapRun(t1, moves[1..]).0, none + TapRun(t1, moves[1..]).1);
        assert none + TapRun(t1, moves[1..]).1 == none;
        assert TapRun(t, moves) == (t1, none);
      }
    }
  }

  /** A single-finger gesture down, moves, up requests focus once, at the up
      point, exactly when the last move (if any) stayed within 20 px of the
      down point and the up came less than 150 ms after the down. */
  lemma TapGesture(t: TapState, down: Touch, moves: seq<Touch>, up: Touch)
    requires down.pointerCount == 1 && down.action == ActionDown
    requires forall i :: 0 <= i < |moves| ==> SingleMove(moves[i])
    requires up.pointerCount == 1 && up.action == ActionUp
    ensures var near := moves == [] || WithinSlop(Last(moves).x - down.x, Last(moves).y - down.y);
      TapRun(t, [down] + moves + [up]).1
        == (if near && down.time + HoverTapTimeout > up.time then [Focus(up.x, up.y)] else [])
  {
    var t1 := TapStep(t, down).0;
    TapRunAppend(t, [down], moves + [up]);
    TapRunAppend(t1, moves, [up]);
    MovesDecideClickFlag(t1, moves);
    assert [down] + moves + [up] == [down] + (moves + [up]);
  }

  /** Multi-finger events change nothing and request nothing. */
  lemma MultiPointerIgnored(t: TapState, e: Touch)
    requires e.pointerCount != 1
    ensures TapStep(t, e) == (t, false)
  {
  }

  // ---------------------------------------------------------------------
  // The flashlight button

  /** The light listener: darkness shows the button (selected as the torch
      is); brightness hides and deselects a visible button unless the torch
      is on. */
  function FlashlightReaction(f: Flashlight, dark: bool, torchOn: bool): (f': Flashlight)
    ensures f.NoView? ==> f' == f
    ensures f.View? && dark ==> f' == View(true, if f.visible then f.selected else torchOn)
    ensures f.View? && !dark && f.visible && !torchOn ==> f' == View(false, false)
    ensures f.View? && !dark && !(f.visible && !torchOn) ==> f' == f
  {
    match f
    case NoView => f
    case View(visible, selected) =>
      if dark then
        (if !visible then View(true, torchOn) else f)
      else if visible && !torchOn then View(false, false)
      else f
  }

  /** The listener applied to each event the light manager emits. */
  function ApplyLightEvents(f: Flashlight, evs: seq<LightSensor.LightEvent>, torchOn: bool): Flashlight
    decreases |evs|
  {
    if evs == [] then f
    else
      var f1 := if evs[0].DarkChanged? then FlashlightReaction(f, evs[0].dark, torchOn) else f;
      ApplyLightEvents(f1, evs[1..], torchOn)
  }

  /** While the torch is on, a visible button is never hidden. */
  lemma {:induction false} TorchOnKeepsButtonVisible(f: Flashlight, evs: seq<LightSensor.LightEvent>, torchOn: bool)
    requires f.View? && f.visible && torchOn
    ensures var f' := ApplyLightEvents(f, evs, torchOn); f'.View? && f'.visible
    decreases |evs|
  {
    if evs != [] {
      var f1 := if evs[0].DarkChanged? then FlashlightReaction(f, evs[0].dark, torchOn) else f;
      TorchOnKeepsButtonVisible(f1, evs[1..], torchOn);
    }
  }

  /** An accepted dark reading shows a bound button. */
  lemma DarkReadingShowsButton(s: LightSensor.SensorState, r: LightSensor.Reading, f: Flashlight, torchOn: bool)
    requires LightSensor.Accepts(s, r.time) && s.hasListener && f.View?
    requires r.lux <= s.darkLightLux
    ensures var f' := ApplyLightEvents(f, LightSensor.SensorStep(s, r).1, torchOn); f'.View? && f'.visible
  {
    var evs := LightSensor.SensorStep(s, r).1;
    assert evs == [LightSensor.LuxChanged(r.lux), LightSensor.DarkChanged(true, s.darkLightLux)];
    var f1 := FlashlightReaction(f, true, torchOn);
    assert f1.View? && f1.visible;
    assert evs[1..] == [LightSensor.DarkChanged(true, s.darkLightLux)];
    assert ApplyLightEvents(f, evs, torchOn) == ApplyLightEvents(f, evs[1..], torchOn);
    assert evs[1..][1..] == [];
    assert ApplyLightEvents(f, evs[1..], torchOn) == ApplyLightEvents(f1, [], torchOn);
  }

  // ---------------------------------------------------------------------
  // The session object

  class Scanner {
    const screenWidth: int
    const screenHeight: int
    const needAutoZoom: bool
    const hasActivity: bool
    const light: LightSensor.LightManager

    var isAnalyze: bool
    var isAnalyzeResult: bool
    var hasAnalyzer: bool
    var hasCallback: bool
    var lastAutoZoomTime: int
    var isClickTap: bool
    var downX: real
    var downY: real
    var lastHoveTapTime: int
    var flashlight: Flashlight
    ghost var events: seq<ScanEvent>

    function Gate(): GateState
      reads this
    {
      GateState(isAnalyze, isAnalyzeResult, lastAutoZoomTime)
    }

    function Tap(): TapState
      reads this
    {
      TapState(isClickTap, downX, downY, lastHoveTapTime)
    }

    function Zoom(): ZoomSetup
    {
      ZoomSetup(needAutoZoom, screenWidth, screenHeight)
    }

    /** The constructor with `initData`: analysis on, no result held, the
        light manager created, registered and listened to. */
    constructor (screenWidth: int, screenHeight: int, needAutoZoom: bool, hasActivity: bool, hasLightSensor: bool)
      ensures this.screenWidth == screenWidth && this.screenHeight == screenHeight
      ensures this.needAutoZoom == needAutoZoom && this.hasActivity == hasActivity
      ensures Gate() == GateState(true, false, 0)
      ensures Tap() == TapState(false, 0.0, 0.0, 0)
      ensures !hasAnalyzer && !hasCallback && flashlight == NoView && events == []
      ensures fresh(light) && light.hasSensor == hasLightSensor && light.registered == hasLightSensor
      ensures light.State() == LightSensor.SensorState(true, 0, LightSensor.DarkLux, true)
    {
      this.screenWidth := screenWidth;
      this.screenHeight := screenHeight;
      this.needAutoZoom := needAutoZoom;
      this.hasActivity := hasActivity;
      light := new LightSensor.LightManager(hasLightSensor);
      isAnalyze := true;
      isAnalyzeResult := false;
      hasAnalyzer := false;
      hasCallback := false;
      lastAutoZoomTime := 0;
      isClickTap := false;
      downX, downY := 0.0, 0.0;
      lastHoveTapTime := 0;
      flashlight := NoView;
      events := [];
      new;
      light.Register();
      light.SetOnLightSensorEventListener(true);
    }

    /** `startCamera`, as far as the session's state goes: `initConfig`
        installs the default analyzer when none is set. */
    method StartCamera()
      modifies this
      ensures hasAnalyzer
      ensures Gate() == old(Gate()) && Tap() == old(Tap()) && hasCallback == old(hasCallback)
      ensures flashlight == old(flashlight) && events == old(events)
    {
      if !hasAnalyzer {
        hasAnalyzer := true;
      }
    }

    /** The frame analyzer: a frame is analyzed only while analysis is on,
        no result is held and an analyzer is set; only a non-null result is
        posted. `analyzed` is what the analyzer returns for this frame. */
    method AnalyzeFrame(analyzed: Option<DecodeResult>) returns (called: bool, posted: Option<DecodeResult>)
      ensures called <==> isAnalyze && !isAnalyzeResult && hasAnalyzer
      ensures posted == if called then analyzed else None
    {
      posted := None;
      called := false;
      if isAnalyze && !isAnalyzeResult && hasAnalyzer {
        called := true;
        var result := analyzed;
        if result.Some? {
          posted := result;
        }
      }
    }

    /** `scanResultCallback`: an intercepting callback reopens the gate;
        otherwise the activity (if any) finishes with the text. */
    method ScanResultCallback(r: DecodeResult, intercepts: bool)
      modifies this
      ensures var d := Deliver(r, Consumer(hasCallback, intercepts, hasActivity));
        isAnalyzeResult == (if d.0 then false else old(isAnalyzeResult))
        && events == old(events) + d.1
      ensures isAnalyze == old(isAnalyze) && lastAutoZoomTime == old(lastAutoZoomTime)
      ensures Tap() == old(Tap()) && hasAnalyzer == old(hasAnalyzer) && hasCallback == old(hasCallback)
      ensures flashlight == old(flashlight)
    {
      if hasCallback && intercepts {
        events := events + [Callback(r)];
        isAnalyzeResult := false;
        return;
      }
      if hasCallback {
        events := events + [Callback(r)];
      }
      if hasActivity {
        events := events + [Finish(r.text)];
      }
    }

    /** `handleAutoZoom`: zoom in and deliver when the code spans less than
        a quarter of the shorter screen side. */
    method HandleAutoZoom(distance: int, r: DecodeResult, now: int, intercepts: bool) returns (zoomed: bool)
      modifies this
      ensures zoomed <==> distance * 4 < Min(screenWidth, screenHeight)
      ensures !zoomed ==> Gate() == old(Gate()) && events == old(events)
      ensures zoomed ==>
        var d := Deliver(r, Consumer(hasCallback, intercepts, hasActivity));
        lastAutoZoomTime == now && isAnalyze == old(isAnalyze)
        && isAnalyzeResult == (if d.0 then false else old(isAnalyzeResult))
        && events == old(events) + [ZoomIn] + d.1
      ensures Tap() == old(Tap()) && hasAnalyzer == old(hasAnalyzer) && hasCallback == old(hasCallback)
      ensures flashlight == old(flashlight)
    {
      var size := Min(screenWidth, screenHeight);
      if distance * 4 < size {
        lastAutoZoomTime := now;
        events := events + [ZoomIn];
        ScanResultCallback(r, intercepts);
        return true;
      }
      return false;
    }

    /** `handleAnalyzeResult` for a posted result, at clock `now`, with the
        callback answering `intercepts`. */
    method HandleAnalyzeResult(r: DecodeResult, now: int, intercepts: bool, dist: PointDistance)
      modifies this
      ensures var (g, evs) := HandleResult(old(Gate()), r, Zoom(), Consumer(hasCallback, intercepts, hasActivity), now, dist);
        Gate() == g && events == old(events) + evs
      ensures Tap() == old(Tap()) && hasAnalyzer == old(hasAnalyzer) && hasCallback == old(hasCallback)
      ensures flashlight == old(flashlight)
    {
      ghost var g0 := Gate();
      ghost var e0 := events;
      ghost var c := Consumer(hasCallback, intercepts, hasActivity);
      if isAnalyzeResult || !isAnalyze {
        return;
      }
      isAnalyzeResult := true;
      events := events + [Beep];
      ghost var d := Deliver(r, c);
      ghost var fires := AutoZoomFires(g0, r, Zoom(), now, dist);
      if r.format == QrCode && needAutoZoom && lastAutoZoomTime + AutoZoomInterval < now {
        var points := r.points;
        if |points| >= 2 {
          var distance1 := dist(points[0], points[1]);
          var maxDistance := distance1;
          if |points| >= 3 {
            var distance2 := dist(points[1], points[2]);
            var distance3 := dist(points[0], points[2]);
            maxDistance := Max(Max(distance1, distance2), distance3);
          }
          assert maxDistance == FinderSpan(points, dist);
          var zoomed := HandleAutoZoom(maxDistance, r, now, intercepts);
          if zoomed {
            assert events == e0 + [Beep] + [ZoomIn] + d.1;
            return;
          }
        }
      }
      assert !fires;
      ScanResultCallback(r, intercepts);
      assert events == e0 + [Beep] + [] + d.1;
    }

    /** `setAnalyzeImage(analyze)`. */
    method SetAnalyzeImage(analyze: bool)
      modifies this
      ensures Gate() == old(Gate()).(isAnalyze := analyze)
      ensures Tap() == old(Tap()) && hasAnalyzer == old(hasAnalyzer) && hasCallback == old(hasCallback)
      ensures flashlight == old(flashlight) && events == old(events)
    {
      isAnalyze := analyze;
    }

    /** `setAnalyzer(analyzer)`: null is allowed and stops frame analysis. */
    method SetAnalyzer(present: bool)
      modifies this
      ensures hasAnalyzer == present
      ensures Gate() == old(Gate()) && Tap() == old(Tap()) && hasCallback == old(hasCallback)
      ensures flashlight == old(flashlight) && events == old(events)
    {
      hasAnalyzer := present;
    }

    /** `setOnScanResultCallback(callback)`. */
    method SetOnScanResultCallback(present: bool)
      modifies this
      ensures hasCallback == present
      ensures Gate() == old(Gate()) && Tap() == old(Tap()) && hasAnalyzer == old(hasAnalyzer)
      ensures flashlight == old(flashlight) && events == old(events)
    {
      hasCallback := present;
    }

    /** `release`: analysis off (so later results are ignored), the
        flashlight button dropped, the light sensor unregistered. */
    method Release()
      modifies this, light
      ensures Gate() == old(Gate()).(isAnalyze := false)
      ensures flashlight == NoView
      ensures light.State() == old(light.State()) && light.registered == (old(light.registered) && !light.hasSensor)
      ensures Tap() == old(Tap()) && hasAnalyzer == old(hasAnalyzer) && hasCallback == old(hasCallback)
      ensures events == old(events)
    {
      isAnalyze := false;
      flashlight := NoView;
      light.Unregister();
    }

    /** `bindFlashlightView(v)`: the light sensor is enabled exactly when a
        button is bound. */
    method BindFlashlightView(v: Flashlight)
      modifies this, light
      ensures flashlight == v
      ensures light.State() == old(light.State()).(enabled := v.View?) && light.registered == old(light.registered)
      ensures Gate() == old(Gate()) && Tap() == old(Tap()) && hasAnalyzer == old(hasAnalyzer)
      ensures hasCallback == old(hasCallback) && events == old(events)
    {
      flashlight := v;
      light.SetLightSensorEnabled(v.View?);
    }

    method SetDarkLightLux(lightLux: real)
      modifies light
      ensures light.State() == old(light.State()).(darkLightLux := lightLux) && light.registered == old(light.registered)
    {
      light.SetDarkLightLux(lightLux);
    }

    method SetBrightLightLux(lightLux: real)
      modifies light
      ensures light.State() == old(light.State()).(darkLightLux := lightLux) && light.registered == old(light.registered)
    {
      light.SetBrightLightLux(lightLux);
    }

    /** A light-sensor reading reaching the session's light manager, whose
        listener updates the flashlight button; `torchOn` is what the
        camera reports. */
    method OnLightReading(r: LightSensor.Reading, torchOn: bool)
      requires light.registered
      modifies this, light
      ensures var (s, evs) := LightSensor.SensorStep(old(light.State()), r);
        light.State() == s && flashlight == ApplyLightEvents(old(flashlight), evs, torchOn)
      ensures light.registered == old(light.registered)
      ensures Gate() == old(Gate()) && Tap() == old(Tap()) && hasAnalyzer == old(hasAnalyzer)
      ensures hasCallback == old(hasCallback) && events == old(events)
    {
      var emitted := light.OnSensorChanged(r);
      flashlight := ApplyLightEvents(flashlight, emitted, torchOn);
    }

    /** `handlePreviewViewClickTap(event)`. */
    method HandlePreviewViewClickTap(e: Touch)
      modifies this
      ensures var (t, focus) := TapStep(old(Tap()), e);
        Tap() == t && events == old(events) + (if focus then [Focus(e.x, e.y)] else [])
      ensures Gate() == old(Gate()) && hasAnalyzer == old(hasAnalyzer) && hasCallback == old(hasCallback)
      ensures flashlight == old(flashlight)
    {
      if e.pointerCount == 1 {
        match e.action {
          case ActionDown =>
            isClickTap := true;
            downX := e.x;
            downY := e.y;
            lastHoveTapTime := e.time;
          case ActionMove =>
            isClickTap := WithinSlop(e.x - downX, e.y - downY);
          case ActionUp =>
            if isClickTap && lastHoveTapTime + HoverTapTimeout > e.time {
              events := events + [Focus(e.x, e.y)];
            }
          case ActionOther =>
        }
      }
    }
  }
}
