/** The gesture handler: turns one-finger moves into rotation and two-finger
    moves into a fixed-step zoom of the entity it is attached to, with every
    scale axis clamped to the configured bounds, and only while the tracked
    marker is visible. */
module GestureHandling {
  import opened Touches
  import opened GestureDetection

  /** The component's configuration (its schema). */
  datatype Config = Config(enabled: bool, rotationFactor: real, minScale: real, maxScale: real)

  /** The schema defaults. */
  const DefaultConfig: Config := Config(true, 5.0, 0.01, 3.0)

  /** Radians of rotation per pixel of drag, before the rotation factor. */
  const Sensitivity: real := 0.005

  datatype Vec3 = Vec3(x: real, y: real, z: real)

  /** The entity's rotation (Euler angles) and scale. */
  datatype Transform = Transform(rotation: Vec3, scale: Vec3)

  function Max(a: real, b: real): real { if a >= b then a else b }

  function Min(a: real, b: real): real { if a <= b then a else b }

  /** The zoom step of a two-finger move: chosen by the sign of the spread
      change alone. An absent change (the source's NaN) compares false both
      ways and leaves the scale factor at one. */
  function ScaleMultiplier(spreadChange: Option<real>): (m: real)
    ensures m == 1.05 <==> spreadChange.Some? && spreadChange.value > 0.0
    ensures m == 0.95 <==> spreadChange.Some? && spreadChange.value < 0.0
    ensures m == 1.0 <==> spreadChange.None? || spreadChange.value == 0.0
  {
    if spreadChange.Some? && spreadChange.value > 0.0 then 1.05
    else if spreadChange.Some? && spreadChange.value < 0.0 then 0.95
    else 1.0
  }

  /** `v` brought up to `lo`, then down to `hi`. */
  function Clamp(v: real, lo: real, hi: real): (r: real)
    ensures r <= hi
    ensures lo <= hi ==> lo <= r
    ensures lo <= v <= hi ==> r == v
    ensures v >= hi ==> r == hi
    ensures v <= lo <= hi ==> r == lo
    ensures hi < lo ==> r == hi
  {
    Min(Max(v, lo), hi)
  }

  predicate InBounds(s: Vec3, lo: real, hi: real) {
    lo <= s.x <= hi && lo <= s.y <= hi && lo <= s.z <= hi
  }

  predicate Uniform(s: Vec3) {
    s.x == s.y == s.z
  }

  /** Every axis multiplied by `m` and clamped into [lo, hi]. */
  function Rescaled(s: Vec3, m: real, lo: real, hi: real): Vec3 {
    Vec3(Clamp(s.x * m, lo, hi), Clamp(s.y * m, lo, hi), Clamp(s.z * m, lo, hi))
  }

  /** Yaw grows with the horizontal drag, pitch with the vertical drag; roll is untouched. */
  function Rotated(r: Vec3, positionChange: Vec2, rotationFactor: real): Vec3 {
    Vec3(r.x + positionChange.y * rotationFactor * Sensitivity,
         r.y + positionChange.x * rotationFactor * Sensitivity,
         r.z)
  }

  /** What a gesture event does to the entity: a one-finger move rotates it, a
      two-finger move zooms it, provided the handler is listening and the
      marker is visible; everything else leaves it as it is. */
  function Respond(t: Transform, cfg: Config, visible: bool, subscribed: bool, e: GestureEvent): Transform {
    if !subscribed || !visible || !e.Move? then t
    else if e.bucket == One then t.(rotation := Rotated(t.rotation, e.detail.positionChange, cfg.rotationFactor))
    else if e.bucket == Two then t.(scale := Rescaled(t.scale, ScaleMultiplier(e.detail.spreadChange), cfg.minScale, cfg.maxScale))
    else t
  }

  /** The entity after a stream of gesture events. */
  function RespondAll(t: Transform, cfg: Config, visible: bool, subscribed: bool, events: seq<GestureEvent>): Transform
    decreases |events|
  {
    if events == [] then t
    else RespondAll(Respond(t, cfg, visible, subscribed, events[0]), cfg, visible, subscribed, events[1..])
  }

  /** The scene-graph object whose rotation and scale the handler changes in place. */
  class Object3D {
    var rotation: Vec3
    var scale: Vec3

    constructor (rotation: Vec3, scale: Vec3)
      ensures this.rotation == rotation && this.scale == scale
    {
      this.rotation := rotation;
      this.scale := scale;
    }
  }

  /** The handler attached to one entity. `subscribed` says whether it
      listens to one- and two-finger move events on the scene. */
  class GestureHandler {
    const object3D: Object3D
    var data: Config
    var isVisible: bool
    var subscribed: bool

    constructor (object3D: Object3D, data: Config)
      ensures this.object3D == object3D && this.data == data
      ensures !isVisible && !subscribed
    {
      this.object3D := object3D;
      this.data := data;
      isVisible := false;
      subscribed := false;
    }

    /** The marker came into view. */
    method MarkerFound()
      modifies this
      ensures isVisible
      ensures data == old(data) && subscribed == old(subscribed)
    {
      isVisible := true;
    }

    /** The marker went out of view. */
    method MarkerLost()
      modifies this
      ensures !isVisible
      ensures data == old(data) && subscribed == old(subscribed)
    {
      isVisible := false;
    }

    /** New configuration: listen exactly when enabled (adding a listener
        that is already there changes nothing). */
    method Update(data: Config)
      modifies this
      ensures this.data == data && subscribed == data.enabled
      ensures isVisible == old(isVisible)
    {
      this.data := data;
      if data.enabled {
        subscribed := true;
      } else {
        subscribed := false;
      }
    }

    /** Detaching the component stops the listening. */
    method Remove()
      modifies this
      ensures !subscribed
      ensures data == old(data) && isVisible == old(isVisible)
    {
      subscribed := false;
    }

    method HandleRotation(detail: MoveDetail)
      modifies object3D
      ensures object3D.rotation == (if isVisible then Rotated(old(object3D.rotation), detail.positionChange, data.rotationFactor) else old(object3D.rotation))
      ensures object3D.scale == old(object3D.scale)
    {
      if isVisible {
        var r := object3D.rotation;
        object3D.rotation := r.(y := r.y + detail.positionChange.x * data.rotationFactor * Sensitivity);
        r := object3D.rotation;
        object3D.rotation := r.(x := r.x + detail.positionChange.y * data.rotationFactor * Sensitivity);
      }
    }

    method HandleScale(detail: MoveDetail)
      modifies object3D
      ensures object3D.scale == (if isVisible then Rescaled(old(object3D.scale), ScaleMultiplier(detail.spreadChange), data.minScale, data.maxScale) else old(object3D.scale))
      ensures object3D.rotation == old(object3D.rotation)
    {
      if isVisible {
        var scaleChange := detail.spreadChange;
        var scaleMultiplier := 1.0;
        if scaleChange.Some? && scaleChange.value > 0.0 {
          scaleMultiplier := 1.05;
        } else if scaleChange.Some? && scaleChange.value < 0.0 {
          scaleMultiplier := 0.95;
        }
        var newScaleX := object3D.scale.x * scaleMultiplier;
        var newScaleY := object3D.scale.y * scaleMultiplier;
        var newScaleZ := object3D.scale.z * scaleMultiplier;
        newScaleX := Min(Max(newScaleX, data.minScale), data.maxScale);
        newScaleY := Min(Max(newScaleY, data.minScale), data.maxScale);
        newScaleZ := Min(Max(newScaleZ, data.minScale), data.maxScale);
        object3D.scale := Vec3(newScaleX, newScaleY, newScaleZ);
      }
    }

    /** A gesture event emitted on the scene reaches the listeners the handler has added. */
    method Dispatch(e: GestureEvent)
      modifies object3D
      ensures Transform(object3D.rotation, object3D.scale)
        == Respond(old(Transform(object3D.rotation, object3D.scale)), data, isVisible, subscribed, e)
    {
      if subscribed && e.Move? {
        if e.bucket == One {
          HandleRotation(e.detail);
        } else if e.bucket == Two {
          HandleScale(e.detail);
        }
      }
    }
  }

  // ----- Properties -----

  /** A zoom step lands every axis inside the bounds, whatever the scale before. */
  lemma RescaledInBounds(s: Vec3, m: real, lo: real, hi: real)
    requires lo <= hi
    ensures InBounds(Rescaled(s, m, lo, hi), lo, hi)
    ensures Uniform(s) ==> Uniform(Rescaled(s, m, lo, hi))
  {
  }

  /** At a bound, a step towards it keeps the scale on the bound. */
  lemma RescaledAtBound(lo: real, hi: real)
    requires 0.0 <= lo <= hi
    ensures Rescaled(Vec3(hi, hi, hi), 1.05, lo, hi) == Vec3(hi, hi, hi)
    ensures Rescaled(Vec3(lo, lo, lo), 0.95, lo, hi) == Vec3(lo, lo, lo)
  {
  }

  /** While the marker is not visible, no stream of events changes the entity. */
  lemma {:induction false} InvisibleIsInert(t: Transform, cfg: Config, subscribed: bool, events: seq<GestureEvent>)
    ensures RespondAll(t, cfg, false, subscribed, events) == t
    decreases |events|
  {
    if events != [] {
      InvisibleIsInert(t, cfg, subscribed, events[1..]);
    }
  }

  /** While the handler is not listening, no stream of events changes the entity. */
  lemma {:induction false} UnsubscribedIsInert(t: Transform, cfg: Config, visible: bool, events: seq<GestureEvent>)
    ensures RespondAll(t, cfg, visible, false, events) == t
    decreases |events|
  {
    if events != [] {
      UnsubscribedIsInert(t, cfg, visible, events[1..]);
    }
  }

  /** A scale inside the bounds stays inside them, and a uniform scale stays
      uniform, through any stream of events. */
  lemma {:induction false} ScaleInvariant(t: Transform, cfg: Config, visible: bool, subscribed: bool, events: seq<GestureEvent>)
    requires cfg.minScale <= cfg.maxScale
    requires InBounds(t.scale, cfg.minScale, cfg.maxScale)
    ensures InBounds(RespondAll(t, cfg, visible, subscribed, events).scale, cfg.minScale, cfg.maxScale)
    ensures Uniform(t.scale) ==> Uniform(RespondAll(t, cfg, visible, subscribed, events).scale)
    decreases |events|
  {
    if events != [] {
      var t1 := Respond(t, cfg, visible, subscribed, events[0]);
      RescaledInBounds(t.scale, ScaleMultiplier(if events[0].Move? then events[0].detail.spreadChange else None), cfg.minScale, cfg.maxScale);
      ScaleInvariant(t1, cfg, visible, subscribed, events[1..]);
    }
  }

  /** With the schema defaults, a scale inside [0.01, 3.0] stays inside it through any stream of events. */
  lemma DefaultScaleInvariant(t: Transform, visible: bool, subscribed: bool, events: seq<GestureEvent>)
    requires InBounds(t.scale, 0.01, 3.0)
    ensures DefaultConfig.enabled
    ensures InBounds(RespondAll(t, DefaultConfig, visible, subscribed, events).scale, 0.01, 3.0)
  {
    ScaleInvariant(t, DefaultConfig, visible, subscribed, events);
  }

  /** Two drags in a row turn the entity as far as one drag by their sum. */
  lemma RotatedTwice(r: Vec3, a: Vec2, b: Vec2, f: real)
    ensures Rotated(Rotated(r, a, f), b, f) == Rotated(r, Plus(a, b), f)
  {
    assert a.x * f * Sensitivity + b.x * f * Sensitivity == (a.x + b.x) * f * Sensitivity;
    assert a.y * f * Sensitivity + b.y * f * Sensitivity == (a.y + b.y) * f * Sensitivity;
    var u, v := Rotated(Rotated(r, a, f), b, f), Rotated(r, Plus(a, b), f);
    assert u.x == v.x && u.y == v.y && u.z == v.z;
  }

  /** Rotation is not clamped: it accumulates the one-finger drags exactly,
      scaled by the rotation factor and the sensitivity. */
  lemma {:induction false} RotationAccumulates(t: Transform, cfg: Config, events: seq<GestureEvent>)
    ensures RespondAll(t, cfg, true, true, events).rotation == Rotated(t.rotation, PanTotal(events, One), cfg.rotationFactor)
    decreases |events|
  {
    if events == [] {
    } else {
      var e := events[0];
      var t1 := Respond(t, cfg, true, true, e);
      RotationAccumulates(t1, cfg, events[1..]);
      var q := PanTotal(events[1..], One);
      if e.Move? && e.bucket == One {
        RotatedTwice(t.rotation, e.detail.positionChange, q, cfg.rotationFactor);
      }
    }
  }

  /** A one-finger drag, from the detector's raw events to the handler's
      response: the entity turns by the finger's whole displacement, and its
      scale does not change. */
  lemma OneFingerDrag(t: Transform, cfg: Config, previous: TouchSample, raws: seq<RawTouchEvent>, hypot: Hypot)
    requires previous.touchCount == 1
    requires forall i :: 0 <= i < |raws| ==> |raws[i].touches| == 1
    ensures Run(Some(previous), raws, hypot).next.Some?
    ensures var r := Run(Some(previous), raws, hypot);
      var d := Minus(r.next.value.position, previous.position);
      RespondAll(t, cfg, true, true, r.events) == Transform(Rotated(t.rotation, d, cfg.rotationFactor), t.scale)
  {
    var r := Run(Some(previous), raws, hypot);
    DragTelescopes(previous, raws, hypot);
    assert BucketOf(previous.touchCount) == One;
    var d := Minus(r.next.value.position, previous.position);
    assert PanTotal(r.events, One) == d;
    RotationAccumulates(t, cfg, r.events);
    OnlyOneFingerMoves(t, cfg, r.events);

  }

  lemma {:induction false} OnlyOneFingerMoves(t: Transform, cfg: Config, events: seq<GestureEvent>)
    requires forall e :: e in events ==> e.Move? && e.bucket == One
    ensures RespondAll(t, cfg, true, true, events).scale == t.scale
    decreases |events|
  {
    if events != [] {
      assert events[0] in events;
      OnlyOneFingerMoves(Respond(t, cfg, true, true, events[0]), cfg, events[1..]);
    }
  }

  /** Two fingers moved together without changing their distance pan but do
      not zoom: a scale inside the bounds is left as it is. */
  lemma TwoFingerPanKeepsScale(t: Transform, cfg: Config, previous: TouchSample, ts: seq<TouchPoint>, d: Vec2, hypot: Hypot, now: real)
    requires |ts| == 2 && Unstamped(Some(previous)) == SampleOf(ts, hypot)
    requires InBounds(t.scale, cfg.minScale, cfg.maxScale)
    ensures var r := Step(Some(previous), SampleOf(Shifted(ts, d), hypot), now);
      && |r.events| == 1 && r.events[0].Move? && r.events[0].bucket == Two
      && r.events[0].detail.positionChange == d
      && Respond(t, cfg, true, true, r.events[0]) == t
  {
    ShiftedMove(previous, ts, d, hypot, now);
  }

  /** The samples of the two raw events of `PinchOutExample`. */
  lemma PinchOutSamples(hypot: Hypot)
    requires hypot(-10.0, 0.0) == 10.0 && hypot(-20.0, 0.0) == 20.0
    ensures SampleOf([TouchPoint(0.0, 0.0), TouchPoint(10.0, 0.0)], hypot) == Some(TouchSample(2, Vec2(5.0, 0.0), Some(10.0), None))
    ensures SampleOf([TouchPoint(0.0, 0.0), TouchPoint(20.0, 0.0)], hypot) == Some(TouchSample(2, Vec2(10.0, 0.0), Some(20.0), None))
  {
    var a := [TouchPoint(0.0, 0.0), TouchPoint(10.0, 0.0)];
    var b := [TouchPoint(0.0, 0.0), TouchPoint(20.0, 0.0)];
    assert a[..1] == [a[0]] && [a[0]][..0] == [];
    assert b[..1] == [b[0]] && [b[0]][..0] == [];
    assert TouchSum(a) == Vec2(10.0, 0.0);
    assert TouchSum(b) == Vec2(20.0, 0.0);
  }

  /** Two contacts at (0,0) and (10,0), then at (0,0) and (20,0): a start,
      then a move by (5,0) whose spread grows by 10, which zooms by 5%. */
  lemma PinchOutExample(hypot: Hypot, x: RawTouchEvent, y: RawTouchEvent)
    requires hypot(-10.0, 0.0) == 10.0 && hypot(-20.0, 0.0) == 20.0
    requires x.touches == [TouchPoint(0.0, 0.0), TouchPoint(10.0, 0.0)]
    requires y.touches == [TouchPoint(0.0, 0.0), TouchPoint(20.0, 0.0)]
    ensures var r := Run(None, [x, y], hypot);
      && |r.events| == 2
      && r.events[0] == Start(Two, TouchSample(2, Vec2(5.0, 0.0), Some(10.0), Some(Stamp(x.time, Vec2(5.0, 0.0), Some(10.0)))))
      && r.events[1] == Move(Two, MoveDetail(Vec2(5.0, 0.0), Some(10.0), None, Vec2(10.0, 0.0), Some(20.0)))
      && ScaleMultiplier(r.events[1].detail.spreadChange) == 1.05
  {
    var sa := TouchSample(2, Vec2(5.0, 0.0), Some(10.0), None);
    var sb := TouchSample(2, Vec2(10.0, 0.0), Some(20.0), None);
    PinchOutSamples(hypot);
    assert SampleOf(x.touches, hypot) == Some(sa) && SampleOf(y.touches, hypot) == Some(sb);
    var e1 := Start(Two, Stamped(sa, x.time));
    var e2 := Move(Two, MoveDetail(Vec2(5.0, 0.0), Some(10.0), None, Vec2(10.0, 0.0), Some(20.0)));
    var first := Step(None, Some(sa), x.time);
    assert first == StepResult([e1], Some(Stamped(sa, x.time)));
    var p := Stamped(sa, x.time);
    StepContinues(p, sb, y.time);
    var second := Step(Some(p), Some(sb), y.time);
    assert second.events[0].detail == e2.detail;
    assert second == StepResult([e2], Some(sb));
    RunTwo(None, x, y, hypot);
    assert Run(None, [x, y], hypot).events == [e1] + [e2];
  }

  /** Zooming in at 0.19 with bounds [0.005, 0.2]: 0.1995 is kept, and the
      next step, 0.209475, is clamped to exactly 0.2. */
  lemma ClampAtMaxExample()
    ensures Rescaled(Vec3(0.19, 0.19, 0.19), 1.05, 0.005, 0.2) == Vec3(0.1995, 0.1995, 0.1995)
    ensures Rescaled(Vec3(0.1995, 0.1995, 0.1995), 1.05, 0.005, 0.2) == Vec3(0.2, 0.2, 0.2)
  {
  }
}
