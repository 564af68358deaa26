/** Touch samples: what the gesture detector computes from one raw touch event
    (the touch count, the centroid of the contacts and the spread between the
    first two contacts). */
module Touches {

  datatype Option<+T> = None | Some(value: T)

  /** A point or a displacement in client (screen) coordinates. */
  datatype Vec2 = Vec2(x: real, y: real)

  function Plus(a: Vec2, b: Vec2): Vec2 { Vec2(a.x + b.x, a.y + b.y) }

  function Minus(a: Vec2, b: Vec2): Vec2 { Vec2(a.x - b.x, a.y - b.y) }

  /** One active contact point, as the browser reports it. */
  datatype TouchPoint = TouchPoint(clientX: real, clientY: real)

  /** The fields written on a sample at the moment a gesture is recognised as started. */
  datatype Stamp = Stamp(startTime: real, startPosition: Vec2, startSpread: Option<real>)

  /** A sample of the touch configuration. `start` is None until the sample is
      stamped as the first sample of a gesture. */
  datatype TouchSample = TouchSample(touchCount: nat, position: Vec2, spread: Option<real>, start: Option<Stamp>)

  /** The Euclidean length of a displacement (Math.hypot); the model takes it as given. */
  type Hypot = (real, real) -> real

  /** A stored or computed sample is absent, or has at least one contact. */
  predicate WellFormed(s: Option<TouchSample>) {
    s.Some? ==> s.value.touchCount >= 1
  }

  /** The componentwise sum of the contact coordinates, accumulated from the
      first contact to the last as `reduce` does, starting from the origin. */
  function TouchSum(ts: seq<TouchPoint>): Vec2
    decreases |ts|
  {
    if ts == [] then Vec2(0.0, 0.0)
    else
      var s := TouchSum(ts[..|ts| - 1]);
      Vec2(s.x + ts[|ts| - 1].clientX, s.y + ts[|ts| - 1].clientY)
  }

  /** The mean position of the contacts. */
  function Centroid(ts: seq<TouchPoint>): (r: Vec2)
    requires |ts| > 0
    ensures |ts| == 1 ==> r == Vec2(ts[0].clientX, ts[0].clientY)
  {
    var s := TouchSum(ts);
    assert |ts| == 1 ==> ts[..|ts| - 1] == [] && TouchSum(ts) == Vec2(ts[0].clientX, ts[0].clientY);
    Vec2(s.x / |ts| as real, s.y / |ts| as real)
  }

  /** The distance between the first two contacts, present only with two or more contacts. */
  function Spread(ts: seq<TouchPoint>, hypot: Hypot): (r: Option<real>)
    ensures r.Some? <==> |ts| >= 2
  {
    if |ts| >= 2 then Some(hypot(ts[0].clientX - ts[1].clientX, ts[0].clientY - ts[1].clientY))
    else None
  }

  /** The sample a raw event with contacts `ts` yields; no contacts yield no sample. */
  function SampleOf(ts: seq<TouchPoint>, hypot: Hypot): (r: Option<TouchSample>)
    ensures r.None? <==> |ts| == 0
    ensures WellFormed(r)
    ensures r.Some? ==> r.value.touchCount == |ts| && r.value.start.None?
    ensures r.Some? ==> (r.value.spread.Some? <==> |ts| >= 2)
    ensures r.Some? ==> r.value.position == Centroid(ts) && r.value.spread == Spread(ts, hypot)
  {
    if |ts| == 0 then None
    else Some(TouchSample(|ts|, Centroid(ts), Spread(ts, hypot), None))
  }

  /** Every contact moved by the same displacement `d`. */
  function Shifted(ts: seq<TouchPoint>, d: Vec2): (r: seq<TouchPoint>)
    ensures |r| == |ts|
    ensures forall i :: 0 <= i < |ts| ==> r[i] == TouchPoint(ts[i].clientX + d.x, ts[i].clientY + d.y)
  {
    seq(|ts|, i requires 0 <= i < |ts| => TouchPoint(ts[i].clientX + d.x, ts[i].clientY + d.y))
  }

  /** Every contact lies in the box [lo.x, hi.x] x [lo.y, hi.y]. */
  ghost predicate InBox(ts: seq<TouchPoint>, lo: Vec2, hi: Vec2) {
    forall i :: 0 <= i < |ts| ==> lo.x <= ts[i].clientX <= hi.x && lo.y <= ts[i].clientY <= hi.y
  }

  lemma {:induction false} TouchSumXInRange(ts: seq<TouchPoint>, lo: Vec2, hi: Vec2)
    requires InBox(ts, lo, hi)
    ensures |ts| as real * lo.x <= TouchSum(ts).x <= |ts| as real * hi.x
    decreases |ts|
  {
    if ts != [] {
      var init := ts[..|ts| - 1];
      InBoxInit(ts, lo, hi);
      TouchSumXInRange(init, lo, hi);
      SumStep(|init| as real, |ts| as real, lo.x, hi.x, TouchSum(init).x, ts[|ts| - 1].clientX);
    }
  }

  lemma {:induction false} TouchSumYInRange(ts: seq<TouchPoint>, lo: Vec2, hi: Vec2)
    requires InBox(ts, lo, hi)
    ensures |ts| as real * lo.y <= TouchSum(ts).y <= |ts| as real * hi.y
    decreases |ts|
  {
    if ts != [] {
      var init := ts[..|ts| - 1];
      InBoxInit(ts, lo, hi);
      TouchSumYInRange(init, lo, hi);
      SumStep(|init| as real, |ts| as real, lo.y, hi.y, TouchSum(init).y, ts[|ts| - 1].clientY);
    }
  }

  lemma InBoxInit(ts: seq<TouchPoint>, lo: Vec2, hi: Vec2)
    requires ts != [] && InBox(ts, lo, hi)
    ensures InBox(ts[..|ts| - 1], lo, hi)
    ensures lo.x <= ts[|ts| - 1].clientX <= hi.x && lo.y <= ts[|ts| - 1].clientY <= hi.y
  {
  }

  /** One more term between `a` and `b` keeps a sum of bounded terms bounded. */
  lemma SumStep(m: real, n: real, a: real, b: real, p: real, x: real)
    requires n == m + 1.0 && m * a <= p <= m * b && a <= x <= b
    ensures n * a <= p + x <= n * b
  {
  }

  /** Dividing a sum of `n` terms bounded by `a` and `b` gives a mean between `a` and `b`. */
  lemma MeanBetween(s: real, n: real, a: real, b: real)
    requires n > 0.0 && n * a <= s <= n * b
    ensures a <= s / n <= b
  {
    assert s == n * (s / n);
  }

  /** The centroid lies in every box that holds all the contacts. */
  lemma CentroidInBox(ts: seq<TouchPoint>, lo: Vec2, hi: Vec2)
    requires |ts| > 0 && InBox(ts, lo, hi)
    ensures lo.x <= Centroid(ts).x <= hi.x && lo.y <= Centroid(ts).y <= hi.y
  {
    TouchSumXInRange(ts, lo, hi);
    TouchSumYInRange(ts, lo, hi);
    var n, s := |ts| as real, TouchSum(ts);
    MeanBetween(s.x, n, lo.x, hi.x);
    MeanBetween(s.y, n, lo.y, hi.y);
  }

  lemma {:induction false} TouchSumShifted(ts: seq<TouchPoint>, d: Vec2)
    ensures TouchSum(Shifted(ts, d)) == Vec2(TouchSum(ts).x + |ts| as real * d.x, TouchSum(ts).y + |ts| as real * d.y)
    decreases |ts|
  {
    if ts != [] {
      var init, last := ts[..|ts| - 1], ts[|ts| - 1];
      var u := Shifted(ts, d);
      assert u[..|u| - 1] == Shifted(init, d);
      assert u[|u| - 1] == TouchPoint(last.clientX + d.x, last.clientY + d.y);
      TouchSumShifted(init, d);
      var m, n := |init| as real, |ts| as real;
      assert n == m + 1.0;
      OneMoreTerm(m, n, d.x);
      OneMoreTerm(m, n, d.y);
    }
  }

  lemma OneMoreTerm(m: real, n: real, a: real)
    requires n == m + 1.0
    ensures m * a + a == n * a
  {
  }

  /** Moving every contact by `d` moves the centroid by `d`. */
  lemma CentroidShifted(ts: seq<TouchPoint>, d: Vec2)
    requires |ts| > 0
    ensures Centroid(Shifted(ts, d)) == Plus(Centroid(ts), d)
  {
    var u := Shifted(ts, d);
    TouchSumShifted(ts, d);
    MeanShift(TouchSum(ts), TouchSum(u), |ts| as real, d);
  }

  /** Adding n copies of `d` to a sum of n terms adds `d` to their mean. */
  lemma MeanShift(s: Vec2, su: Vec2, n: real, d: Vec2)
    requires n > 0.0 && su == Vec2(s.x + n * d.x, s.y + n * d.y)
    ensures Vec2(su.x / n, su.y / n) == Plus(Vec2(s.x / n, s.y / n), d)
  {
    MeanShiftOne(s.x, n, d.x);
    MeanShiftOne(s.y, n, d.y);
  }

  lemma MeanShiftOne(a: real, n: real, c: real)
    requires n > 0.0
    ensures (a + n * c) / n == a / n + c
  {
    assert (a / n + c) * n == a / n * n + c * n;
    assert a / n * n == a;
  }

  /** The centroid is a running mean: one more contact `p` moves it so that
      (n + 1) times the new centroid is n times the old one plus `p`. */
  lemma CentroidAppend(ts: seq<TouchPoint>, p: TouchPoint)
    requires |ts| > 0
    ensures (|ts| + 1) as real * Centroid(ts + [p]).x == |ts| as real * Centroid(ts).x + p.clientX
    ensures (|ts| + 1) as real * Centroid(ts + [p]).y == |ts| as real * Centroid(ts).y + p.clientY
  {
    var u := ts + [p];
    assert u[..|u| - 1] == ts && u[|u| - 1] == p;
    var s, su := TouchSum(ts), TouchSum(u);
    assert su == Vec2(s.x + p.clientX, s.y + p.clientY);
    var n, m := |ts| as real, |u| as real;
    assert m == (|ts| + 1) as real;
    TimesMean(s.x, n);
    TimesMean(s.y, n);
    TimesMean(su.x, m);
    TimesMean(su.y, m);
  }

  /** n times the mean of a sum of n terms is the sum. */
  lemma TimesMean(a: real, n: real)
    requires n > 0.0
    ensures n * (a / n) == a
  {
  }

  /** Moving every contact by `d` leaves the spread as it was. */
  lemma SpreadShifted(ts: seq<TouchPoint>, d: Vec2, hypot: Hypot)
    ensures Spread(Shifted(ts, d), hypot) == Spread(ts, hypot)
  {
    if |ts| >= 2 {
      var u := Shifted(ts, d);
      assert u[0].clientX - u[1].clientX == ts[0].clientX - ts[1].clientX;
      assert u[0].clientY - u[1].clientY == ts[0].clientY - ts[1].clientY;
    }
  }

  /** The spread depends on the first two contacts only. */
  lemma SpreadFirstTwo(ts: seq<TouchPoint>, us: seq<TouchPoint>, hypot: Hypot)
    requires |ts| >= 2 && |us| >= 2 && ts[..2] == us[..2]
    ensures Spread(ts, hypot) == Spread(us, hypot)
  {
    assert ts[0] == ts[..2][0] && ts[1] == ts[..2][1];
    assert us[0] == us[..2][0] && us[1] == us[..2][1];
  }
}
