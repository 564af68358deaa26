/** The gesture detector: a state machine that compares each raw touch event's
    sample with the stored previous sample and emits named gesture events
    (start, move, end) tagged by finger-count bucket. */
module GestureDetection {
  import opened Touches

  /** The finger-count bucket that names an event. */
  datatype Bucket = One | Two | Three | Many

  /** The bucket of a sample with `touchCount` contacts: the table
      [one, two, three, many] indexed by min(touchCount, 4) - 1. */
  function BucketOf(touchCount: nat): (b: Bucket)
    requires touchCount >= 1
    ensures b == One <==> touchCount == 1
    ensures b == Two <==> touchCount == 2
    ensures b == Three <==> touchCount == 3
    ensures b == Many <==> touchCount >= 4
  {
    var names := [One, Two, Three, Many];
    names[(if touchCount < 4 then touchCount else 4) - 1]
  }

  /** The prefix of an event name. */
  function Prefix(b: Bucket): string {
    match b
    case One => "one"
    case Two => "two"
    case Three => "three"
    case Many => "many"
  }

  /** What a move event carries: the change since the previous sample, the
      start spread of the current sample, and the current position and spread. */
  datatype MoveDetail = MoveDetail(
    positionChange: Vec2,
    spreadChange: Option<real>,
    startSpread: Option<real>,
    position: Vec2,
    spread: Option<real>)

  datatype GestureEvent =
    | Start(bucket: Bucket, sample: TouchSample)
    | Move(bucket: Bucket, detail: MoveDetail)
    | End(bucket: Bucket, sample: TouchSample)

  /** The name the event is emitted under, e.g. "twofingermove". */
  function EventName(e: GestureEvent): string {
    match e
    case Start(b, _) => Prefix(b) + "fingerstart"
    case Move(b, _) => Prefix(b) + "fingermove"
    case End(b, _) => Prefix(b) + "fingerend"
  }

  /** The difference of two spreads; absent when either is absent (the
      source subtracts two undefined values and gets NaN). */
  function SpreadChange(current: Option<real>, previous: Option<real>): (r: Option<real>)
    ensures r.Some? <==> current.Some? && previous.Some?
    ensures r.Some? ==> previous.value + r.value == current.value
  {
    if current.Some? && previous.Some? then Some(current.value - previous.value) else None
  }

  /** The start spread of a sample: absent when the sample was never stamped. */
  function StartSpreadOf(s: TouchSample): Option<real> {
    if s.start.Some? then s.start.value.startSpread else None
  }

  /** The detail of the move from `previous` to `current`. */
  function MoveFrom(previous: TouchSample, current: TouchSample): (d: MoveDetail)
    ensures Plus(previous.position, d.positionChange) == current.position
    ensures d.position == current.position && d.spread == current.spread
    ensures d.startSpread == StartSpreadOf(current)
  {
    MoveDetail(
      Minus(current.position, previous.position),
      SpreadChange(current.spread, previous.spread),
      StartSpreadOf(current),
      current.position,
      current.spread)
  }

  /** The sample with its start fields written at time `now`. */
  function Stamped(s: TouchSample, now: real): (r: TouchSample)
    ensures r.start == Some(Stamp(now, s.position, s.spread))
    ensures Unstamped(Some(r)) == Unstamped(Some(s))
  {
    s.(start := Some(Stamp(now, s.position, s.spread)))
  }

  /** The sample with its start fields erased. */
  function Unstamped(s: Option<TouchSample>): Option<TouchSample> {
    if s.Some? then Some(s.value.(start := None)) else None
  }

  /** The bucket of the gesture in progress, if any. */
  function OpenBucket(s: Option<TouchSample>): Option<Bucket>
    requires WellFormed(s)
  {
    if s.Some? then Some(BucketOf(s.value.touchCount)) else None
  }

  datatype StepResult = StepResult(events: seq<GestureEvent>, next: Option<TouchSample>)

  /** What one raw event does: the events emitted, in order, and the sample
      stored afterwards, given the stored sample `previous`, the new sample
      `current` and the clock reading `now`. */
  function Step(previous: Option<TouchSample>, current: Option<TouchSample>, now: real): (r: StepResult)
    requires WellFormed(previous) && WellFormed(current)
    ensures WellFormed(r.next)
  {
    if previous.Some? && current.Some? && current.value.touchCount == previous.value.touchCount then
      StepResult([Move(BucketOf(current.value.touchCount), MoveFrom(previous.value, current.value))], current)
    else
      var ended := if previous.Some? then [End(BucketOf(previous.value.touchCount), previous.value)] else [];
      if current.Some? then
        var s := Stamped(current.value, now);
        StepResult(ended + [Start(BucketOf(s.touchCount), s)], Some(s))
      else
        StepResult(ended, None)
  }

  /** One raw touch event: the active contacts and the clock reading when it is handled. */
  datatype RawTouchEvent = RawTouchEvent(touches: seq<TouchPoint>, time: real)

  /** The events emitted for a series of raw events, and the sample stored at the end. */
  function Run(previous: Option<TouchSample>, raws: seq<RawTouchEvent>, hypot: Hypot): (r: StepResult)
    requires WellFormed(previous)
    ensures WellFormed(r.next)
    decreases |raws|
  {
    if raws == [] then StepResult([], previous)
    else
      var first := Step(previous, SampleOf(raws[0].touches, hypot), raws[0].time);
      var rest := Run(first.next, raws[1..], hypot);
      StepResult(first.events + rest.events, rest.next)
  }

  /** The detector attached to one touch target. Its only state is the
      previously stored sample; `emitted` records, in order, every event it
      has emitted. */
  class GestureDetector {
    const hypot: Hypot
    var previousState: Option<TouchSample>
    var emitted: seq<GestureEvent>

    ghost predicate Valid()
      reads this
    {
      WellFormed(previousState)
    }

    constructor (hypot: Hypot)
      ensures Valid()
      ensures this.hypot == hypot && previousState == None && emitted == []
    {
      this.hypot := hypot;
      previousState := None;
      emitted := [];
    }

    /** Builds the sample of a raw event: copies the contacts into a list, then
        takes the centroid and, with two or more contacts, the spread. */
    method GetTouchState(touches: seq<TouchPoint>) returns (s: Option<TouchSample>)
      ensures s == SampleOf(touches, hypot)
    {
      if |touches| == 0 {
        return None;
      }
      var touchList: seq<TouchPoint> := [];
      var i := 0;
      while i < |touches|
        invariant 0 <= i <= |touches|
        invariant touchList == touches[..i]
      {
        touchList := touchList + [touches[i]];
        i := i + 1;
      }
      var centerPosition := TouchSum(touchList);
      var n := |touchList| as real;
      var spread: Option<real> := None;
      if |touchList| >= 2 {
        spread := Some(hypot(touchList[0].clientX - touchList[1].clientX, touchList[0].clientY - touchList[1].clientY));
      }
      s := Some(TouchSample(|touchList|, Vec2(centerPosition.x / n, centerPosition.y / n), spread, None));
      assert touchList == touches;
    }

    /** Handles one raw touch event received at time `now`. */
    method EmitGestureEvent(touches: seq<TouchPoint>, now: real)
      requires Valid()
      modifies this
      ensures Valid()
      ensures emitted == old(emitted) + Step(old(previousState), SampleOf(touches, hypot), now).events
      ensures previousState == Step(old(previousState), SampleOf(touches, hypot), now).next
    {
      var currentState := GetTouchState(touches);
      var previous := previousState;
      var gestureContinues := previous.Some? && currentState.Some? && currentState.value.touchCount == previous.value.touchCount;
      var gestureEnded := previous.Some? && !gestureContinues;
      var gestureStarted := currentState.Some? && !gestureContinues;
      if gestureEnded {
        emitted := emitted + [End(BucketOf(previous.value.touchCount), previous.value)];
        previousState := None;
      }
      if gestureStarted {
        var started := currentState.value.(start := Some(Stamp(now, currentState.value.position, currentState.value.spread)));
        emitted := emitted + [Start(BucketOf(started.touchCount), started)];
        previousState := Some(started);
      }
      if gestureContinues {
        var detail := MoveDetail(
          Vec2(currentState.value.position.x - previous.value.position.x, currentState.value.position.y - previous.value.position.y),
          SpreadChange(currentState.value.spread, previous.value.spread),
          StartSpreadOf(currentState.value),
          currentState.value.position,
          currentState.value.spread);
        emitted := emitted + [Move(BucketOf(currentState.value.touchCount), detail)];
        previousState := currentState;
      }
    }
  }

  // ----- Properties of one step -----

  /** Every bucket has its own name prefix: one, two, three or many. */
  lemma PrefixNames(n: nat)
    requires n >= 1
    ensures Prefix(BucketOf(n)) == ["one", "two", "three", "many"][(if n < 4 then n else 4) - 1]
    ensures n >= 4 ==> Prefix(BucketOf(n)) == "many"
  {
  }

  /** Distinct events are emitted under distinct names, so a listener for one
      name hears one kind of event of one bucket only. */
  lemma {:induction false} EventNamesDistinct(e1: GestureEvent, e2: GestureEvent)
    requires EventName(e1) == EventName(e2)
    ensures e1.bucket == e2.bucket
    ensures e1.Start? == e2.Start? && e1.Move? == e2.Move? && e1.End? == e2.End?
  {
    var n1, n2 := EventName(e1), EventName(e2);
    assert n1[0] == n2[0] && n1[1] == n2[1];
    assert |n1| == |n2|;
    if e1.bucket != e2.bucket {
      assert false;
    }
    var k := |Prefix(e1.bucket)|;
    assert n1[k + 6] == n2[k + 6];
    assert n1[k..] == n2[k..];
  }

  /** Same non-zero touch count as before: one move event and nothing else,
      carrying the change of centroid and of spread; the new sample is stored
      as it was computed, without start fields. */
  lemma StepContinues(previous: TouchSample, current: TouchSample, now: real)
    requires previous.touchCount >= 1 && current.touchCount == previous.touchCount
    ensures var r := Step(Some(previous), Some(current), now);
      && r.events == [Move(BucketOf(current.touchCount), r.events[0].detail)]
      && r.events[0].detail.positionChange == Minus(current.position, previous.position)
      && r.events[0].detail.spreadChange == SpreadChange(current.spread, previous.spread)
      && r.events[0].detail.position == current.position
      && r.events[0].detail.spread == current.spread
      && r.events[0].detail.startSpread == StartSpreadOf(current)
      && r.next == Some(current)
  {
  }

  /** The touch count changes from k to m, both non-zero: the end of the old
      bucket's gesture, then the start of the new one, and no move. */
  lemma StepChangesCount(previous: TouchSample, current: TouchSample, now: real)
    requires previous.touchCount >= 1 && current.touchCount >= 1
    requires current.touchCount != previous.touchCount
    ensures var r := Step(Some(previous), Some(current), now);
      && r.events == [End(BucketOf(previous.touchCount), previous), Start(BucketOf(current.touchCount), Stamped(current, now))]
      && r.next == Some(Stamped(current, now))
  {
  }

  /** No contacts: an end event if a gesture was in progress, otherwise
      nothing; never a start; nothing is stored. */
  lemma StepReleases(previous: Option<TouchSample>, now: real)
    requires WellFormed(previous)
    ensures var r := Step(previous, None, now);
      && r.events == (if previous.Some? then [End(BucketOf(previous.value.touchCount), previous.value)] else [])
      && r.next == None
  {
  }

  /** Contacts where there were none: a start event only. */
  lemma StepBegins(current: TouchSample, now: real)
    requires current.touchCount >= 1
    ensures var r := Step(None, Some(current), now);
      && r.events == [Start(BucketOf(current.touchCount), Stamped(current, now))]
      && r.next == Some(Stamped(current, now))
  {
  }

  /** The stored sample is the sample just computed (with start fields only
      when it began a gesture): absent exactly when the event had no contacts. */
  lemma StepStoresCurrent(previous: Option<TouchSample>, current: Option<TouchSample>, now: real)
    requires WellFormed(previous) && WellFormed(current)
    ensures Unstamped(Step(previous, current, now).next) == Unstamped(current)
    ensures Step(previous, current, now).next.None? <==> current.None?
  {
  }

  /** A start event carries the sample stamped with its own time, position and spread. */
  lemma StartIsStamped(previous: Option<TouchSample>, current: Option<TouchSample>, now: real, e: GestureEvent)
    requires WellFormed(previous) && WellFormed(current)
    requires e in Step(previous, current, now).events && e.Start?
    ensures current.Some? && e.sample == Stamped(current.value, now)
    ensures e.sample.start == Some(Stamp(now, current.value.position, current.value.spread))
  {
  }

  /** Every contact moved by the same displacement `d`: a single move event
      whose position change is `d` and whose spread is unchanged. */
  lemma ShiftedMove(previous: TouchSample, ts: seq<TouchPoint>, d: Vec2, hypot: Hypot, now: real)
    requires |ts| >= 1 && Unstamped(Some(previous)) == SampleOf(ts, hypot)
    ensures var r := Step(Some(previous), SampleOf(Shifted(ts, d), hypot), now);
      && r.events == [Move(BucketOf(|ts|), r.events[0].detail)]
      && r.events[0].detail.positionChange == d
      && r.events[0].detail.spreadChange == (if |ts| >= 2 then Some(0.0) else None)
  {
    CentroidShifted(ts, d);
    SpreadShifted(ts, d, hypot);
  }

  // ----- Properties of a series of raw events -----

  /** Follows a stream of events from the gesture `open` (None: none in
      progress): a start only when none is open, a move or end only for the
      open bucket. Gives the gesture open at the end, or None if the stream
      breaks the protocol. */
  function Track(open: Option<Bucket>, events: seq<GestureEvent>): Option<Option<Bucket>>
    decreases |events|
  {
    if events == [] then Some(open)
    else
      match events[0]
      case Start(b, _) => if open.None? then Track(Some(b), events[1..]) else None
      case Move(b, _) => if open == Some(b) then Track(open, events[1..]) else None
      case End(b, _) => if open == Some(b) then Track(None, events[1..]) else None
  }

  lemma {:induction false} TrackAppend(open: Option<Bucket>, a: seq<GestureEvent>, b: seq<GestureEvent>)
    requires Track(open, a).Some?
    ensures Track(open, a + b) == Track(Track(open, a).value, b)
    decreases |a|
  {
    if a == [] {
      assert a + b == b;
    } else {
      assert (a + b)[0] == a[0] && (a + b)[1..] == a[1..] + b;
      match a[0]
      case Start(bk, _) => TrackAppend(Some(bk), a[1..], b);
      case Move(bk, _) => TrackAppend(open, a[1..], b);
      case End(bk, _) => TrackAppend(None, a[1..], b);
    }
  }

  /** One step keeps the protocol, and the gesture open afterwards is the bucket of the stored sample. */
  lemma StepTracks(previous: Option<TouchSample>, current: Option<TouchSample>, now: real)
    requires WellFormed(previous) && WellFormed(current)
    ensures Track(OpenBucket(previous), Step(previous, current, now).events) == Some(OpenBucket(Step(previous, current, now).next))
  {
    var r := Step(previous, current, now);
    if previous.Some? && current.Some? && current.value.touchCount == previous.value.touchCount {
      assert r.events[1..] == [];
    } else if previous.Some? && current.Some? {
      var e, st := r.events[0], r.events[1];
      assert e == End(BucketOf(previous.value.touchCount), previous.value);
      assert st.Start? && st.bucket == BucketOf(current.value.touchCount);
      assert r.events[1..] == [st] && [st][1..] == [];
      assert Track(None, [st]) == Track(Some(st.bucket), []);
    } else if previous.Some? || current.Some? {
      assert r.events[1..] == [];
    }
  }

  /** Over any series of raw events the detector emits a well-bracketed
      stream: every move and end belongs to the gesture in progress, every
      start comes when none is, and the gesture in progress at the end is the
      one whose sample is stored. */
  lemma {:induction false} RunTracks(previous: Option<TouchSample>, raws: seq<RawTouchEvent>, hypot: Hypot)
    requires WellFormed(previous)
    ensures Track(OpenBucket(previous), Run(previous, raws, hypot).events) == Some(OpenBucket(Run(previous, raws, hypot).next))
    decreases |raws|
  {
    if raws != [] {
      var first := Step(previous, SampleOf(raws[0].touches, hypot), raws[0].time);
      StepTracks(previous, SampleOf(raws[0].touches, hypot), raws[0].time);
      RunTracks(first.next, raws[1..], hypot);
      TrackAppend(OpenBucket(previous), first.events, Run(first.next, raws[1..], hypot).events);
    }
  }

  /** Two raw events in a row are two steps in a row. */
  lemma RunTwo(previous: Option<TouchSample>, x: RawTouchEvent, y: RawTouchEvent, hypot: Hypot)
    requires WellFormed(previous)
    ensures var first := Step(previous, SampleOf(x.touches, hypot), x.time);
      var second := Step(first.next, SampleOf(y.touches, hypot), y.time);
      Run(previous, [x, y], hypot) == StepResult(first.events + second.events, second.next)
  {
    var first := Step(previous, SampleOf(x.touches, hypot), x.time);
    var second := Step(first.next, SampleOf(y.touches, hypot), y.time);
    assert [x, y][0] == x && [x, y][1..] == [y];
    assert [y][0] == y && [y][1..] == [];
    assert Run(second.next, [], hypot) == StepResult([], second.next);
    assert Run(first.next, [y], hypot) == StepResult(second.events + [], second.next);
    assert second.events + [] == second.events;
  }

  /** After a series of raw events the stored sample is absent exactly when
      the last event had no contacts, and otherwise has its touch count. */
  lemma {:induction false} RunStoresLast(previous: Option<TouchSample>, raws: seq<RawTouchEvent>, hypot: Hypot)
    requires WellFormed(previous) && raws != []
    ensures var last := raws[|raws| - 1].touches;
      && Unstamped(Run(previous, raws, hypot).next) == Unstamped(SampleOf(last, hypot))
      && (Run(previous, raws, hypot).next.None? <==> |last| == 0)
    decreases |raws|
  {
    var first := Step(previous, SampleOf(raws[0].touches, hypot), raws[0].time);
    if |raws| == 1 {
      StepStoresCurrent(previous, SampleOf(raws[0].touches, hypot), raws[0].time);
    } else {
      RunStoresLast(first.next, raws[1..], hypot);
      assert raws[1..][|raws[1..]| - 1] == raws[|raws| - 1];
    }
  }

  /** Start fields are not carried forward: a move event's start spread is
      always absent, because the sample it is read from is freshly computed. */
  lemma {:induction false} MovesHaveNoStartSpread(previous: Option<TouchSample>, raws: seq<RawTouchEvent>, hypot: Hypot)
    requires WellFormed(previous)
    ensures forall e :: e in Run(previous, raws, hypot).events && e.Move? ==> e.detail.startSpread == None
    decreases |raws|
  {
    if raws != [] {
      var first := Step(previous, SampleOf(raws[0].touches, hypot), raws[0].time);
      MovesHaveNoStartSpread(first.next, raws[1..], hypot);
    }
  }

  /** The sum of the position changes of the move events of bucket `b`. */
  function PanTotal(events: seq<GestureEvent>, b: Bucket): Vec2
    decreases |events|
  {
    if events == [] then Vec2(0.0, 0.0)
    else
      var rest := PanTotal(events[1..], b);
      if events[0].Move? && events[0].bucket == b then Plus(events[0].detail.positionChange, rest) else rest
  }

  /** A drag that keeps the same contacts is all moves, and its position
      changes add up to the centroid's whole displacement. */
  lemma {:induction false} DragTelescopes(previous: TouchSample, raws: seq<RawTouchEvent>, hypot: Hypot)
    requires previous.touchCount >= 1
    requires forall i :: 0 <= i < |raws| ==> |raws[i].touches| == previous.touchCount
    ensures var r := Run(Some(previous), raws, hypot);
      && r.next.Some? && r.next.value.touchCount == previous.touchCount
      && (forall e :: e in r.events ==> e.Move? && e.bucket == BucketOf(previous.touchCount))
      && PanTotal(r.events, BucketOf(previous.touchCount)) == Minus(r.next.value.position, previous.position)
    decreases |raws|
  {
    if raws != [] {
      var current := SampleOf(raws[0].touches, hypot).value;
      var first := Step(Some(previous), Some(current), raws[0].time);
      assert first.events == [Move(BucketOf(previous.touchCount), MoveFrom(previous, current))];
      DragTelescopes(current, raws[1..], hypot);
      var r := Run(Some(previous), raws, hypot);
      assert r.events[1..] == Run(Some(current), raws[1..], hypot).events;
    }
  }
}
