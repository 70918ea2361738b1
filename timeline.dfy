/** Timeline finalisation (`processHitObjects` in popup/canvas.js): every hit
    object gets its derived `duration`, `endTime` and `endPos`, by kind. */
module Timeline {
  import opened Wrappers

  datatype Pos = Pos(x: real, y: real)

  /** The centre of the 512 x 384 playfield, where spinners and holds end. */
  const PlayfieldCenter: Pos := Pos(512.0 / 2.0, 384.0 / 2.0)

  /** The kind of a hit object with the payload that kind carries. */
  datatype ObjectData =
    | CircleData(pos: Pos)
    | SliderData(distance: real, repetitions: real)
    | SpinnerData(endTime: real)
    | HoldData(endTime: real)

  /** A hit object. The derived fields are `None` (undefined) until the object
      has been finalised. */
  datatype HitObject = HitObject(
    time: real,
    data: ObjectData,
    duration: Option<real>,
    endTime: Option<real>,
    endPos: Option<Pos>)

  datatype TimingPoint = TimingPoint(time: real, msPerBeat: real)

  /** k is the lowest index of a timing point starting at or before t. */
  ghost predicate IsFirstAtOrBefore(tps: seq<TimingPoint>, t: real, k: int) {
    0 <= k < |tps| && tps[k].time <= t && forall j :: 0 <= j < k ==> tps[j].time > t
  }

  /** `timingPoints.find(e => e.time <= t)`, as an index; None where `find`
      gives undefined. */
  function FindTimingPoint(tps: seq<TimingPoint>, t: real): (r: Option<nat>)
    ensures r.Some? ==> IsFirstAtOrBefore(tps, t, r.value)
    ensures r.None? ==> forall j :: 0 <= j < |tps| ==> tps[j].time > t
  {
    if |tps| == 0 then None
    else if tps[0].time <= t then Some(0)
    else match FindTimingPoint(tps[1..], t)
      case None => None
      case Some(k) => Some(k + 1)
  }

  /** A slider's length in time: its distance over a hundred times the scroll
      velocity, in beats, times the beat length. */
  function SliderDuration(distance: real, sv: real, beatDuration: real): real
    requires sv != 0.0
  {
    distance / (100.0 * sv) * beatDuration
  }

  /** A slider ends after its duration, once per repetition. */
  function SliderEndTime(start: real, duration: real, repetitions: real): real {
    start + duration * repetitions
  }

  /** The derived fields of one object, or None when a slider has no timing
      point to take its beat length from (the source throws there). */
  function Finalize(o: HitObject, tps: seq<TimingPoint>, sv: real): Option<HitObject>
    requires sv != 0.0
  {
    if o.data.SliderData? then
      match FindTimingPoint(tps, o.time)
      case None => None
      case Some(k) =>
        var duration := SliderDuration(o.data.distance, sv, tps[k].msPerBeat);
        Some(o.(duration := Some(duration),
                endTime := Some(SliderEndTime(o.time, duration, o.data.repetitions))))
    else if o.data.SpinnerData? || o.data.HoldData? then
      Some(o.(endTime := Some(o.data.endTime), endPos := Some(PlayfieldCenter)))
    else
      Some(o.(endTime := Some(o.time), endPos := Some(o.data.pos)))
  }

  /** Finalises the objects in order; fails with the index of the first object
      that cannot be finalised. */
  function FinalizeAll(s: seq<HitObject>, tps: seq<TimingPoint>, sv: real)
    : Result<seq<HitObject>, nat>
    requires sv != 0.0
  {
    if |s| == 0 then Success([])
    else match Finalize(s[0], tps, sv)
      case None => Failure(0)
      case Some(h) =>
        match FinalizeAll(s[1..], tps, sv)
        case Failure(i) => Failure(i + 1)
        case Success(rest) => Success([h] + rest)
  }

  /** The timing point used is the lowest-index one at or before the slider, and
      the slider's span follows from its distance, the scroll velocity, that
      point's beat length and the repetitions. Without such a point it fails. */
  lemma SliderTiming(o: HitObject, tps: seq<TimingPoint>, sv: real)
    requires sv != 0.0 && o.data.SliderData?
    ensures Finalize(o, tps, sv).None? <==> forall j :: 0 <= j < |tps| ==> tps[j].time > o.time
    ensures forall k :: IsFirstAtOrBefore(tps, o.time, k) ==>
      var duration := SliderDuration(o.data.distance, sv, tps[k].msPerBeat);
      Finalize(o, tps, sv)
        == Some(o.(duration := Some(duration),
                   endTime := Some(SliderEndTime(o.time, duration, o.data.repetitions))))
  {
    forall k | IsFirstAtOrBefore(tps, o.time, k)
      ensures var duration := SliderDuration(o.data.distance, sv, tps[k].msPerBeat);
        Finalize(o, tps, sv)
          == Some(o.(duration := Some(duration),
                     endTime := Some(SliderEndTime(o.time, duration, o.data.repetitions))))
    {
      var r := FindTimingPoint(tps, o.time);
      assert r.Some? by { assert tps[k].time <= o.time; }
      assert r == Some(k);
    }
  }

  /** Spinners and holds end at their own end time, at the playfield centre. */
  lemma SpinnerHoldTiming(o: HitObject, tps: seq<TimingPoint>, sv: real)
    requires sv != 0.0 && (o.data.SpinnerData? || o.data.HoldData?)
    ensures Finalize(o, tps, sv).Some?
    ensures Finalize(o, tps, sv).value.endTime == Some(o.data.endTime)
    ensures Finalize(o, tps, sv).value.endPos == Some(Pos(256.0, 192.0))
  {
  }

  /** Circles end where and when they start. */
  lemma CircleTiming(o: HitObject, tps: seq<TimingPoint>, sv: real)
    requires sv != 0.0 && o.data.CircleData?
    ensures Finalize(o, tps, sv) == Some(o.(endTime := Some(o.time), endPos := Some(o.data.pos)))
  {
  }

  /** Finalising writes only derived fields: the start time and the payload are
      kept, the end time is always set, a slider keeps its end position and
      the other kinds keep their duration. */
  lemma FinalizeTouchesOnlyDerived(o: HitObject, tps: seq<TimingPoint>, sv: real)
    requires sv != 0.0 && Finalize(o, tps, sv).Some?
    ensures var r := Finalize(o, tps, sv).value;
      && r.time == o.time && r.data == o.data && r.endTime.Some?
      && (o.data.SliderData? ==> r.endPos == o.endPos && r.duration.Some?)
      && (!o.data.SliderData? ==> r.duration == o.duration && r.endPos.Some?)
  {
  }

  /** Objects of well-formed beatmaps end no earlier than they start. */
  lemma EndTimeNotBeforeStart(o: HitObject, tps: seq<TimingPoint>, sv: real)
    requires sv > 0.0
    requires forall j :: 0 <= j < |tps| ==> tps[j].msPerBeat > 0.0
    requires o.data.SliderData? ==> o.data.distance >= 0.0 && o.data.repetitions >= 0.0
    requires (o.data.SpinnerData? || o.data.HoldData?) ==> o.data.endTime >= o.time
    requires Finalize(o, tps, sv).Some?
    ensures Finalize(o, tps, sv).value.endTime.value >= o.time
  {
    if o.data.SliderData? {
      var k := FindTimingPoint(tps, o.time).value;
      var perHundred := o.data.distance / (100.0 * sv);
      assert perHundred >= 0.0;
      var duration := SliderDuration(o.data.distance, sv, tps[k].msPerBeat);
      assert duration == perHundred * tps[k].msPerBeat;
      assert duration >= 0.0;
      assert duration * o.data.repetitions >= 0.0;
    }
  }

  /** With timing points in ascending order, the first match is the first
      timing point or nothing: a later tempo segment is never chosen. */
  lemma SortedLookupIsFirstPoint(tps: seq<TimingPoint>, t: real)
    requires forall i, j :: 0 <= i < j < |tps| ==> tps[i].time <= tps[j].time
    ensures FindTimingPoint(tps, t)
         == if |tps| > 0 && tps[0].time <= t then Some(0) else None
  {
  }

  /** Two timing points at 0 ms and 500 ms: a slider at 1000 ms takes its beat
      length from the one at 0 ms, not from the nearer one at 500 ms. */
  lemma FirstMatchNotNearest()
    ensures FindTimingPoint([TimingPoint(0.0, 300.0), TimingPoint(500.0, 600.0)], 1000.0)
         == Some(0)
  {
  }

  /** FinalizeAll succeeds exactly when every object can be finalised; it then
      keeps length and order and finalises each object on its own; otherwise
      it names the first object that cannot be finalised. */
  lemma {:induction false} FinalizeAllAt(s: seq<HitObject>, tps: seq<TimingPoint>, sv: real)
    requires sv != 0.0
    ensures FinalizeAll(s, tps, sv).Success?
        <==> forall j :: 0 <= j < |s| ==> Finalize(s[j], tps, sv).Some?
    ensures FinalizeAll(s, tps, sv).Success? ==>
      var r := FinalizeAll(s, tps, sv).value;
      |r| == |s| && forall j :: 0 <= j < |s| ==> Finalize(s[j], tps, sv) == Some(r[j])
    ensures FinalizeAll(s, tps, sv).Failure? ==>
      var i := FinalizeAll(s, tps, sv).error;
      i < |s| && Finalize(s[i], tps, sv).None?
      && forall j :: 0 <= j < i ==> Finalize(s[j], tps, sv).Some?
    decreases |s|
  {
    if |s| > 0 {
      FinalizeAllAt(s[1..], tps, sv);
      assert forall j :: 1 <= j < |s| ==> s[j] == s[1..][j - 1];
    }
  }

  /** `processHitObjects`: finalises the array in place, index by index. When a
      slider has no timing point it stops there (the source throws), leaving
      the objects before it finalised and the rest untouched. */
  method ProcessHitObjects(objects: array<HitObject>, tps: seq<TimingPoint>, sv: real)
    returns (failedAt: Option<nat>)
    requires sv != 0.0
    modifies objects
    ensures match FinalizeAll(old(objects[..]), tps, sv)
      case Success(r) => failedAt == None && objects[..] == r
      case Failure(i) =>
        && i < objects.Length
        && failedAt == Some(i)
        && (forall j :: 0 <= j < i ==> Some(objects[j]) == Finalize(old(objects[j]), tps, sv))
        && (forall j :: i <= j < objects.Length ==> objects[j] == old(objects[j]))
  {
    FinalizeAllAt(objects[..], tps, sv);
    var i := 0;
    while i < objects.Length
      invariant 0 <= i <= objects.Length
      invariant forall j :: 0 <= j < i ==> Some(objects[j]) == Finalize(old(objects[j]), tps, sv)
      invariant forall j :: i <= j < objects.Length ==> objects[j] == old(objects[j])
    {
      var current := objects[i];
      assert current == old(objects[i]);
      if current.data.SliderData? {
        var found := FindTimingPoint(tps, current.time);
        if found.None? {
          return Some(i);
        }
        var beatDuration := tps[found.value].msPerBeat;
        var duration := SliderDuration(current.data.distance, sv, beatDuration);
        var repetitions := current.data.repetitions;
        objects[i] := current.(duration := Some(duration),
                              endTime := Some(SliderEndTime(current.time, duration, repetitions)));
      } else if current.data.SpinnerData? || current.data.HoldData? {
        objects[i] := current.(endTime := Some(current.data.endTime), endPos := Some(PlayfieldCenter));
      } else {
        objects[i] := current.(endTime := Some(current.time), endPos := Some(current.data.pos));
      }
      assert Some(objects[i]) == Finalize(current, tps, sv);
      i := i + 1;
    }
    return None;
  }
}
