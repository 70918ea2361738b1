/** A preview session (`playPreview` in popup/canvas.js): start-up, and the
    closure state with its five handlers as a class. */
module Preview {
  import opened Wrappers
  import opened Timeline
  import opened Playback

  /** The drawing strategy chosen by the beatmap mode. */
  datatype RendererKind = OsuRenderer | ManiaRenderer

  /** Why a preview cannot start; each is an exception escaping `playPreview`. */
  datatype StartError =
    | UnsupportedMode(mode: int)
    | NoApplicableTimingPoint(index: nat)
    | NoHitObjects

  /** `[OsuRenderer, null, null, ManiaRenderer][mode]`; None where the source
      gets null or undefined and `new` throws. */
  function RendererFor(mode: int): (r: Option<RendererKind>)
    ensures r.Some? <==> mode == 0 || mode == 3
    ensures mode == 0 ==> r == Some(OsuRenderer)
    ensures mode == 3 ==> r == Some(ManiaRenderer)
  {
    var table := [Some(OsuRenderer), None, None, Some(ManiaRenderer)];
    if 0 <= mode < |table| then table[mode] else None
  }

  /** `hitObjects[hitObjects.length - 1].endTime`; None for an empty map (the
      source reads a field of undefined and throws) or an unfinalised last
      object (the source gets undefined). */
  function LastTime(objects: seq<HitObject>): Option<real> {
    if |objects| == 0 then None else objects[|objects| - 1].endTime
  }

  /** What a successful start-up leaves behind. */
  datatype Startup = Startup(
    renderer: RendererKind,
    objects: seq<HitObject>,
    lastTime: real,
    state: ClockState,
    commands: seq<AudioCommand>)

  /** The start-up steps in the source's order: pick the renderer, finalise the
      objects, read the last object's end time, resolve the start time, and
      position and start the audio. */
  function Start(mode: int, objects: seq<HitObject>, tps: seq<TimingPoint>, sv: real,
                 previewTime: real, now: real): Result<Startup, StartError>
    requires sv != 0.0
  {
    match RendererFor(mode)
    case None => Failure(UnsupportedMode(mode))
    case Some(renderer) =>
      match FinalizeAll(objects, tps, sv)
      case Failure(i) => Failure(NoApplicableTimingPoint(i))
      case Success(done) =>
        match LastTime(done)
        case None => Failure(NoHitObjects)
        case Some(lastTime) =>
          var state := InitialState(previewTime, lastTime, now);
          Success(Startup(renderer, done, lastTime, state,
                          [SeekTo(state.mapStartTime / 1000.0), Play]))
  }

  /** Start-up fails for an unsupported mode first, then for the first slider
      without a timing point, then for an empty map, and succeeds otherwise.
      On success the map length
      is the end time of the LAST object, the session plays from the preview
      time or, when that is negative, from 42% of the map length, neither flag
      is set, and the audio is sent there and started. */
  lemma StartOutcome(mode: int, objects: seq<HitObject>, tps: seq<TimingPoint>, sv: real,
                     previewTime: real, now: real)
    requires sv != 0.0
    ensures var r := Start(mode, objects, tps, sv, previewTime, now);
      && (r == Failure(UnsupportedMode(mode)) <==> mode != 0 && mode != 3)
      && ((mode == 0 || mode == 3) ==>
            forall i: nat :: r == Failure(NoApplicableTimingPoint(i))
                    <==> FinalizeAll(objects, tps, sv) == Failure(i))
      && (r == Failure(NoHitObjects) <==> (mode == 0 || mode == 3)
                                          && FinalizeAll(objects, tps, sv).Success?
                                          && |objects| == 0)
      && (r.Success? <==> (mode == 0 || mode == 3)
                          && FinalizeAll(objects, tps, sv).Success?
                          && |objects| > 0)
      && (r.Success? ==>
            var s := r.value;
            && s.renderer == RendererFor(mode).value
            && s.objects == FinalizeAll(objects, tps, sv).value
            && |s.objects| == |objects|
            && (forall j :: 0 <= j < |objects| ==> Finalize(objects[j], tps, sv) == Some(s.objects[j]))
            && s.objects[|s.objects| - 1].endTime == Some(s.lastTime)
            && s.state.mapStartTime
               == (if previewTime < 0.0 then 0.42 * s.lastTime else previewTime)
            && s.state.startTime == now
            && !s.state.seeking && !s.state.waitingForSeek
            && s.commands == [SeekTo(s.state.mapStartTime / 1000.0), Play])
  {
    FinalizeAllAt(objects, tps, sv);
    var r := FinalizeAll(objects, tps, sv);
    if r.Success? && |objects| > 0 {
      var last := |objects| - 1;
      FinalizeTouchesOnlyDerived(objects[last], tps, sv);
      assert r.value[last] == Finalize(objects[last], tps, sv).value;
    }
  }

  /** Two circles at 0 ms and 1000 ms and no preview time: the map lasts one
      second and playback starts at 420 ms. */
  lemma DefaultStartScenario(tps: seq<TimingPoint>, now: real)
    ensures var circle := CircleData(Pos(0.0, 0.0));
      var objects := [HitObject(0.0, circle, None, None, None),
                      HitObject(1000.0, circle, None, None, None)];
      var r := Start(0, objects, tps, 1.0, -1.0, now);
      r.Success? && r.value.lastTime == 1000.0 && r.value.state.mapStartTime == 420.0
  {
    var circle := CircleData(Pos(0.0, 0.0));
    var objects := [HitObject(0.0, circle, None, None, None),
                    HitObject(1000.0, circle, None, None, None)];
    FinalizeAllAt(objects, tps, 1.0);
    var done := FinalizeAll(objects, tps, 1.0).value;
    assert done[1] == Finalize(objects[1], tps, 1.0).value;
  }

  /** The map length is the last object's end time, not the latest end time:
      a long spinner followed by a circle gives the circle's time. */
  lemma LastTimeIsNotLatestEnd(tps: seq<TimingPoint>, now: real)
    ensures var objects := [HitObject(0.0, SpinnerData(5000.0), None, None, None),
                            HitObject(1000.0, CircleData(Pos(0.0, 0.0)), None, None, None)];
      var r := Start(3, objects, tps, 1.0, 0.0, now);
      r.Success? && r.value.lastTime == 1000.0
      && r.value.objects[0].endTime == Some(5000.0)
  {
    var objects := [HitObject(0.0, SpinnerData(5000.0), None, None, None),
                    HitObject(1000.0, CircleData(Pos(0.0, 0.0)), None, None, None)];
    FinalizeAllAt(objects, tps, 1.0);
    var done := FinalizeAll(objects, tps, 1.0).value;
    assert done[0] == Finalize(objects[0], tps, 1.0).value;
    assert done[1] == Finalize(objects[1], tps, 1.0).value;
  }

  /** The state of one running preview. */
  class PreviewSession {
    const renderer: RendererKind
    const lastTime: real
    var mapStartTime: real
    var startTime: real
    var seeking: bool
    var waitingForSeek: bool

    function State(): ClockState
      reads this
    {
      ClockState(mapStartTime, startTime, seeking, waitingForSeek)
    }

    /** The closure variables as `playPreview` sets them up. */
    constructor (renderer: RendererKind, previewTime: real, lastTime: real, now: real)
      ensures this.renderer == renderer && this.lastTime == lastTime
      ensures State() == InitialState(previewTime, lastTime, now)
    {
      this.renderer := renderer;
      this.lastTime := lastTime;
      var start := previewTime;
      if start < 0.0 {
        start := lastTime * DefaultStartFraction;
      }
      mapStartTime := start;
      startTime := now;
      seeking := false;
      waitingForSeek := false;
    }

    /** `animate`: drift correction against the frame timestamp, then the
        frame shown at the fresh clock reading `now`. */
    method Animate(frameTime: real, now: real, audioSeconds: real, audioPaused: bool)
      returns (frame: Frame)
      modifies this
      ensures State() == Resync(old(State()), frameTime, audioSeconds, audioPaused)
      ensures frame == RenderFrame(State(), now, lastTime)
    {
      if !seeking && !waitingForSeek && !audioPaused {
        var audioTime := audioSeconds * 1000.0;
        var expectedTime := frameTime - startTime + mapStartTime;
        if Abs(audioTime - expectedTime) > DriftTolerance {
          mapStartTime := audioTime;
          startTime := frameTime;
        }
      }
      var time := if seeking then mapStartTime else now - startTime + mapStartTime;
      frame := Frame(time, Readout(time, lastTime), Progress(time, lastTime));
    }

    /** `onSeeked`. */
    method Seeked(audioSeconds: real, now: real) returns (commands: seq<AudioCommand>)
      modifies this
      ensures Reaction(State(), commands) == OnSeeked(old(State()), audioSeconds, now)
    {
      commands := [];
      if waitingForSeek {
        mapStartTime := audioSeconds * 1000.0;
        startTime := now;
        waitingForSeek := false;
        commands := [Play];
      }
    }

    /** The `pointerdown` listener; `left` and `width` are the progress bar's
        bounding rectangle. */
    method PointerDown(clientX: real, left: real, width: real, now: real)
      returns (commands: seq<AudioCommand>)
      requires width > 0.0
      modifies this
      ensures Reaction(State(), commands)
           == OnPointerDown(old(State()), clientX, left, width, lastTime, now)
    {
      commands := [Pause];
      seeking := true;
      var x := Max(0.0, clientX - left);
      var time := (x / width) * lastTime;
      startTime := now;
      mapStartTime := time;
    }

    /** The `pointermove` listener. */
    method PointerMove(clientX: real, left: real, width: real, now: real)
      requires width > 0.0
      modifies this
      ensures State() == OnPointerMove(old(State()), clientX, left, width, lastTime, now)
    {
      if !seeking {
        return;
      }
      var x := Max(0.0, clientX - left);
      var time := (x / width) * lastTime;
      startTime := now;
      mapStartTime := time;
    }

    /** The `pointerup` listener. */
    method PointerUp() returns (commands: seq<AudioCommand>)
      modifies this
      ensures Reaction(State(), commands) == OnPointerUp(old(State()))
    {
      commands := [];
      if seeking {
        seeking := false;
        waitingForSeek := true;
        commands := [SeekTo(mapStartTime / 1000.0)];
      }
    }
  }

  /** `playPreview` up to the first frame: the session, or the error that
      escapes, plus the audio commands issued. The objects are finalised in
      place; a missing timing point leaves them partly finalised. */
  method PlayPreview(mode: int, objects: array<HitObject>, tps: seq<TimingPoint>, sv: real,
                     previewTime: real, now: real)
    returns (r: Result<PreviewSession, StartError>, commands: seq<AudioCommand>)
    requires sv != 0.0
    modifies objects
    ensures match Start(mode, old(objects[..]), tps, sv, previewTime, now)
      case Failure(e) => r == Failure(e) && commands == []
      case Success(s) =>
        && r.Success? && fresh(r.value)
        && r.value.renderer == s.renderer && r.value.lastTime == s.lastTime
        && r.value.State() == s.state
        && objects[..] == s.objects
        && commands == s.commands
    ensures RendererFor(mode).None? ==> objects[..] == old(objects[..])
    ensures forall i: nat :: r == Failure(NoApplicableTimingPoint(i)) ==>
      && i < objects.Length
      && (forall j :: 0 <= j < i ==> Some(objects[j]) == Finalize(old(objects[j]), tps, sv))
      && (forall j :: i <= j < objects.Length ==> objects[j] == old(objects[j]))
  {
    commands := [];
    var renderer := RendererFor(mode);
    if renderer.None? {
      return Failure(UnsupportedMode(mode)), [];
    }
    ghost var original := objects[..];
    FinalizeAllAt(original, tps, sv);
    var failedAt := ProcessHitObjects(objects, tps, sv);
    if failedAt.Some? {
      return Failure(NoApplicableTimingPoint(failedAt.value)), [];
    }
    if objects.Length == 0 {
      return Failure(NoHitObjects), [];
    }
    var lastObject := objects[objects.Length - 1];
    FinalizeTouchesOnlyDerived(original[objects.Length - 1], tps, sv);
    var lastTime := lastObject.endTime.value;
    var session := new PreviewSession(renderer.value, previewTime, lastTime, now);
    commands := [SeekTo(session.mapStartTime / 1000.0), Play];
    r := Success(session);
  }
}
