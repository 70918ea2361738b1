/** The playback clock and the seek state machine of `playPreview` in
    popup/canvas.js, as pure transition functions over the closure state. The
    class in module Preview holds the same state in fields and is specified by
    these functions. */
module Playback {
  import opened Wrappers
  import opened TimeFormat

  /** What the handlers ask of the audio element. */
  datatype AudioCommand = Pause | SeekTo(seconds: real) | Play

  /** The mutable closure state: the map time `mapStartTime` that corresponds
      to the wall-clock reading `startTime`, and the two independent flags. */
  datatype ClockState = ClockState(
    mapStartTime: real,
    startTime: real,
    seeking: bool,
    waitingForSeek: bool)

  /** A handler's new state and the audio commands it issued, in order. */
  datatype Reaction = Reaction(next: ClockState, commands: seq<AudioCommand>)

  /** What one animation frame shows: the time handed to the renderer, the
      text readout and the progress fraction (None where JavaScript divides
      by a zero `lastTime` and gets NaN or Infinity). */
  datatype Frame = Frame(time: real, readout: string, progress: Option<real>)

  /** Audio and clock may disagree by this many milliseconds before a resync. */
  const DriftTolerance: real := 100.0

  /** Fraction of the map where playback starts when no preview time is given. */
  const DefaultStartFraction: real := 0.42

  function Abs(x: real): real {
    if x < 0.0 then -x else x
  }

  function Min(a: real, b: real): real {
    if a < b then a else b
  }

  function Max(a: real, b: real): real {
    if a > b then a else b
  }

  /** State at start-up: a negative preview time means "start at 42% of the
      map"; the clock is anchored at `now`; neither flag is set. */
  function InitialState(previewTime: real, lastTime: real, now: real): ClockState {
    var mapStartTime := if previewTime < 0.0 then lastTime * DefaultStartFraction else previewTime;
    ClockState(mapStartTime, now, false, false)
  }

  /** Map time at wall-clock reading t, from the anchor pair. */
  function MapTime(c: ClockState, t: real): real {
    t - c.startTime + c.mapStartTime
  }

  /** Drift correction runs only while playing: no drag, no pending seek, and
      the audio not paused. */
  predicate SyncEnabled(c: ClockState, audioPaused: bool) {
    !c.seeking && !c.waitingForSeek && !audioPaused
  }

  /** The drift correction at the top of `animate`, against the frame
      timestamp. */
  function Resync(c: ClockState, frameTime: real, audioSeconds: real, audioPaused: bool): ClockState {
    if SyncEnabled(c, audioPaused) then
      var audioTime := audioSeconds * 1000.0;
      var expectedTime := MapTime(c, frameTime);
      if Abs(audioTime - expectedTime) > DriftTolerance
      then c.(mapStartTime := audioTime, startTime := frameTime)
      else c
    else c
  }

  /** Time shown: frozen at the anchor while dragging, else the map time at
      `now`. */
  function DisplayTime(c: ClockState, now: real): real {
    if c.seeking then c.mapStartTime else MapTime(c, now)
  }

  /** The text readout, "elapsed / total", with elapsed capped at the total. */
  function Readout(time: real, lastTime: real): string {
    ToTimeString(Min(time, lastTime)) + " / " + ToTimeString(lastTime)
  }

  /** The progress fraction, not clamped. */
  function Progress(time: real, lastTime: real): Option<real> {
    if lastTime == 0.0 then None else Some(time / lastTime)
  }

  function RenderFrame(c: ClockState, now: real, lastTime: real): Frame {
    var time := DisplayTime(c, now);
    Frame(time, Readout(time, lastTime), Progress(time, lastTime))
  }

  /** The map time under the pointer: clamped at the bar's left edge only. */
  function DragTime(clientX: real, left: real, width: real, lastTime: real): real
    requires width > 0.0
  {
    var x := Max(0.0, clientX - left);
    (x / width) * lastTime
  }

  /** `pointerdown`: pause, start dragging, anchor at the pointer's time. */
  function OnPointerDown(c: ClockState, clientX: real, left: real, width: real,
                         lastTime: real, now: real): Reaction
    requires width > 0.0
  {
    Reaction(c.(seeking := true, startTime := now,
                mapStartTime := DragTime(clientX, left, width, lastTime)),
             [Pause])
  }

  /** `pointermove`: follow the pointer while dragging, otherwise nothing. */
  function OnPointerMove(c: ClockState, clientX: real, left: real, width: real,
                         lastTime: real, now: real): ClockState
    requires width > 0.0
  {
    if !c.seeking then c
    else c.(startTime := now, mapStartTime := DragTime(clientX, left, width, lastTime))
  }

  /** `pointerup`: end the drag, wait for the seek, ask the audio to seek. */
  function OnPointerUp(c: ClockState): Reaction {
    if c.seeking
    then Reaction(c.(seeking := false, waitingForSeek := true), [SeekTo(c.mapStartTime / 1000.0)])
    else Reaction(c, [])
  }

  /** `onSeeked`: re-anchor at the audio's actual position and resume. */
  function OnSeeked(c: ClockState, audioSeconds: real, now: real): Reaction {
    if c.waitingForSeek
    then Reaction(c.(mapStartTime := audioSeconds * 1000.0, startTime := now,
                     waitingForSeek := false),
                  [Play])
    else Reaction(c, [])
  }

  // ---------------------------------------------------------------------------
  // Drift correction

  /** The anchor moves exactly when correction is enabled and the audio is
      more than 100 ms (strictly) from the expected time. */
  lemma ResyncChangesIff(c: ClockState, frameTime: real, audioSeconds: real, audioPaused: bool)
    ensures Resync(c, frameTime, audioSeconds, audioPaused) != c
        <==> SyncEnabled(c, audioPaused)
             && Abs(audioSeconds * 1000.0 - MapTime(c, frameTime)) > DriftTolerance
  {
  }

  /** A correction anchors the map time at the frame timestamp to the audio
      position; neither flag is touched. */
  lemma ResyncReanchors(c: ClockState, frameTime: real, audioSeconds: real, audioPaused: bool)
    requires SyncEnabled(c, audioPaused)
    requires Abs(audioSeconds * 1000.0 - MapTime(c, frameTime)) > DriftTolerance
    ensures var r := Resync(c, frameTime, audioSeconds, audioPaused);
      r.startTime == frameTime && MapTime(r, frameTime) == audioSeconds * 1000.0
      && r.seeking == c.seeking && r.waitingForSeek == c.waitingForSeek
  {
  }

  /** A drift of exactly 100 ms is tolerated. */
  lemma ResyncBoundaryTolerated(c: ClockState, frameTime: real, audioSeconds: real, audioPaused: bool)
    requires Abs(audioSeconds * 1000.0 - MapTime(c, frameTime)) == DriftTolerance
    ensures Resync(c, frameTime, audioSeconds, audioPaused) == c
  {
  }

  /** After a frame in which correction ran, clock and audio agree within the
      tolerance at that frame's timestamp. */
  lemma ResyncBoundsDrift(c: ClockState, frameTime: real, audioSeconds: real, audioPaused: bool)
    requires SyncEnabled(c, audioPaused)
    ensures Abs(audioSeconds * 1000.0 - MapTime(Resync(c, frameTime, audioSeconds, audioPaused), frameTime))
         <= DriftTolerance
  {
  }

  /** Correcting twice against the same reading is correcting once. */
  lemma ResyncIdempotent(c: ClockState, frameTime: real, audioSeconds: real, audioPaused: bool)
    ensures var r := Resync(c, frameTime, audioSeconds, audioPaused);
      Resync(r, frameTime, audioSeconds, audioPaused) == r
  {
  }

  // ---------------------------------------------------------------------------
  // Display

  /** The shown time ignores the wall clock exactly while dragging. After the
      drag it runs on from the last pointerdown/pointermove anchor (see
      ReleaseRunsFromLastAnchor). */
  lemma DisplayFrozenIffSeeking(c: ClockState)
    ensures c.seeking <==> forall now :: DisplayTime(c, now) == c.mapStartTime
  {
    if !c.seeking {
      assert DisplayTime(c, c.startTime + 1.0) == c.mapStartTime + 1.0;
    }
  }

  /** Out of a drag, the shown time advances exactly as the wall clock does. */
  lemma DisplayTracksClock(c: ClockState, t1: real, t2: real)
    requires !c.seeking
    ensures DisplayTime(c, t2) - DisplayTime(c, t1) == t2 - t1
  {
  }

  /** Past the end the readout shows the total twice. */
  lemma ReadoutCappedPastEnd(time: real, lastTime: real)
    requires lastTime <= time
    ensures Readout(time, lastTime) == ToTimeString(lastTime) + " / " + ToTimeString(lastTime)
  {
    assert Min(time, lastTime) == lastTime;
  }

  /** The progress fraction is not clamped: past the end it exceeds 1. */
  lemma ProgressUnclamped(time: real, lastTime: real)
    requires 0.0 < lastTime < time
    ensures Progress(time, lastTime).Some? && Progress(time, lastTime).value > 1.0
  {
    var f := time / lastTime;
    assert f * lastTime == time;
  }

  /** Three seconds into a two-second map: "0:02 / 0:02" with progress 1.5. */
  lemma PastEndExample()
    ensures RenderFrame(ClockState(0.0, 0.0, false, false), 3000.0, 2000.0)
         == Frame(3000.0, "0:02 / 0:02", Some(1.5))
  {
    ToTimeStringShape(2000.0);
    assert WholeSeconds(2000.0) == 2;
  }

  // ---------------------------------------------------------------------------
  // Dragging

  /** The dragged time is never negative, is zero left of the bar, and is
      proportional to the pointer offset on the bar. */
  lemma DragTimeRange(clientX: real, left: real, width: real, lastTime: real)
    requires width > 0.0 && lastTime >= 0.0
    ensures DragTime(clientX, left, width, lastTime) >= 0.0
    ensures clientX <= left ==> DragTime(clientX, left, width, lastTime) == 0.0
    ensures clientX >= left ==>
      DragTime(clientX, left, width, lastTime) == (clientX - left) / width * lastTime
  {
    var x := Max(0.0, clientX - left);
    assert x / width >= 0.0;
  }

  /** There is no clamp on the right: a pointer beyond the bar drags past the
      end of the map. */
  lemma DragTimeNoUpperClamp(clientX: real, left: real, width: real, lastTime: real)
    requires width > 0.0 && lastTime > 0.0 && clientX > left + width
    ensures DragTime(clientX, left, width, lastTime) > lastTime
  {
    var x := clientX - left;
    assert x / width > 1.0 by {
      assert x / width * width == x;
    }
    assert (x / width) * lastTime > lastTime by {
      assert (x / width - 1.0) * lastTime > 0.0;
    }
  }

  /** Further right is later. */
  lemma DragTimeMonotone(x1: real, x2: real, left: real, width: real, lastTime: real)
    requires width > 0.0 && lastTime >= 0.0 && x1 <= x2
    ensures DragTime(x1, left, width, lastTime) <= DragTime(x2, left, width, lastTime)
  {
    var a := Max(0.0, x1 - left);
    var b := Max(0.0, x2 - left);
    assert a <= b;
    assert a / width <= b / width by {
      assert (b - a) / width >= 0.0;
      assert b / width - a / width == (b - a) / width;
    }
    assert (b / width - a / width) * lastTime >= 0.0;
  }

  /** Halfway along a bar over a two-second map is one second. */
  lemma DragMidpoint(left: real, width: real)
    requires width > 0.0
    ensures DragTime(left + width / 2.0, left, width, 2000.0) == 1000.0
  {
    assert (width / 2.0) / width == 0.5;
  }

  /** `pointerdown` pauses the audio, freezes the display at the dragged time
      and leaves `waitingForSeek` as it was. */
  lemma PointerDownEffect(c: ClockState, clientX: real, left: real, width: real,
                          lastTime: real, now: real)
    requires width > 0.0
    ensures var r := OnPointerDown(c, clientX, left, width, lastTime, now);
      && r.commands == [Pause]
      && r.next.seeking && r.next.waitingForSeek == c.waitingForSeek
      && r.next.startTime == now
      && forall t :: DisplayTime(r.next, t) == DragTime(clientX, left, width, lastTime)
  {
  }

  /** Releasing the pointer unfreezes the display from the last anchor: the
      shown time is the dragged time plus however long the pointer was held
      still since it was pressed, so the readout jumps ahead on release. */
  lemma ReleaseRunsFromLastAnchor(c: ClockState, clientX: real, left: real, width: real,
                                  lastTime: real, downAt: real, upAt: real)
    requires width > 0.0
    ensures var down := OnPointerDown(c, clientX, left, width, lastTime, downAt);
      DisplayTime(OnPointerUp(down.next).next, upAt)
        == DragTime(clientX, left, width, lastTime) + (upAt - downAt)
  {
  }

  /** `pointermove` does nothing unless a drag is in progress; during one it
      only moves the anchor. */
  lemma PointerMoveOnlyWhileSeeking(c: ClockState, clientX: real, left: real, width: real,
                                    lastTime: real, now: real)
    requires width > 0.0
    ensures var r := OnPointerMove(c, clientX, left, width, lastTime, now);
      && (!c.seeking ==> r == c)
      && r.seeking == c.seeking && r.waitingForSeek == c.waitingForSeek
      && (c.seeking ==> DisplayTime(r, now) == DragTime(clientX, left, width, lastTime))
  {
  }

  /** `pointerup` commits a drag, moving it to "waiting for seek" and asking
      for the anchor's position in seconds; outside a drag it does nothing. */
  lemma PointerUpEffect(c: ClockState)
    ensures var r := OnPointerUp(c);
      if c.seeking then
        && r.next == ClockState(c.mapStartTime, c.startTime, false, true)
        && r.commands == [SeekTo(c.mapStartTime / 1000.0)]
      else r == Reaction(c, [])
  {
  }

  /** `onSeeked` acts only while waiting: it re-anchors at the audio position,
      clears the wait, resumes play and leaves `seeking` alone. */
  lemma SeekedEffect(c: ClockState, audioSeconds: real, now: real)
    ensures var r := OnSeeked(c, audioSeconds, now);
      if c.waitingForSeek then
        && r.next == ClockState(audioSeconds * 1000.0, now, c.seeking, false)
        && r.commands == [Play]
        && MapTime(r.next, now) == audioSeconds * 1000.0
      else r == Reaction(c, [])
  {
  }

  /** A complete drag from the playing state: down, up, seek completed. The
      audio is paused, sent to the dragged time and resumed; the clock is
      anchored at the actual audio position and the next frame corrects drift
      again. */
  lemma SeekCycle(c: ClockState, clientX: real, left: real, width: real, lastTime: real,
                  downAt: real, audioSeconds: real, seekedAt: real)
    requires width > 0.0 && !c.seeking && !c.waitingForSeek
    ensures
      var down := OnPointerDown(c, clientX, left, width, lastTime, downAt);
      var up := OnPointerUp(down.next);
      var seeked := OnSeeked(up.next, audioSeconds, seekedAt);
      && down.commands + up.commands + seeked.commands
         == [Pause, SeekTo(DragTime(clientX, left, width, lastTime) / 1000.0), Play]
      && seeked.next == ClockState(audioSeconds * 1000.0, seekedAt, false, false)
      && SyncEnabled(seeked.next, false)
  {
  }

  /** The two flags are independent: pressing again while a seek is pending
      sets both. */
  lemma BothFlagsReachable(previewTime: real, lastTime: real, now: real)
    ensures
      var s0 := InitialState(previewTime, lastTime, now);
      var s1 := OnPointerDown(s0, 10.0, 0.0, 100.0, lastTime, now).next;
      var s2 := OnPointerUp(s1).next;
      var s3 := OnPointerDown(s2, 20.0, 0.0, 100.0, lastTime, now).next;
      s3.seeking && s3.waitingForSeek
  {
  }

  /** A seek completing during a second drag resumes the audio while the
      pointer is still down, and the drag goes on. */
  lemma SeekedDuringDragResumes(c: ClockState, audioSeconds: real, now: real)
    requires c.seeking && c.waitingForSeek
    ensures OnSeeked(c, audioSeconds, now).commands == [Play]
    ensures OnSeeked(c, audioSeconds, now).next.seeking
  {
  }

  // ---------------------------------------------------------------------------
  // Whole sessions

  /** One handler invocation, with the inputs it reads. */
  datatype Event =
    | Tick(frameTime: real, now: real, audioSeconds: real, audioPaused: bool)
    | Down(clientX: real, left: real, width: real, now: real)
    | Move(clientX: real, left: real, width: real, now: real)
    | Up
    | Seeked(audioSeconds: real, now: real)

  /** Pointer events come from a bar with positive width. */
  predicate ValidEvent(e: Event) {
    match e
    case Down(_, _, width, _) => width > 0.0
    case Move(_, _, width, _) => width > 0.0
    case _ => true
  }

  /** The audio reports no negative position. */
  predicate NonNegativeReading(e: Event) {
    (e.Tick? || e.Seeked?) ==> e.audioSeconds >= 0.0
  }

  /** The state change and audio commands of one event. */
  function Step(c: ClockState, e: Event, lastTime: real): Reaction
    requires ValidEvent(e)
  {
    match e
    case Tick(frameTime, _, audioSeconds, audioPaused) =>
      Reaction(Resync(c, frameTime, audioSeconds, audioPaused), [])
    case Down(clientX, left, width, now) => OnPointerDown(c, clientX, left, width, lastTime, now)
    case Move(clientX, left, width, now) =>
      Reaction(OnPointerMove(c, clientX, left, width, lastTime, now), [])
    case Up => OnPointerUp(c)
    case Seeked(audioSeconds, now) => OnSeeked(c, audioSeconds, now)
  }

  /** A sequence of events handled one after another, with every audio
      command issued on the way. */
  function Run(c: ClockState, es: seq<Event>, lastTime: real): Reaction
    requires forall i :: 0 <= i < |es| ==> ValidEvent(es[i])
    decreases |es|
  {
    if |es| == 0 then Reaction(c, [])
    else
      var first := Step(c, es[0], lastTime);
      var rest := Run(first.next, es[1..], lastTime);
      Reaction(rest.next, first.commands + rest.commands)
  }

  /** No command seeks the audio to before the start. */
  predicate SeeksNonNegative(cmds: seq<AudioCommand>) {
    forall i :: 0 <= i < |cmds| ==> cmds[i].SeekTo? ==> cmds[i].seconds >= 0.0
  }

  /** Over any session on a map of non-negative length, started from a
      non-negative anchor and with non-negative audio readings, the anchor map
      time stays non-negative and every seek request is to a non-negative
      position. */
  lemma {:induction false} RunKeepsAnchorNonNegative(c: ClockState, es: seq<Event>, lastTime: real)
    requires forall i :: 0 <= i < |es| ==> ValidEvent(es[i])
    requires forall i :: 0 <= i < |es| ==> NonNegativeReading(es[i])
    requires lastTime >= 0.0 && c.mapStartTime >= 0.0
    ensures Run(c, es, lastTime).next.mapStartTime >= 0.0
    ensures SeeksNonNegative(Run(c, es, lastTime).commands)
    decreases |es|
  {
    if |es| > 0 {
      var first := Step(c, es[0], lastTime);
      assert first.next.mapStartTime >= 0.0 by {
        match es[0]
        case Down(clientX, left, width, now) => DragTimeRange(clientX, left, width, lastTime);
        case Move(clientX, left, width, now) => DragTimeRange(clientX, left, width, lastTime);
        case _ =>
      }
      assert SeeksNonNegative(first.commands);
      RunKeepsAnchorNonNegative(first.next, es[1..], lastTime);
    }
  }

  /** A session starts with a non-negative anchor whenever the map length is
      non-negative. */
  lemma InitialAnchorNonNegative(previewTime: real, lastTime: real, now: real)
    requires lastTime >= 0.0
    ensures InitialState(previewTime, lastTime, now).mapStartTime >= 0.0
    ensures !InitialState(previewTime, lastTime, now).seeking
    ensures !InitialState(previewTime, lastTime, now).waitingForSeek
  {
  }
}
