/** The state of a TouchInputHandler as a value, and each of its operations as a
    function from the state before to the state after. The class in module
    TouchInput is proved to behave exactly as these functions say. */
module TouchModel {
  import opened Points

  datatype Option<T> = None | Some(value: T)

  /** The calls the handler makes on its host (Layout, ZoomControl, UndoRedoHandler,
      Control), in the order it makes them. */
  datatype HostCall =
    | ScrollRelative(dx: real, dy: real)
    | SetZoomFitMode(enabled: bool)
    | StartZoomSequence(center: Point)
    | ZoomSequenceChange(zoom: real, relative: bool, offset: Point)
    | EndZoomSequence
    | Undo
    | Redo
    | ShowFloatingToolbox(x: real, y: real)

  datatype EventType = ButtonPressEvent | MotionEvent | ButtonReleaseEvent | OtherEvent

  /** An input event: `sequence` is None when the event carries no touch sequence.
      The relative coordinates are left out: the handler only stores them. */
  datatype InputEvent<Id> = InputEvent(kind: EventType, sequence: Option<Id>, absolute: Point)

  /** What the handler asks its InputContext while handling one event: the two
      settings, ZoomControl::isZoomFitMode and MainWindow::getNegativeXournalWidgetPos. */
  datatype Context = Context(
    zoomGesturesEnabled: bool,
    touchZoomStartThreshold: real,
    zoomFitMode: bool,
    negativeWidgetPos: Point)

  /** Movement (from the press position) above which a contact no longer counts as a tap. */
  const TapSlop: real := 5.0

  /** The start distance used when the two contacts are on the same spot. */
  const MinStartZoomDistance: real := 0.01

  /** One valid contact: its sequence, where it was pressed, and how far it has moved from there. */
  datatype ActiveEvent<Id> = ActiveEvent(sequence: Id, lastPos: Point, distMoved: Point)
  {
    /** ActiveEvent::moved: record the displacement of `absolute` from the press position. */
    function Moved(absolute: Point): (e: ActiveEvent<Id>)
      ensures e.sequence == sequence && e.lastPos == lastPos
      ensures Plus(e.lastPos, e.distMoved) == absolute
    {
      this.(distMoved := Minus(absolute, lastPos))
    }
  }

  /** The ActiveEvent constructor. */
  function NewActiveEvent<Id>(id: Id, absolute: Point): (e: ActiveEvent<Id>)
    ensures e.sequence == id && e.lastPos == absolute
    ensures e.distMoved == Origin
  {
    ActiveEvent(id, absolute, Origin)
  }

  datatype HandlerState<Id(==)> = HandlerState(
    zooming: bool,
    invalidActive: set<Id>,
    validActive: seq<ActiveEvent<Id>>,
    startZoomDistance: real,
    lastZoomScrollCenter: Point,
    priLastAbs: Point,
    secLastAbs: Point,
    startZoomReady: bool,
    canBlockZoom: bool,
    trace: seq<HostCall>)

  /** A freshly constructed handler, with the defaults of the field initialisers. */
  function Initial<Id(==)>(): HandlerState<Id>
  {
    HandlerState(false, {}, [], 0.0, Origin, Unset, Unset, false, false, [])
  }

  function Emit<Id(==)>(s: HandlerState<Id>, c: HostCall): HandlerState<Id>
  {
    s.(trace := s.trace + [c])
  }

  // ----- the collections -----

  /** The sequences of a list of contacts. */
  function Ids<Id(==)>(events: seq<ActiveEvent<Id>>): (r: set<Id>)
    ensures forall i :: 0 <= i < |events| ==> events[i].sequence in r
    ensures forall x :: x in r ==> exists i :: 0 <= i < |events| && events[i].sequence == x
  {
    if events == [] then {} else Ids(events[..|events| - 1]) + {events[|events| - 1].sequence}
  }

  /** findEvent: the position of the first contact with sequence `id`, None for `end()`. */
  function IndexOf<Id(==)>(events: seq<ActiveEvent<Id>>, id: Id): (r: Option<nat>)
    ensures r.Some? ==> r.value < |events| && events[r.value].sequence == id
    ensures r.Some? ==> forall j :: 0 <= j < r.value ==> events[j].sequence != id
    ensures r.None? <==> id !in Ids(events)
  {
    if events == [] then None
    else if events[0].sequence == id then Some(0)
    else match IndexOf(events[1..], id)
      case None => None
      case Some(j) => Some(j + 1)
  }

  /** The sequences of a prefix grow by one with each contact. */
  lemma IdsOfPrefix<Id>(quarantine: set<Id>, events: seq<ActiveEvent<Id>>, i: nat)
    requires i < |events|
    ensures quarantine + Ids(events[..i]) + {events[i].sequence} == quarantine + Ids(events[..i + 1])
  {
    assert events[..i + 1][..i] == events[..i];
  }

  /** The erase in removeValidEvent: drop the first contact with sequence `id`. */
  function RemoveFirst<Id(==)>(events: seq<ActiveEvent<Id>>, id: Id): (r: seq<ActiveEvent<Id>>)
    ensures |r| == |events| || |r| == |events| - 1
  {
    if events == [] then []
    else if events[0].sequence == id then events[1..]
    else [events[0]] + RemoveFirst(events[1..], id)
  }

  /** RemoveFirst erases the position findEvent finds, and nothing when it finds none. */
  lemma {:induction false} RemoveFirstErases<Id>(events: seq<ActiveEvent<Id>>, id: Id)
    ensures IndexOf(events, id).None? ==> RemoveFirst(events, id) == events
    ensures IndexOf(events, id).Some? ==>
      var i := IndexOf(events, id).value; RemoveFirst(events, id) == events[..i] + events[i + 1..]
  {
    match IndexOf(events, id)
    case None => RemoveFirstAbsent(events, id);
    case Some(k) => RemoveFirstAt(events, id, k);
  }

  lemma {:induction false} RemoveFirstAt<Id>(events: seq<ActiveEvent<Id>>, id: Id, k: nat)
    requires k < |events| && events[k].sequence == id
    requires forall j :: 0 <= j < k ==> events[j].sequence != id
    ensures RemoveFirst(events, id) == events[..k] + events[k + 1..]
  {
    if k > 0 {
      var tail := events[1..];
      RemoveFirstAt(tail, id, k - 1);
      assert events[..k] == [events[0]] + tail[..k - 1];
      assert events[k + 1..] == tail[k..];
    }
  }

  lemma {:induction false} RemoveFirstAbsent<Id>(events: seq<ActiveEvent<Id>>, id: Id)
    requires forall j :: 0 <= j < |events| ==> events[j].sequence != id
    ensures RemoveFirst(events, id) == events
  {
    if events != [] {
      RemoveFirstAbsent(events[1..], id);
      assert [events[0]] + events[1..] == events;
    }
  }

  /** tapGestureValid: no contact has moved more than TapSlop from where it was pressed. */
  predicate TapValid<Id(==)>(events: seq<ActiveEvent<Id>>, distance: Distance)
  {
    forall i :: 0 <= i < |events| ==> Abs(distance(Origin, events[i].distMoved)) <= TapSlop
  }

  /** invalidateAllValid */
  function InvalidateAllValid<Id(==)>(s: HandlerState<Id>): (r: HandlerState<Id>)
    ensures r.validActive == []
    ensures r.invalidActive == s.invalidActive + Ids(s.validActive)
    ensures r == s.(validActive := [], invalidActive := r.invalidActive)
  {
    s.(invalidActive := s.invalidActive + Ids(s.validActive), validActive := [])
  }

  // ----- the gesture steps -----

  /** sequenceStart: a contact at the front of validActive sets the primary
      reference point, any other contact the secondary one. */
  function SequenceStart<Id(==)>(s: HandlerState<Id>, id: Id, absolute: Point): (r: HandlerState<Id>)
    requires |s.validActive| > 0
    ensures s.validActive[0].sequence == id ==> r == s.(priLastAbs := absolute)
    ensures s.validActive[0].sequence != id ==> r == s.(secLastAbs := absolute)
  {
    if s.validActive[0].sequence == id then s.(priLastAbs := absolute) else s.(secLastAbs := absolute)
  }

  /** The reference point that a motion of `id` is measured from. */
  function LastAbs<Id(==)>(s: HandlerState<Id>, id: Id): Point
    requires |s.validActive| > 0
  {
    if s.validActive[0].sequence == id then s.priLastAbs else s.secLastAbs
  }

  /** scrollMotion: scroll by the negated displacement since the last reference point
      of this contact, which then moves to `absolute`. */
  function ScrollMotion<Id(==)>(s: HandlerState<Id>, id: Id, absolute: Point): (r: HandlerState<Id>)
    requires |s.validActive| > 0
    ensures r == SequenceStart(s, id, absolute).(trace := r.trace)
    ensures r.trace == s.trace + [ScrollRelative(LastAbs(s, id).x - absolute.x, LastAbs(s, id).y - absolute.y)]
    ensures LastAbs(r, id) == absolute
  {
    var offset := Minus(absolute, LastAbs(s, id));
    Emit(SequenceStart(s, id, absolute), ScrollRelative(-offset.x, -offset.y))
  }

  /** The start distance that zoomStart stores: Point::distance, raised to 0.01 when it is 0. */
  function StartDistance(d: real): (r: real)
    ensures r != 0.0
    ensures d != 0.0 ==> r == d
    ensures d == 0.0 ==> r == MinStartZoomDistance
  {
    if d == 0.0 then MinStartZoomDistance else d
  }

  /** zoomStart */
  function ZoomStart<Id(==)>(s: HandlerState<Id>, distance: Distance, ctx: Context): (r: HandlerState<Id>)
    ensures r.zooming && r.canBlockZoom && !r.startZoomReady
    ensures r.startZoomDistance != 0.0
    ensures r.startZoomDistance == StartDistance(distance(s.priLastAbs, s.secLastAbs))
    ensures r.lastZoomScrollCenter == Midpoint(s.priLastAbs, s.secLastAbs)
    ensures r.trace == s.trace + (if ctx.zoomFitMode then [SetZoomFitMode(false)] else [])
                      + [StartZoomSequence(Plus(r.lastZoomScrollCenter, ctx.negativeWidgetPos))]
    ensures r == s.(zooming := true, startZoomDistance := r.startZoomDistance, canBlockZoom := true,
                    lastZoomScrollCenter := r.lastZoomScrollCenter, trace := r.trace, startZoomReady := false)
  {
    var center := Midpoint(s.priLastAbs, s.secLastAbs);
    var s1 := s.(zooming := true,
                 startZoomDistance := StartDistance(distance(s.priLastAbs, s.secLastAbs)),
                 canBlockZoom := true);
    var s2 := if ctx.zoomFitMode then Emit(s1, SetZoomFitMode(false)) else s1;
    var s3 := s2.(lastZoomScrollCenter := center);
    Emit(s3, StartZoomSequence(Plus(center, ctx.negativeWidgetPos))).(startZoomReady := false)
  }

  /** The change of pinch distance, in percent of the start distance. */
  function ZoomChangePercentage(d: real, startZoomDistance: real): real
    requires startZoomDistance != 0.0
  {
    Abs(d - startZoomDistance) / startZoomDistance * 100.0
  }

  /** zoomMotion */
  function ZoomMotion<Id(==)>(s: HandlerState<Id>, id: Id, absolute: Point, distance: Distance,
                              threshold: real): (r: HandlerState<Id>)
    requires |s.validActive| > 0
    requires s.startZoomDistance != 0.0
    ensures r.validActive == s.validActive
    ensures LastAbs(r, id) == absolute
    ensures var d := distance(r.priLastAbs, r.secLastAbs);
      && r.canBlockZoom == (s.canBlockZoom && ZoomChangePercentage(d, s.startZoomDistance) < threshold)
      && r.trace == s.trace + [ZoomSequenceChange(if r.canBlockZoom then 1.0 else d / s.startZoomDistance,
                                                  true,
                                                  Minus(r.lastZoomScrollCenter, s.lastZoomScrollCenter))]
    ensures r.lastZoomScrollCenter == Midpoint(r.priLastAbs, r.secLastAbs)
    ensures r == SequenceStart(s, id, absolute).(canBlockZoom := r.canBlockZoom,
                                                 lastZoomScrollCenter := r.lastZoomScrollCenter,
                                                 trace := r.trace)
  {
    var s1 := SequenceStart(s, id, absolute);
    var d := distance(s1.priLastAbs, s1.secLastAbs);
    var blocked := s.canBlockZoom && ZoomChangePercentage(d, s.startZoomDistance) < threshold;
    var zoom := if blocked then 1.0 else d / s.startZoomDistance;
    var center := Midpoint(s1.priLastAbs, s1.secLastAbs);
    s1.(canBlockZoom := blocked,
        trace := s.trace + [ZoomSequenceChange(zoom, true, Minus(center, s.lastZoomScrollCenter))],
        lastZoomScrollCenter := center)
  }

  /** zoomEnd */
  function ZoomEnd<Id(==)>(s: HandlerState<Id>): (r: HandlerState<Id>)
    ensures !r.zooming && r.trace == s.trace + [EndZoomSequence]
    ensures r == s.(zooming := false, trace := r.trace)
  {
    Emit(s.(zooming := false), EndZoomSequence)
  }

  // ----- the entry points -----

  /** A press is admitted as a valid contact when no contact is quarantined, once a
      press for a quarantined sequence (a missed release) has emptied the quarantine. */
  predicate Admitted<Id(==)>(s: HandlerState<Id>, id: Id)
  {
    id in s.invalidActive || s.invalidActive == {}
  }

  /** handleImpl for a BUTTON_PRESS_EVENT. */
  function Press<Id(==)>(s: HandlerState<Id>, id: Id, absolute: Point): (r: HandlerState<Id>)
    ensures r.trace == s.trace && r.zooming == s.zooming && r.canBlockZoom == s.canBlockZoom
    ensures r.startZoomDistance == s.startZoomDistance && r.lastZoomScrollCenter == s.lastZoomScrollCenter
    ensures Admitted(s, id) ==>
      && r.validActive == s.validActive + [NewActiveEvent(id, absolute)]
      && r.invalidActive == {}
      && r.startZoomReady == (s.startZoomReady || |r.validActive| == 2)
      && LastAbs(r, id) == absolute
      && (r.validActive[0].sequence == id ==> r.secLastAbs == s.secLastAbs)
      && (r.validActive[0].sequence != id ==> r.priLastAbs == s.priLastAbs)
    ensures !Admitted(s, id) ==> r == s.(invalidActive := s.invalidActive + {id})
  {
    var s1 := if id in s.invalidActive then s.(invalidActive := {}) else s;
    if s1.invalidActive == {} then
      var s2 := SequenceStart(s1.(validActive := s1.validActive + [NewActiveEvent(id, absolute)]), id, absolute);
      if |s2.validActive| == 2 then s2.(startZoomReady := true) else s2
    else
      s1.(invalidActive := s1.invalidActive + {id})
  }

  /** The source dereferences the result of findEvent without comparing it to `end()`:
      a motion is defined only when at most one contact is valid or its sequence is valid. */
  predicate MotionDefined<Id(==)>(s: HandlerState<Id>, id: Id)
  {
    |s.validActive| <= 1 || id in Ids(s.validActive)
  }

  /** The zoom of a two-contact motion starts exactly here. */
  predicate StartsZoom<Id(==)>(s: HandlerState<Id>, id: Id, ctx: Context)
  {
    |s.validActive| == 2 && ctx.zoomGesturesEnabled && s.startZoomReady && s.validActive[0].sequence == id
  }

  /** The first `ActiveEvent::moved` step of a motion, taken when more than one contact is valid. */
  function TrackMotion<Id(==)>(s: HandlerState<Id>, id: Id, absolute: Point): (r: HandlerState<Id>)
    requires MotionDefined(s, id)
    ensures |r.validActive| == |s.validActive|
    ensures forall i :: 0 <= i < |s.validActive| ==>
      r.validActive[i].sequence == s.validActive[i].sequence && r.validActive[i].lastPos == s.validActive[i].lastPos
    ensures |s.validActive| <= 1 ==> r == s
    ensures |s.validActive| > 1 ==>
      var k := IndexOf(s.validActive, id).value;
      r.validActive == s.validActive[k := s.validActive[k].Moved(absolute)]
    ensures r == s.(validActive := r.validActive)
  {
    if |s.validActive| > 1 then
      var k := IndexOf(s.validActive, id).value;
      s.(validActive := s.validActive[k := s.validActive[k].Moved(absolute)])
    else s
  }

  /** Tracking a contact that has not moved from where it was pressed changes nothing. */
  lemma TrackStill<Id>(s: HandlerState<Id>, id: Id, k: nat)
    requires k < |s.validActive| && IndexOf(s.validActive, id) == Some(k)
    requires s.validActive[k].distMoved == Origin
    ensures TrackMotion(s, id, s.validActive[k].lastPos) == s
  {
    var e := s.validActive[k];
    assert e.Moved(e.lastPos) == e;
    assert s.validActive[k := e] == s.validActive;
  }

  /** handleImpl for a MOTION_EVENT: track the contact's movement when two or more are
      valid, then scroll with one contact, start or continue a zoom (or scroll, with zoom
      gestures disabled) with two, and do nothing else with any other number. */
  function Motion<Id(==)>(s: HandlerState<Id>, id: Id, absolute: Point, distance: Distance, ctx: Context): (r: HandlerState<Id>)
    requires Consistent(s)
    requires MotionDefined(s, id)
    ensures r.invalidActive == s.invalidActive && r.zooming == (s.zooming || StartsZoom(s, id, ctx))
    ensures |r.validActive| == |s.validActive|
    ensures forall i :: 0 <= i < |s.validActive| ==>
      r.validActive[i].sequence == s.validActive[i].sequence && r.validActive[i].lastPos == s.validActive[i].lastPos
    ensures s.startZoomReady && !r.startZoomReady <==> StartsZoom(s, id, ctx)
    ensures StartsZoom(s, id, ctx) ==> r.canBlockZoom && r.startZoomDistance != 0.0
    ensures !StartsZoom(s, id, ctx) ==> r.startZoomReady == s.startZoomReady && r.startZoomDistance == s.startZoomDistance
    ensures r.canBlockZoom ==> s.canBlockZoom || StartsZoom(s, id, ctx)
    ensures |s.validActive| <= 1 ==> r.validActive == s.validActive
  {
    var s1 := TrackMotion(s, id, absolute);
    var v := s1.validActive;
    if |v| == 1 then ScrollMotion(s1, id, absolute)
    else if |v| == 2 then
      if v[0].sequence == id || v[1].sequence == id then
        if ctx.zoomGesturesEnabled then
          if s1.startZoomReady then
            if v[0].sequence == id then ZoomStart(SequenceStart(s1, id, absolute), distance, ctx) else s1
          else ZoomMotion(s1, id, absolute, distance, ctx.touchZoomStartThreshold)
        else ScrollMotion(s1, id, absolute)
      else s1
    else s1
  }

  /** Which of the gesture steps a motion performs, after tracking the moving contact. */
  lemma MotionCases<Id>(s: HandlerState<Id>, id: Id, absolute: Point, distance: Distance, ctx: Context)
    requires Consistent(s) && MotionDefined(s, id)
    ensures var t := TrackMotion(s, id, absolute);
      var r := Motion(s, id, absolute, distance, ctx);
      && (|s.validActive| == 0 || |s.validActive| >= 3 ==> r == t)
      && (|s.validActive| == 1 || (|s.validActive| == 2 && !ctx.zoomGesturesEnabled) ==> r == ScrollMotion(t, id, absolute))
      && (StartsZoom(s, id, ctx) ==> r == ZoomStart(SequenceStart(t, id, absolute), distance, ctx))
      && (|s.validActive| == 2 && ctx.zoomGesturesEnabled && s.startZoomReady && !StartsZoom(s, id, ctx) ==> r == t)
      && (|s.validActive| == 2 && ctx.zoomGesturesEnabled && !s.startZoomReady ==>
            t.startZoomDistance != 0.0 && r == ZoomMotion(t, id, absolute, distance, ctx.touchZoomStartThreshold))
  {
  }

  /** The motion of contact 0 while armed starts the zoom: the start distance is measured from
      the new position to the secondary point, and the host gets one zoom start at the midpoint
      plus the widget offset, after switching zoom-fit mode off when it is on. */
  lemma MotionStartsZoom<Id>(s: HandlerState<Id>, id: Id, absolute: Point, distance: Distance, ctx: Context)
    requires Consistent(s) && MotionDefined(s, id) && StartsZoom(s, id, ctx)
    ensures var r := Motion(s, id, absolute, distance, ctx);
      && r.zooming && r.canBlockZoom && !r.startZoomReady
      && r.startZoomDistance == StartDistance(distance(absolute, s.secLastAbs))
      && r.trace == s.trace + (if ctx.zoomFitMode then [SetZoomFitMode(false)] else [])
                    + [StartZoomSequence(Plus(Midpoint(absolute, s.secLastAbs), ctx.negativeWidgetPos))]
  {
  }

  /** A motion that starts no zoom makes at most one host call, and never a zoom start or end. */
  lemma MotionOtherwise<Id>(s: HandlerState<Id>, id: Id, absolute: Point, distance: Distance, ctx: Context)
    requires Consistent(s) && MotionDefined(s, id) && !StartsZoom(s, id, ctx)
    ensures var r := Motion(s, id, absolute, distance, ctx);
      || r.trace == s.trace
      || (&& |r.trace| == |s.trace| + 1 && r.trace[..|s.trace|] == s.trace
          && !r.trace[|s.trace|].StartZoomSequence? && !r.trace[|s.trace|].EndZoomSequence?)
  {
  }

  /** The tap gesture that releasing one of `n` valid contacts performs, if any. */
  function TapCall(n: nat, absolute: Point): seq<HostCall>
  {
    if n == 2 then [Undo] else if n == 3 then [Redo]
    else if n == 4 then [ShowFloatingToolbox(absolute.x, absolute.y)] else []
  }

  /** The switch of handleImpl for a BUTTON_RELEASE_EVENT, on the number of valid contacts. */
  function ReleaseDispatch<Id(==)>(s: HandlerState<Id>, id: Id, absolute: Point, distance: Distance): (d: HandlerState<Id>)
    ensures d == s.(zooming := d.zooming, validActive := d.validActive, invalidActive := d.invalidActive, trace := d.trace)
    ensures d.zooming ==> s.zooming
    ensures d.trace == s.trace || |d.trace| == |s.trace| + 1
    ensures |s.trace| <= |d.trace| && d.trace[..|s.trace|] == s.trace
    ensures d.validActive == [] || (d.validActive == s.validActive && d.invalidActive == s.invalidActive)
    ensures d.validActive == [] ==> d.invalidActive == s.invalidActive + Ids(s.validActive)
    ensures |s.validActive| >= 3 ==> d.validActive == []
  {
    var v := s.validActive;
    if |v| == 1 then s
    else if |v| == 2 then
      if v[0].sequence == id || v[1].sequence == id then
        if s.zooming then ZoomEnd(s)
        else if TapValid(v, distance) then InvalidateAllValid(Emit(s, Undo))
        else s
      else s
    else if |v| == 3 then
      InvalidateAllValid(if TapValid(v, distance) then Emit(s, Redo) else s)
    else if |v| == 4 then
      InvalidateAllValid(if TapValid(v, distance) then Emit(s, ShowFloatingToolbox(absolute.x, absolute.y)) else s)
    else InvalidateAllValid(s)
  }

  /** handleImpl for a BUTTON_RELEASE_EVENT: the switch, then removeValidEvent, or the
      erase from invalidActive when the sequence is not a valid contact. */
  function Release<Id(==)>(s: HandlerState<Id>, id: Id, absolute: Point, distance: Distance): (r: HandlerState<Id>)
    ensures r.startZoomReady == s.startZoomReady && r.canBlockZoom == s.canBlockZoom
    ensures r.startZoomDistance == s.startZoomDistance && r.lastZoomScrollCenter == s.lastZoomScrollCenter
    ensures r.priLastAbs == s.priLastAbs && r.secLastAbs == s.secLastAbs
    ensures r.zooming ==> s.zooming
    ensures r.trace == s.trace || |r.trace| == |s.trace| + 1
    ensures |s.trace| <= |r.trace| && r.trace[..|s.trace|] == s.trace
  {
    var d := ReleaseDispatch(s, id, absolute, distance);
    if IndexOf(d.validActive, id).Some? then d.(validActive := RemoveFirst(d.validActive, id))
    else d.(invalidActive := d.invalidActive - {id})
  }

  /** onBlock: close an open zoom sequence. */
  function OnBlock<Id(==)>(s: HandlerState<Id>): (r: HandlerState<Id>)
    ensures !r.zooming
    ensures r.trace == s.trace + (if s.zooming then [EndZoomSequence] else [])
    ensures r == s.(zooming := false, trace := r.trace)
  {
    if s.zooming then ZoomEnd(s) else s
  }

  /** onUnblock: forget every contact and reset distances and reference points; the
      three flags are left as they are. */
  function OnUnblock<Id(==)>(s: HandlerState<Id>): (r: HandlerState<Id>)
    ensures r.validActive == [] && r.invalidActive == {}
    ensures r.startZoomDistance == 0.0 && r.lastZoomScrollCenter == Origin
    ensures r.priLastAbs == Unset && r.secLastAbs == Unset
    ensures r.zooming == s.zooming && r.startZoomReady == s.startZoomReady && r.canBlockZoom == s.canBlockZoom
    ensures r.trace == s.trace
  {
    s.(validActive := [], invalidActive := {}, startZoomDistance := 0.0,
       lastZoomScrollCenter := Origin, priLastAbs := Unset, secLastAbs := Unset)
  }

  // ----- the invariant -----

  /** The host has an open zoom sequence: the last start or end it received was a start. */
  function ZoomOpen(t: seq<HostCall>): bool
  {
    if t == [] then false
    else if t[|t| - 1].StartZoomSequence? then true
    else if t[|t| - 1].EndZoomSequence? then false
    else ZoomOpen(t[..|t| - 1])
  }

  /** Every EndZoomSequence closes an open zoom sequence. */
  predicate EndsMatched(t: seq<HostCall>)
  {
    forall i :: 0 <= i < |t| && t[i].EndZoomSequence? ==> ZoomOpen(t[..i])
  }

  /** What every reachable handler state satisfies:
      - a contact is quarantined only while no contact is valid;
      - two valid contacts without a pending zoom start mean zoomStart has run since the
        second press, so zoomMotion never divides by a zero start distance;
      - `zooming` is true exactly when the host has an open zoom sequence, and the
        handler never ends a zoom sequence that is not open. */
  predicate Consistent<Id(==)>(s: HandlerState<Id>)
  {
    && (s.invalidActive == {} || s.validActive == [])
    && (|s.validActive| == 2 && !s.startZoomReady ==> s.startZoomDistance != 0.0)
    && s.zooming == ZoomOpen(s.trace)
    && EndsMatched(s.trace)
  }

  lemma ZoomOpenAppend(t: seq<HostCall>, c: HostCall)
    ensures ZoomOpen(t + [c]) == if c.StartZoomSequence? then true else if c.EndZoomSequence? then false else ZoomOpen(t)
  {
    assert (t + [c])[..|t|] == t;
  }

  lemma EndsMatchedAppend(t: seq<HostCall>, c: HostCall)
    requires EndsMatched(t)
    requires c.EndZoomSequence? ==> ZoomOpen(t)
    ensures EndsMatched(t + [c])
  {
    forall i | 0 <= i < |t + [c]| && (t + [c])[i].EndZoomSequence?
      ensures ZoomOpen((t + [c])[..i])
    {
      if i < |t| {
        assert (t + [c])[..i] == t[..i];
      } else {
        assert (t + [c])[..i] == t;
      }
    }
  }

  /** Emitting a call keeps the trace part of Consistent when the flag follows the call. */
  lemma EmitKeepsTrace<Id>(s: HandlerState<Id>, c: HostCall, zooming: bool)
    requires s.zooming == ZoomOpen(s.trace) && EndsMatched(s.trace)
    requires c.EndZoomSequence? ==> s.zooming
    requires zooming == if c.StartZoomSequence? then true else if c.EndZoomSequence? then false else s.zooming
    ensures zooming == ZoomOpen(s.trace + [c]) && EndsMatched(s.trace + [c])
  {
    ZoomOpenAppend(s.trace, c);
    EndsMatchedAppend(s.trace, c);
  }

  lemma {:induction false} PressKeepsConsistent<Id>(s: HandlerState<Id>, id: Id, absolute: Point)
    requires Consistent(s)
    ensures Consistent(Press(s, id, absolute))
  {
  }

  lemma {:induction false} MotionKeepsConsistent<Id>(s: HandlerState<Id>, id: Id, absolute: Point, distance: Distance, ctx: Context)
    requires Consistent(s)
    requires MotionDefined(s, id)
    ensures Consistent(Motion(s, id, absolute, distance, ctx))
  {
    var r := Motion(s, id, absolute, distance, ctx);
    if StartsZoom(s, id, ctx) {
      MotionStartsZoom(s, id, absolute, distance, ctx);
      var c := r.trace[|r.trace| - 1];
      var before := r.trace[..|r.trace| - 1];
      assert r.trace == before + [c];
      if ctx.zoomFitMode {
        assert before == s.trace + [SetZoomFitMode(false)];
        EmitKeepsTrace(s, SetZoomFitMode(false), s.zooming);
      }
      EmitKeepsTrace(s.(trace := before), c, true);
    } else {
      MotionOtherwise(s, id, absolute, distance, ctx);
      if r.trace != s.trace {
        var c := r.trace[|s.trace|];
        assert r.trace == s.trace + [c];
        EmitKeepsTrace(s, c, s.zooming);
      }
    }
  }

  lemma {:induction false} ReleaseDispatchKeepsConsistent<Id>(s: HandlerState<Id>, id: Id, absolute: Point, distance: Distance)
    requires Consistent(s)
    ensures Consistent(ReleaseDispatch(s, id, absolute, distance))
  {
    var d := ReleaseDispatch(s, id, absolute, distance);
    if d.trace != s.trace {
      var c := d.trace[|d.trace| - 1];
      assert d.trace == s.trace + [c];
      EmitKeepsTrace(s, c, d.zooming);
    }
  }

  lemma {:induction false} ReleaseKeepsConsistent<Id>(s: HandlerState<Id>, id: Id, absolute: Point, distance: Distance)
    requires Consistent(s)
    ensures Consistent(Release(s, id, absolute, distance))
  {
    ReleaseDispatchKeepsConsistent(s, id, absolute, distance);
  }

  lemma {:induction false} OnBlockKeepsConsistent<Id>(s: HandlerState<Id>)
    requires Consistent(s)
    ensures Consistent(OnBlock(s))
  {
    if s.zooming {
      EmitKeepsTrace(s, EndZoomSequence, false);
    }
  }

  // ----- events and runs -----

  /** handleImpl's result, or Undefined where the source dereferences `end()`. */
  datatype Outcome<Id(==)> = Handled(state: HandlerState<Id>, consumed: bool) | Undefined

  /** handleImpl */
  function Handle<Id(==)>(s: HandlerState<Id>, event: InputEvent<Id>, ctx: Context, distance: Distance): (o: Outcome<Id>)
    requires Consistent(s)
    ensures event.sequence.None? ==> o == Handled(s, false)
    ensures event.kind == OtherEvent ==> o == Handled(s, false)
    ensures o.Handled? ==> (o.consumed <==> event.sequence.Some? && event.kind != OtherEvent)
    ensures o.Undefined? <==> event.kind == MotionEvent && event.sequence.Some? && !MotionDefined(s, event.sequence.value)
    ensures event.sequence.Some? && event.kind == ButtonPressEvent ==>
      o == Handled(Press(s, event.sequence.value, event.absolute), true)
    ensures event.sequence.Some? && event.kind == MotionEvent && MotionDefined(s, event.sequence.value) ==>
      o == Handled(Motion(s, event.sequence.value, event.absolute, distance, ctx), true)
    ensures event.sequence.Some? && event.kind == ButtonReleaseEvent ==>
      o == Handled(Release(s, event.sequence.value, event.absolute, distance), true)
  {
    match event.sequence
    case None => Handled(s, false)
    case Some(id) =>
      match event.kind
      case ButtonPressEvent => Handled(Press(s, id, event.absolute), true)
      case MotionEvent =>
        if MotionDefined(s, id) then Handled(Motion(s, id, event.absolute, distance, ctx), true) else Undefined
      case ButtonReleaseEvent => Handled(Release(s, id, event.absolute, distance), true)
      case OtherEvent => Handled(s, false)
  }

  /** What drives a handler: a touch event with the context it is handled in, onBlock, onUnblock. */
  datatype Input<Id(==)> = Touch(event: InputEvent<Id>, context: Context) | Block | Unblock

  function Apply<Id(==)>(s: HandlerState<Id>, input: Input<Id>, distance: Distance): Option<HandlerState<Id>>
    requires Consistent(s)
  {
    match input
    case Touch(e, ctx) =>
      (match Handle(s, e, ctx, distance)
       case Handled(r, _) => Some(r)
       case Undefined => None)
    case Block => Some(OnBlock(s))
    case Unblock => Some(OnUnblock(s))
  }

  lemma {:induction false} ApplyKeepsConsistent<Id>(s: HandlerState<Id>, input: Input<Id>, distance: Distance)
    requires Consistent(s)
    ensures Apply(s, input, distance).Some? ==> Consistent(Apply(s, input, distance).value)
  {
    match input
    case Touch(e, ctx) =>
      if e.sequence.Some? {
        var id := e.sequence.value;
        match e.kind
        case ButtonPressEvent => PressKeepsConsistent(s, id, e.absolute);
        case MotionEvent =>
          if MotionDefined(s, id) { MotionKeepsConsistent(s, id, e.absolute, distance, ctx); }
        case ButtonReleaseEvent => ReleaseKeepsConsistent(s, id, e.absolute, distance);
        case OtherEvent =>
      }
    case Block => OnBlockKeepsConsistent(s);
    case Unblock =>
  }

  /** The state after a sequence of inputs, None if one of them reaches the undefined branch. */
  function Run<Id(==)>(s: HandlerState<Id>, inputs: seq<Input<Id>>, distance: Distance): (r: Option<HandlerState<Id>>)
    requires Consistent(s)
    ensures r.Some? ==> Consistent(r.value)
    decreases |inputs|
  {
    if inputs == [] then Some(s)
    else
      var next := Apply(s, inputs[0], distance);
      if next.None? then None
      else
        ApplyKeepsConsistent(s, inputs[0], distance);
        Run(next.value, inputs[1..], distance)
  }
}
