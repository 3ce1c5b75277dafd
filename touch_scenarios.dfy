/** Whole gestures, from a freshly constructed handler, with sequences numbered by int.
    Each gesture is a list of inputs and the states the handler passes through; every
    step is proved on its own and RunStep strings the steps together. */
module TouchScenarios {
  import opened Points
  import opened TouchModel
  import opened TouchProperties

  /** Zoom gestures on, a 10 percent zoom threshold, no zoom-fit mode, the widget at the origin. */
  const Settings: Context := Context(true, 10.0, false, Origin)

  function Ev(kind: EventType, id: int, at: Point): Input<int>
  {
    Touch(InputEvent(kind, Some(id), at), Settings)
  }

  function Down(id: int, at: Point): Input<int> { Ev(ButtonPressEvent, id, at) }
  function Move(id: int, at: Point): Input<int> { Ev(MotionEvent, id, at) }
  function Up(id: int, at: Point): Input<int> { Ev(ButtonReleaseEvent, id, at) }

  /** A press, a motion and a release in Settings are handled by the corresponding branch of handleImpl. */
  lemma PressApplies(s: HandlerState<int>, id: int, at: Point, distance: Distance)
    requires Consistent(s)
    ensures Apply(s, Down(id, at), distance) == Some(Press(s, id, at))
  {
  }

  lemma MotionApplies(s: HandlerState<int>, id: int, at: Point, distance: Distance)
    requires Consistent(s) && MotionDefined(s, id)
    ensures Apply(s, Move(id, at), distance) == Some(Motion(s, id, at, distance, Settings))
  {
  }

  lemma ReleaseApplies(s: HandlerState<int>, id: int, at: Point, distance: Distance)
    requires Consistent(s)
    ensures Apply(s, Up(id, at), distance) == Some(Release(s, id, at, distance))
  {
  }

  // ----- one finger -----

  function Touched(): HandlerState<int>
  {
    Initial<int>().(validActive := [NewActiveEvent(1, Origin)], priLastAbs := Origin)
  }

  lemma TouchedStep(distance: Distance)
    ensures Consistent(Touched())
    ensures Apply(Initial<int>(), Down(1, Origin), distance) == Some(Touched())
  {
    PressApplies(Initial(), 1, Origin, distance);
    assert Press(Initial<int>(), 1, Origin) == Touched();
  }

  /** Finger 1 dragged to (10, 0). */
  function Panned(): HandlerState<int>
  {
    Touched().(priLastAbs := Point(10.0, 0.0), trace := [ScrollRelative(-10.0, 0.0)])
  }

  lemma PannedMotion(distance: Distance)
    ensures Motion(Touched(), 1, Point(10.0, 0.0), distance, Settings) == Panned()
  {
    MotionCases(Touched(), 1, Point(10.0, 0.0), distance, Settings);
    assert ScrollMotion(Touched(), 1, Point(10.0, 0.0)) == Panned();
  }

  lemma PannedConsistent()
    ensures Consistent(Panned())
  {
  }

  lemma PannedApply(distance: Distance)
    ensures Apply(Touched(), Move(1, Point(10.0, 0.0)), distance) == Some(Panned())
  {
    TouchedStep(distance);
    MotionApplies(Touched(), 1, Point(10.0, 0.0), distance);
    PannedMotion(distance);
  }

  lemma PannedStep(distance: Distance)
    ensures Consistent(Panned())
    ensures Apply(Touched(), Move(1, Point(10.0, 0.0)), distance) == Some(Panned())
  {
    PannedConsistent();
    PannedApply(distance);
  }

  lemma PanRun(distance: Distance)
    ensures Run(Initial<int>(), [Down(1, Origin)] + [Move(1, Point(10.0, 0.0))], distance) == Some(Panned())
  {
    TouchedStep(distance);
    PannedStep(distance);
    RunOne(Touched(), Move(1, Point(10.0, 0.0)), Panned(), distance);
    RunThrough(Initial(), Down(1, Origin), Touched(), [Move(1, Point(10.0, 0.0))], Panned(), distance);
  }

  lemma PanInputs()
    ensures [Down(1, Origin)] + [Move(1, Point(10.0, 0.0))] == [Down(1, Origin), Move(1, Point(10.0, 0.0))]
  {
  }

  /** One finger dragged 10 to the right scrolls the view 10 to the left. */
  lemma OneFingerPanScrolls(distance: Distance)
    ensures var r := Run(Initial<int>(), [Down(1, Origin), Move(1, Point(10.0, 0.0))], distance);
      r.Some? && r.value.trace == [ScrollRelative(-10.0, 0.0)] && r.value.priLastAbs == Point(10.0, 0.0)
  {
    PanRun(distance);
    PanInputs();
  }

  // ----- two fingers -----

  const Far: Point := Point(100.0, 0.0)

  /** Fingers 1 at the origin and 2 at Far, ready to start a zoom. */
  function TwoDown(): HandlerState<int>
  {
    Touched().(validActive := [NewActiveEvent(1, Origin), NewActiveEvent(2, Far)], secLastAbs := Far,
               startZoomReady := true)
  }

  lemma TwoDownConsistent()
    ensures Consistent(TwoDown())
  {
  }

  lemma TwoDownStep(distance: Distance)
    ensures Consistent(TwoDown())
    ensures Apply(Touched(), Down(2, Far), distance) == Some(TwoDown())
  {
    PressApplies(Touched(), 2, Far, distance);
    assert Press(Touched(), 2, Far) == TwoDown();
  }

  /** The first motion of finger 1 (not moving at all) started a zoom sequence at the midpoint. */
  function ZoomStarted(start: real): HandlerState<int>
  {
    TwoDown().(zooming := true, startZoomDistance := start, canBlockZoom := true,
               lastZoomScrollCenter := Point(50.0, 0.0), trace := [StartZoomSequence(Point(50.0, 0.0))],
               startZoomReady := false)
  }

  /** Finger 1 has not moved since it was pressed. */
  lemma TwoDownStill()
    ensures TrackMotion(TwoDown(), 1, Origin) == TwoDown()
    ensures SequenceStart(TwoDown(), 1, Origin) == TwoDown()
  {
    assert IndexOf(TwoDown().validActive, 1) == Some(0);
    TrackStill(TwoDown(), 1, 0);
  }

  lemma ZoomFromTwoDown(distance: Distance)
    ensures ZoomStart(TwoDown(), distance, Settings) == ZoomStarted(StartDistance(distance(Origin, Far)))
  {
    var two := TwoDown();
    assert two.priLastAbs == Origin && two.secLastAbs == Far && two.trace == [];
    assert Midpoint(Origin, Far) == Point(50.0, 0.0);
    var z := ZoomStart(two, distance, Settings);
    assert z.trace == [StartZoomSequence(Point(50.0, 0.0))];
  }

  lemma ZoomStartedMotion(distance: Distance)
    ensures Motion(TwoDown(), 1, Origin, distance, Settings) == ZoomStarted(StartDistance(distance(Origin, Far)))
  {
    TwoDownConsistent();
    assert StartsZoom(TwoDown(), 1, Settings);
    MotionCases(TwoDown(), 1, Origin, distance, Settings);
    TwoDownStill();
    ZoomFromTwoDown(distance);
  }

  lemma ZoomStartedConsistent(start: real)
    requires start != 0.0
    ensures Consistent(ZoomStarted(start))
  {
    assert ZoomOpen(ZoomStarted(start).trace);
  }

  lemma ZoomStartedStep(distance: Distance)
    ensures Consistent(ZoomStarted(StartDistance(distance(Origin, Far))))
    ensures Apply(TwoDown(), Move(1, Origin), distance) == Some(ZoomStarted(StartDistance(distance(Origin, Far))))
  {
    ZoomStartedConsistent(StartDistance(distance(Origin, Far)));
    TwoDownConsistent();
    MotionApplies(TwoDown(), 1, Origin, distance);
    ZoomStartedMotion(distance);
  }

  /** The same step, for a distance function that measures the two fingers 100 apart. */
  lemma ZoomStartedAt100(distance: Distance)
    requires distance(Origin, Far) == 100.0
    ensures Apply(TwoDown(), Move(1, Origin), distance) == Some(ZoomStarted(100.0))
  {
    ZoomStartedStep(distance);
  }

  /** Finger 1 moved 5 to the left: a 5 percent change, below the threshold. */
  function SmallPinch(): HandlerState<int>
  {
    ZoomStarted(100.0).(validActive := [ActiveEvent(1, Origin, Point(-5.0, 0.0)), NewActiveEvent(2, Far)],
                        priLastAbs := Point(-5.0, 0.0), lastZoomScrollCenter := Point(47.5, 0.0),
                        trace := ZoomStarted(100.0).trace + [ZoomSequenceChange(1.0, true, Point(-2.5, 0.0))])
  }

  lemma SmallPinchMotion(distance: Distance)
    requires distance(Point(-5.0, 0.0), Far) == 105.0
    requires Consistent(ZoomStarted(100.0))
    ensures Motion(ZoomStarted(100.0), 1, Point(-5.0, 0.0), distance, Settings) == SmallPinch()
  {
    MotionCases(ZoomStarted(100.0), 1, Point(-5.0, 0.0), distance, Settings);
    var t := TrackMotion(ZoomStarted(100.0), 1, Point(-5.0, 0.0));
    assert t == ZoomStarted(100.0).(validActive := SmallPinch().validActive);
    assert ZoomMotion(t, 1, Point(-5.0, 0.0), distance, 10.0) == SmallPinch();
  }

  lemma SmallPinchConsistent()
    ensures Consistent(ZoomStarted(100.0)) && Consistent(SmallPinch())
  {
    assert ZoomOpen(ZoomStarted(100.0).trace);
    ZoomOpenAppend(ZoomStarted(100.0).trace, ZoomSequenceChange(1.0, true, Point(-2.5, 0.0)));
    EndsMatchedAppend(ZoomStarted(100.0).trace, ZoomSequenceChange(1.0, true, Point(-2.5, 0.0)));
  }

  lemma SmallPinchStep(distance: Distance)
    requires distance(Point(-5.0, 0.0), Far) == 105.0
    ensures Consistent(ZoomStarted(100.0)) && Consistent(SmallPinch())
    ensures Apply(ZoomStarted(100.0), Move(1, Point(-5.0, 0.0)), distance) == Some(SmallPinch())
  {
    SmallPinchConsistent();
    MotionApplies(ZoomStarted(100.0), 1, Point(-5.0, 0.0), distance);
    SmallPinchMotion(distance);
  }

  /** Finger 1 moved 50 to the left: a 50 percent change, reported as the zoom 1.5. */
  function LargePinch(): HandlerState<int>
  {
    SmallPinch().(validActive := [ActiveEvent(1, Origin, Point(-50.0, 0.0)), NewActiveEvent(2, Far)],
                  priLastAbs := Point(-50.0, 0.0), canBlockZoom := false, lastZoomScrollCenter := Point(25.0, 0.0),
                  trace := SmallPinch().trace + [ZoomSequenceChange(1.5, true, Point(-22.5, 0.0))])
  }

  lemma LargePinchMotion(distance: Distance)
    requires distance(Point(-50.0, 0.0), Far) == 150.0
    requires Consistent(SmallPinch())
    ensures Motion(SmallPinch(), 1, Point(-50.0, 0.0), distance, Settings) == LargePinch()
  {
    MotionCases(SmallPinch(), 1, Point(-50.0, 0.0), distance, Settings);
    var t := TrackMotion(SmallPinch(), 1, Point(-50.0, 0.0));
    assert t == SmallPinch().(validActive := LargePinch().validActive);
    assert ZoomMotion(t, 1, Point(-50.0, 0.0), distance, 10.0) == LargePinch();
  }

  lemma LargePinchConsistent()
    ensures Consistent(SmallPinch()) && Consistent(LargePinch())
  {
    SmallPinchConsistent();
    ZoomOpenAppend(SmallPinch().trace, ZoomSequenceChange(1.5, true, Point(-22.5, 0.0)));
    EndsMatchedAppend(SmallPinch().trace, ZoomSequenceChange(1.5, true, Point(-22.5, 0.0)));
  }

  lemma LargePinchStep(distance: Distance)
    requires distance(Point(-50.0, 0.0), Far) == 150.0
    ensures Consistent(SmallPinch()) && Consistent(LargePinch())
    ensures Apply(SmallPinch(), Move(1, Point(-50.0, 0.0)), distance) == Some(LargePinch())
  {
    LargePinchConsistent();
    MotionApplies(SmallPinch(), 1, Point(-50.0, 0.0), distance);
    LargePinchMotion(distance);
  }

  /** Finger 1 lifted: the zoom sequence ended and finger 2 stays valid. */
  function PinchEnded(): HandlerState<int>
  {
    LargePinch().(zooming := false, validActive := [NewActiveEvent(2, Far)],
                  trace := LargePinch().trace + [EndZoomSequence])
  }

  lemma PinchEndedStep(distance: Distance)
    requires distance(Point(-5.0, 0.0), Far) == 105.0
    requires distance(Point(-50.0, 0.0), Far) == 150.0
    ensures Consistent(PinchEnded())
    ensures Apply(LargePinch(), Up(1, Point(-50.0, 0.0)), distance) == Some(PinchEnded())
  {
    LargePinchStep(distance);
    ReleaseEndsZoom(LargePinch(), 1, Point(-50.0, 0.0), distance);
    ReleaseKeepsConsistent(LargePinch(), 1, Point(-50.0, 0.0), distance);
    ReleaseApplies(LargePinch(), 1, Point(-50.0, 0.0), distance);
    assert RemoveFirst(LargePinch().validActive, 1) == [NewActiveEvent(2, Far)];
  }

  /** The pinch from its last input backwards, one input per lemma. */
  lemma PinchRunFromLarge(distance: Distance)
    requires distance(Point(-5.0, 0.0), Far) == 105.0
    requires distance(Point(-50.0, 0.0), Far) == 150.0
    ensures Consistent(LargePinch())
    ensures Run(LargePinch(), [Up(1, Point(-50.0, 0.0))], distance) == Some(PinchEnded())
  {
    PinchEndedStep(distance);
    RunStep(LargePinch(), Up(1, Point(-50.0, 0.0)), [], distance);
    assert [Up(1, Point(-50.0, 0.0))] + [] == [Up(1, Point(-50.0, 0.0))];
  }

  lemma PinchRunFromSmall(distance: Distance)
    requires distance(Point(-5.0, 0.0), Far) == 105.0
    requires distance(Point(-50.0, 0.0), Far) == 150.0
    ensures Consistent(SmallPinch())
    ensures Run(SmallPinch(), [Move(1, Point(-50.0, 0.0)), Up(1, Point(-50.0, 0.0))], distance) == Some(PinchEnded())
  {
    PinchRunFromLarge(distance);
    LargePinchStep(distance);
    RunStep(SmallPinch(), Move(1, Point(-50.0, 0.0)), [Up(1, Point(-50.0, 0.0))], distance);
  }

  lemma PinchRunFromStart(distance: Distance)
    requires distance(Point(-5.0, 0.0), Far) == 105.0
    requires distance(Point(-50.0, 0.0), Far) == 150.0
    ensures Consistent(ZoomStarted(100.0))
    ensures Run(ZoomStarted(100.0), PinchMoves(), distance) == Some(PinchEnded())
  {
    PinchRunFromSmall(distance);
    SmallPinchStep(distance);
    var rest := [Move(1, Point(-50.0, 0.0)), Up(1, Point(-50.0, 0.0))];
    RunStep(ZoomStarted(100.0), Move(1, Point(-5.0, 0.0)), rest, distance);
    assert [Move(1, Point(-5.0, 0.0))] + rest == PinchMoves();
  }

  lemma PinchRunFromTwo(distance: Distance)
    requires distance(Origin, Far) == 100.0
    requires distance(Point(-5.0, 0.0), Far) == 105.0
    requires distance(Point(-50.0, 0.0), Far) == 150.0
    ensures Consistent(TwoDown())
    ensures Run(TwoDown(), [Move(1, Origin)] + PinchMoves(), distance) == Some(PinchEnded())
  {
    PinchRunFromStart(distance);
    ZoomStartedAt100(distance);
    TwoDownConsistent();
    RunStep(TwoDown(), Move(1, Origin), PinchMoves(), distance);
  }

  lemma PinchRunFromTouched(distance: Distance)
    requires distance(Origin, Far) == 100.0
    requires distance(Point(-5.0, 0.0), Far) == 105.0
    requires distance(Point(-50.0, 0.0), Far) == 150.0
    ensures Run(Touched(), [Down(2, Far)] + ([Move(1, Origin)] + PinchMoves()), distance) == Some(PinchEnded())
  {
    PinchRunFromTwo(distance);
    TwoDownStep(distance);
    RunStep(Touched(), Down(2, Far), [Move(1, Origin)] + PinchMoves(), distance);
  }

  lemma PinchRun(distance: Distance)
    requires distance(Origin, Far) == 100.0
    requires distance(Point(-5.0, 0.0), Far) == 105.0
    requires distance(Point(-50.0, 0.0), Far) == 150.0
    ensures Run(Initial<int>(), PinchInputs(), distance) == Some(PinchEnded())
  {
    PinchRunFromTouched(distance);
    TouchedStep(distance);
    RunStep(Initial(), Down(1, Origin), [Down(2, Far)] + ([Move(1, Origin)] + PinchMoves()), distance);
    PinchInputsSplit();
  }

  /** The pinch after its first motion: finger 1 drawn 5, then 50, to the left, and lifted. */
  function PinchMoves(): seq<Input<int>>
  {
    [Move(1, Point(-5.0, 0.0)), Move(1, Point(-50.0, 0.0)), Up(1, Point(-50.0, 0.0))]
  }

  lemma PinchInputsSplit()
    ensures PinchInputs() == [Down(1, Origin)] + ([Down(2, Far)] + ([Move(1, Origin)] + PinchMoves()))
  {
  }

  function PinchInputs(): seq<Input<int>>
  {
    [Down(1, Origin), Down(2, Far), Move(1, Origin), Move(1, Point(-5.0, 0.0)), Move(1, Point(-50.0, 0.0)),
     Up(1, Point(-50.0, 0.0))]
  }

  /** A pinch: the first motion of the first finger starts the zoom sequence at the midpoint,
      a change of 5 percent stays below the threshold and is reported as no zoom, a change
      of 50 percent is reported as the ratio of the distances, and lifting a finger ends
      the sequence. */
  lemma PinchZooms(distance: Distance)
    requires distance(Origin, Far) == 100.0
    requires distance(Point(-5.0, 0.0), Far) == 105.0
    requires distance(Point(-50.0, 0.0), Far) == 150.0
    ensures var r := Run(Initial<int>(), PinchInputs(), distance);
      && r.Some?
      && r.value.trace == [StartZoomSequence(Point(50.0, 0.0)),
                           ZoomSequenceChange(1.0, true, Point(-2.5, 0.0)),
                           ZoomSequenceChange(1.5, true, Point(-22.5, 0.0)),
                           EndZoomSequence]
      && !r.value.zooming && !r.value.canBlockZoom
      && r.value.validActive == [NewActiveEvent(2, Far)]
  {
    PinchRun(distance);
    PinchEndedTrace();
  }

  lemma PinchEndedTrace()
    ensures PinchEnded().trace == [StartZoomSequence(Point(50.0, 0.0)),
                                   ZoomSequenceChange(1.0, true, Point(-2.5, 0.0)),
                                   ZoomSequenceChange(1.5, true, Point(-22.5, 0.0)),
                                   EndZoomSequence]
  {
  }

  // ----- taps -----

  /** Runs that begin with finger 1 down at the origin and finger 2 down at Far. */
  lemma AfterTwoDown(rest: seq<Input<int>>, t: HandlerState<int>, distance: Distance)
    requires Run(TwoDown(), rest, distance) == Some(t)
    ensures Run(Initial(), [Down(1, Origin), Down(2, Far)] + rest, distance) == Some(t)
  {
    TouchedStep(distance);
    TwoDownStep(distance);
    RunThrough(Touched(), Down(2, Far), TwoDown(), rest, t, distance);
    RunThrough(Initial(), Down(1, Origin), Touched(), [Down(2, Far)] + rest, t, distance);
    assert [Down(1, Origin)] + ([Down(2, Far)] + rest) == [Down(1, Origin), Down(2, Far)] + rest;
  }

  /** Point::distance puts a point at distance 0 from itself, within the tap slop. */
  predicate StillIsTap(distance: Distance)
  {
    Abs(distance(Origin, Origin)) <= TapSlop
  }

  /** Finger 1 of two lifted without either moving: one undo, finger 2 quarantined. */
  function Undone(): HandlerState<int>
  {
    TwoDown().(validActive := [], invalidActive := {2}, trace := [Undo])
  }

  lemma UndoneStep(distance: Distance)
    requires StillIsTap(distance)
    ensures Consistent(Undone())
    ensures Apply(TwoDown(), Up(1, Origin), distance) == Some(Undone())
  {
    UndoneRelease(distance);
    ReleaseApplies(TwoDown(), 1, Origin, distance);
    ReleaseKeepsConsistent(TwoDown(), 1, Origin, distance);
  }

  lemma UndoneRelease(distance: Distance)
    requires StillIsTap(distance)
    ensures Release(TwoDown(), 1, Origin, distance) == Undone()
  {
    assert TapValid(TwoDown().validActive, distance);
    assert Ids(TwoDown().validActive) == {1, 2};
    TwoFingerTapUndoes(TwoDown(), 1, Origin, distance);
    assert TwoDown().invalidActive + {1, 2} - {1} == {2};
  }

  /** Both fingers lifted after the undo. */
  function TapDone(): HandlerState<int>
  {
    Undone().(invalidActive := {})
  }

  lemma TapDoneStep(distance: Distance)
    requires StillIsTap(distance)
    ensures Consistent(TapDone())
    ensures Apply(Undone(), Up(2, Far), distance) == Some(TapDone())
  {
    UndoneStep(distance);
    ManyFingerRelease(Undone(), 2, Far, distance);
    ReleaseApplies(Undone(), 2, Far, distance);
  }

  lemma TwoFingerTapRun(distance: Distance)
    requires StillIsTap(distance)
    ensures Run(TwoDown(), [Up(1, Origin), Up(2, Far)], distance) == Some(TapDone())
  {
    UndoneStep(distance);
    TapDoneStep(distance);
    RunStep(Undone(), Up(2, Far), [], distance);
    assert [Up(2, Far)] + [] == [Up(2, Far)];
    RunStep(TwoDown(), Up(1, Origin), [Up(2, Far)], distance);
  }

  /** A two-finger tap undoes once and leaves the handler with no contact at all. */
  lemma TwoFingerTapUndoesOnce(distance: Distance)
    requires StillIsTap(distance)
    ensures var r := Run(Initial<int>(), [Down(1, Origin), Down(2, Far), Up(1, Origin), Up(2, Far)], distance);
      r.Some? && r.value.trace == [Undo] && r.value.validActive == [] && r.value.invalidActive == {}
  {
    TwoFingerTapRun(distance);
    AfterTwoDown([Up(1, Origin), Up(2, Far)], TapDone(), distance);
    assert [Down(1, Origin), Down(2, Far)] + [Up(1, Origin), Up(2, Far)]
        == [Down(1, Origin), Down(2, Far), Up(1, Origin), Up(2, Far)];
  }

  const Third: Point := Point(0.0, 100.0)
  const Fourth: Point := Point(100.0, 100.0)

  function ThreeDown(): HandlerState<int>
  {
    TwoDown().(validActive := TwoDown().validActive + [NewActiveEvent(3, Third)], secLastAbs := Third)
  }

  lemma ThreeDownStep(distance: Distance)
    ensures Consistent(ThreeDown())
    ensures Apply(TwoDown(), Down(3, Third), distance) == Some(ThreeDown())
  {
    PressApplies(TwoDown(), 3, Third, distance);
    assert Press(TwoDown(), 3, Third) == ThreeDown();
  }

  lemma ThreeDownIds()
    ensures Ids(ThreeDown().validActive) == {1, 2, 3}
  {
  }

  /** Finger 1 of three lifted without any of them moving. */
  function Redone(): HandlerState<int>
  {
    ThreeDown().(validActive := [], invalidActive := {2, 3}, trace := [Redo])
  }

  lemma RedoneRelease(distance: Distance)
    requires StillIsTap(distance)
    ensures Release(ThreeDown(), 1, Origin, distance) == Redone()
  {
    assert TapValid(ThreeDown().validActive, distance);
    ThreeDownIds();
    ManyFingerRelease(ThreeDown(), 1, Origin, distance);
    assert ThreeDown().invalidActive + {1, 2, 3} - {1} == {2, 3};
  }

  lemma RedoneStep(distance: Distance)
    requires StillIsTap(distance)
    ensures Consistent(ThreeDown()) && Consistent(Redone())
    ensures Apply(ThreeDown(), Up(1, Origin), distance) == Some(Redone())
  {
    ThreeDownStep(distance);
    RedoneRelease(distance);
    ReleaseApplies(ThreeDown(), 1, Origin, distance);
    ReleaseKeepsConsistent(ThreeDown(), 1, Origin, distance);
  }

  lemma ThreeFingerTapRun(distance: Distance)
    requires StillIsTap(distance)
    ensures Run(TwoDown(), [Down(3, Third), Up(1, Origin)], distance) == Some(Redone())
  {
    RedoneStep(distance);
    ThreeDownStep(distance);
    RunStep(ThreeDown(), Up(1, Origin), [], distance);
    assert [Up(1, Origin)] + [] == [Up(1, Origin)];
    RunStep(TwoDown(), Down(3, Third), [Up(1, Origin)], distance);
  }

  /** Lifting one of three still fingers redoes once and quarantines the other two. */
  lemma ThreeFingerTapRedoes(distance: Distance)
    requires StillIsTap(distance)
    ensures var r := Run(Initial<int>(), [Down(1, Origin), Down(2, Far), Down(3, Third), Up(1, Origin)], distance);
      r.Some? && r.value.trace == [Redo] && r.value.validActive == [] && r.value.invalidActive == {2, 3}
  {
    ThreeFingerTapRun(distance);
    AfterTwoDown([Down(3, Third), Up(1, Origin)], Redone(), distance);
    assert [Down(1, Origin), Down(2, Far)] + [Down(3, Third), Up(1, Origin)]
        == [Down(1, Origin), Down(2, Far), Down(3, Third), Up(1, Origin)];
  }

  function FourDown(): HandlerState<int>
  {
    ThreeDown().(validActive := ThreeDown().validActive + [NewActiveEvent(4, Fourth)], secLastAbs := Fourth)
  }

  lemma FourDownRun(distance: Distance)
    ensures Consistent(FourDown())
    ensures Run(Initial(), [Down(1, Origin), Down(2, Far), Down(3, Third), Down(4, Fourth)], distance) == Some(FourDown())
  {
    ThreeDownStep(distance);
    PressApplies(ThreeDown(), 4, Fourth, distance);
    assert Press(ThreeDown(), 4, Fourth) == FourDown();
    PressKeepsConsistent(ThreeDown(), 4, Fourth);
    RunStep(ThreeDown(), Down(4, Fourth), [], distance);
    assert [Down(4, Fourth)] + [] == [Down(4, Fourth)];
    RunStep(TwoDown(), Down(3, Third), [Down(4, Fourth)], distance);
    AfterTwoDown([Down(3, Third), Down(4, Fourth)], FourDown(), distance);
  }

  lemma FourDownIds()
    ensures Ids(FourDown().validActive) == {1, 2, 3, 4}
  {
    var v := FourDown().validActive;
    ThreeDownIds();
    assert v[..3] == ThreeDown().validActive;
  }

  /** Finger 4 of four lifted without any of them moving. */
  function ToolboxShown(): HandlerState<int>
  {
    FourDown().(validActive := [], invalidActive := {1, 2, 3}, trace := [ShowFloatingToolbox(100.0, 100.0)])
  }

  lemma FourDownTap(distance: Distance)
    requires StillIsTap(distance)
    ensures TapValid(FourDown().validActive, distance)
  {
  }

  lemma ToolboxShownState()
    ensures FourDown().(validActive := [], invalidActive := FourDown().invalidActive + Ids(FourDown().validActive) - {4},
                        trace := FourDown().trace + TapCall(4, Fourth)) == ToolboxShown()
  {
    FourDownIds();
    assert FourDown().invalidActive + {1, 2, 3, 4} - {4} == {1, 2, 3};
  }

  lemma ToolboxShownRelease(distance: Distance)
    requires StillIsTap(distance)
    ensures Release(FourDown(), 4, Fourth, distance) == ToolboxShown()
  {
    FourDownTap(distance);
    ManyFingerRelease(FourDown(), 4, Fourth, distance);
    ToolboxShownState();
  }

  lemma ToolboxShownRun(distance: Distance)
    requires StillIsTap(distance)
    ensures Run(FourDown(), [Up(4, Fourth)], distance) == Some(ToolboxShown())
  {
    FourDownRun(distance);
    ToolboxShownRelease(distance);
    ReleaseApplies(FourDown(), 4, Fourth, distance);
    ReleaseKeepsConsistent(FourDown(), 4, Fourth, distance);
    RunStep(FourDown(), Up(4, Fourth), [], distance);
    assert [Up(4, Fourth)] + [] == [Up(4, Fourth)];
  }

  /** Lifting one of four still fingers shows the floating toolbox where that finger was lifted. */
  lemma FourFingerTapShowsToolbox(distance: Distance)
    requires StillIsTap(distance)
    ensures var r := Run(Initial<int>(), [Down(1, Origin), Down(2, Far), Down(3, Third), Down(4, Fourth),
                                          Up(4, Fourth)], distance);
      r.Some? && r.value.trace == [ShowFloatingToolbox(100.0, 100.0)] && r.value.invalidActive == {1, 2, 3}
  {
    var downs := [Down(1, Origin), Down(2, Far), Down(3, Third), Down(4, Fourth)];
    FourDownRun(distance);
    ToolboxShownRun(distance);
    RunAppend(Initial(), downs, [Up(4, Fourth)], distance);
    assert downs + [Up(4, Fourth)] == [Down(1, Origin), Down(2, Far), Down(3, Third), Down(4, Fourth), Up(4, Fourth)];
  }

  // ----- a missed release -----

  /** After the two-finger tap, finger 4 touches down while finger 2 is still quarantined. */
  function Quarantined(): HandlerState<int>
  {
    Undone().(invalidActive := {2, 4})
  }

  /** A second press of finger 2: its release was missed, the quarantine is forgotten. */
  function Readmitted(): HandlerState<int>
  {
    Undone().(validActive := [NewActiveEvent(2, Far)], invalidActive := {}, priLastAbs := Far)
  }

  /** Finger 3 joins finger 2; finger 4 is still down but known to neither list. */
  function Rejoined(): HandlerState<int>
  {
    Readmitted().(validActive := [NewActiveEvent(2, Far), NewActiveEvent(3, Third)], secLastAbs := Third)
  }

  lemma MissedReleaseSteps(distance: Distance)
    requires StillIsTap(distance)
    ensures Consistent(Undone()) && Consistent(Quarantined()) && Consistent(Readmitted()) && Consistent(Rejoined())
    ensures Apply(Undone(), Down(4, Fourth), distance) == Some(Quarantined())
    ensures Apply(Quarantined(), Down(2, Far), distance) == Some(Readmitted())
    ensures Apply(Readmitted(), Down(3, Third), distance) == Some(Rejoined())
  {
    UndoneStep(distance);
    PressApplies(Undone(), 4, Fourth, distance);
    PressApplies(Quarantined(), 2, Far, distance);
    PressApplies(Readmitted(), 3, Third, distance);
    assert Undone().invalidActive + {4} == {2, 4};
    assert Press(Undone(), 4, Fourth) == Quarantined();
    assert Press(Quarantined(), 2, Far) == Readmitted();
    assert Press(Readmitted(), 3, Third) == Rejoined();
  }

  lemma MissedReleaseRun(distance: Distance)
    requires StillIsTap(distance)
    ensures Run(Undone(), [Down(4, Fourth), Down(2, Far), Down(3, Third)], distance) == Some(Rejoined())
  {
    MissedReleaseSteps(distance);
    RunOne(Readmitted(), Down(3, Third), Rejoined(), distance);
    RunThrough(Quarantined(), Down(2, Far), Readmitted(), [Down(3, Third)], Rejoined(), distance);
    RunThrough(Undone(), Down(4, Fourth), Quarantined(), [Down(2, Far)] + [Down(3, Third)], Rejoined(), distance);
    assert [Down(4, Fourth)] + ([Down(2, Far)] + [Down(3, Third)]) == [Down(4, Fourth), Down(2, Far), Down(3, Third)];
  }

  lemma UnknownMotionStops(distance: Distance)
    requires StillIsTap(distance)
    ensures !MotionDefined(Rejoined(), 4)
    ensures Run(Rejoined(), [Move(4, Fourth)], distance).None?
  {
    MissedReleaseSteps(distance);
    assert Ids(Rejoined().validActive) == {2, 3};
    assert Handle(Rejoined(), InputEvent(MotionEvent, Some(4), Fourth), Settings, distance).Undefined?;
  }

  /** The motion that findEvent does not find is reachable: after a two-finger tap, a finger
      pressed while the other is quarantined is quarantined too, a missed release of the
      other empties the quarantine, and once two contacts are valid again the quarantined
      finger's motion reaches the dereference of `end()`. */
  lemma TapThenPresses()
    ensures ([Down(1, Origin), Down(2, Far)] + [Up(1, Origin)]) + [Down(4, Fourth), Down(2, Far), Down(3, Third)]
         == [Down(1, Origin), Down(2, Far), Up(1, Origin), Down(4, Fourth), Down(2, Far), Down(3, Third)]
    ensures (([Down(1, Origin), Down(2, Far)] + [Up(1, Origin)]) + [Down(4, Fourth), Down(2, Far), Down(3, Third)])
            + [Move(4, Fourth)]
         == [Down(1, Origin), Down(2, Far), Up(1, Origin), Down(4, Fourth), Down(2, Far), Down(3, Third), Move(4, Fourth)]
  {
  }

  lemma UnknownMotionReachable(distance: Distance)
    requires StillIsTap(distance)
    ensures Run(Initial<int>(), [Down(1, Origin), Down(2, Far), Up(1, Origin),
                                 Down(4, Fourth), Down(2, Far), Down(3, Third)], distance) == Some(Rejoined())
    ensures !MotionDefined(Rejoined(), 4)
    ensures Run(Initial<int>(), [Down(1, Origin), Down(2, Far), Up(1, Origin),
                                 Down(4, Fourth), Down(2, Far), Down(3, Third), Move(4, Fourth)], distance).None?
  {
    var tap := [Down(1, Origin), Down(2, Far)] + [Up(1, Origin)];
    var presses := [Down(4, Fourth), Down(2, Far), Down(3, Third)];
    UndoneStep(distance);
    TwoDownConsistent();
    RunOne(TwoDown(), Up(1, Origin), Undone(), distance);
    AfterTwoDown([Up(1, Origin)], Undone(), distance);
    MissedReleaseRun(distance);
    RunAppend(Initial(), tap, presses, distance);
    UnknownMotionStops(distance);
    RunAppend(Initial(), tap + presses, [Move(4, Fourth)], distance);
    TapThenPresses();
  }

  // ----- a zoom without contacts -----

  /** The zoom started by finger 1 on the handler with fingers 1 and 2 down. */
  lemma ZoomStartedRun(distance: Distance)
    ensures var z := ZoomStarted(StartDistance(distance(Origin, Far)));
      Consistent(z) && Run(Initial(), [Down(1, Origin), Down(2, Far)] + [Move(1, Origin)], distance) == Some(z)
  {
    var z := ZoomStarted(StartDistance(distance(Origin, Far)));
    ZoomStartedStep(distance);
    TwoDownConsistent();
    RunOne(TwoDown(), Move(1, Origin), z, distance);
    AfterTwoDown([Move(1, Origin)], z, distance);
  }

  /** A third finger joins during the zoom. */
  function ZoomThree(start: real): HandlerState<int>
  {
    ZoomStarted(start).(validActive := ZoomStarted(start).validActive + [NewActiveEvent(3, Third)], secLastAbs := Third)
  }

  /** Every finger of ZoomThree lifted but those in `quarantine`; the zoom is still open. */
  function Deserted(start: real, quarantine: set<int>): HandlerState<int>
  {
    ZoomThree(start).(validActive := [], invalidActive := quarantine, trace := ZoomStarted(start).trace + [Redo])
  }

  lemma ZoomThreeSteps(distance: Distance, start: real)
    requires StillIsTap(distance) && start != 0.0
    ensures Consistent(ZoomStarted(start)) && Consistent(ZoomThree(start))
    ensures Apply(ZoomStarted(start), Down(3, Third), distance) == Some(ZoomThree(start))
    ensures Release(ZoomThree(start), 3, Third, distance) == Deserted(start, {1, 2})
  {
    assert ZoomOpen(ZoomStarted(start).trace);
    PressApplies(ZoomStarted(start), 3, Third, distance);
    assert Press(ZoomStarted(start), 3, Third) == ZoomThree(start);
    var v := ZoomThree(start).validActive;
    assert TapValid(v, distance);
    assert Ids(v) == {1, 2, 3};
    ManyFingerRelease(ZoomThree(start), 3, Third, distance);
    assert ZoomThree(start).invalidActive + {1, 2, 3} - {3} == {1, 2};
  }

  lemma DesertedSteps(distance: Distance, start: real)
    requires StillIsTap(distance) && start != 0.0
    ensures Consistent(Deserted(start, {1, 2})) && Consistent(Deserted(start, {2})) && Consistent(Deserted(start, {}))
    ensures Apply(ZoomThree(start), Up(3, Third), distance) == Some(Deserted(start, {1, 2}))
    ensures Apply(Deserted(start, {1, 2}), Up(1, Origin), distance) == Some(Deserted(start, {2}))
    ensures Apply(Deserted(start, {2}), Up(2, Far), distance) == Some(Deserted(start, {}))
  {
    ZoomThreeSteps(distance, start);
    ReleaseKeepsConsistent(ZoomThree(start), 3, Third, distance);
    ReleaseApplies(ZoomThree(start), 3, Third, distance);
    ManyFingerRelease(Deserted(start, {1, 2}), 1, Origin, distance);
    assert {1, 2} + Ids([]) - {1} == {2};
    ReleaseApplies(Deserted(start, {1, 2}), 1, Origin, distance);
    ManyFingerRelease(Deserted(start, {2}), 2, Far, distance);
    assert {2} + Ids([]) - {2} == {};
    ReleaseApplies(Deserted(start, {2}), 2, Far, distance);
  }

  lemma DesertedOpen(start: real)
    ensures Deserted(start, {}).zooming && ZoomOpen(Deserted(start, {}).trace)
  {
    assert ZoomOpen(ZoomStarted(start).trace);
  }

  lemma DesertedRun(distance: Distance, start: real)
    requires StillIsTap(distance) && start != 0.0
    ensures Run(ZoomStarted(start), [Down(3, Third)] + ([Up(3, Third)] + ([Up(1, Origin)] + [Up(2, Far)])), distance)
         == Some(Deserted(start, {}))
  {
    ZoomThreeSteps(distance, start);
    DesertedSteps(distance, start);
    RunOne(Deserted(start, {2}), Up(2, Far), Deserted(start, {}), distance);
    RunThrough(Deserted(start, {1, 2}), Up(1, Origin), Deserted(start, {2}), [Up(2, Far)], Deserted(start, {}), distance);
    RunThrough(ZoomThree(start), Up(3, Third), Deserted(start, {1, 2}), [Up(1, Origin)] + [Up(2, Far)],
               Deserted(start, {}), distance);
    RunThrough(ZoomStarted(start), Down(3, Third), ZoomThree(start), [Up(3, Third)] + ([Up(1, Origin)] + [Up(2, Far)]),
               Deserted(start, {}), distance);
  }

  /** A zoom outlives its contacts: a third finger during a zoom makes its release quarantine
      every contact without ending the zoom, and once all fingers are lifted the handler
      tracks no contact while the host's zoom sequence is still open. */
  lemma ZoomOutlivesContacts(distance: Distance)
    requires StillIsTap(distance)
    ensures var r := Run(Initial<int>(), [Down(1, Origin), Down(2, Far), Move(1, Origin),
                                          Down(3, Third), Up(3, Third), Up(1, Origin), Up(2, Far)], distance);
      && r.Some? && r.value.validActive == [] && r.value.invalidActive == {}
      && r.value.zooming && ZoomOpen(r.value.trace)
  {
    var start := StartDistance(distance(Origin, Far));
    ZoomStartedRun(distance);
    DesertedRun(distance, start);
    DesertedOpen(start);
    RunAppend(Initial(), [Down(1, Origin), Down(2, Far)] + [Move(1, Origin)],
              [Down(3, Third)] + ([Up(3, Third)] + ([Up(1, Origin)] + [Up(2, Far)])), distance);
    ZoomThenLift();
  }

  lemma ZoomThenLift()
    ensures ([Down(1, Origin), Down(2, Far)] + [Move(1, Origin)])
            + ([Down(3, Third)] + ([Up(3, Third)] + ([Up(1, Origin)] + [Up(2, Far)])))
         == [Down(1, Origin), Down(2, Far), Move(1, Origin), Down(3, Third), Up(3, Third), Up(1, Origin), Up(2, Far)]
  {
  }

  // ----- block and unblock -----

  function Suspended(start: real): HandlerState<int>
  {
    OnUnblock(ZoomStarted(start).(zooming := false, trace := ZoomStarted(start).trace + [EndZoomSequence]))
  }

  lemma SuspendedRun(distance: Distance, start: real)
    requires start != 0.0
    ensures Run(ZoomStarted(start), [Input<int>.Block, Input<int>.Unblock], distance) == Some(Suspended(start))
  {
    var blocked := ZoomStarted(start).(zooming := false, trace := ZoomStarted(start).trace + [EndZoomSequence]);
    assert ZoomOpen(ZoomStarted(start).trace);
    OnBlockKeepsConsistent(ZoomStarted(start));
    assert Apply(ZoomStarted(start), Block, distance) == Some(blocked);
    RunStep(blocked, Unblock, [], distance);
    assert [Input<int>.Unblock] + [] == [Input<int>.Unblock];
    RunStep(ZoomStarted(start), Block, [Unblock], distance);
  }

  /** Blocking the handler during a zoom ends the zoom sequence; unblocking forgets every
      contact but leaves canBlockZoom set. */
  lemma BlockEndsZoom(distance: Distance)
    ensures var r := Run(Initial<int>(), [Down(1, Origin), Down(2, Far), Move(1, Origin), Block, Unblock], distance);
      && r.Some? && r.value.trace == [StartZoomSequence(Point(50.0, 0.0)), EndZoomSequence]
      && !r.value.zooming && r.value.validActive == [] && r.value.invalidActive == {}
      && r.value.canBlockZoom
  {
    var start := StartDistance(distance(Origin, Far));
    var zoom := [Down(1, Origin), Down(2, Far)] + [Move(1, Origin)];
    ZoomStartedRun(distance);
    SuspendedRun(distance, start);
    RunAppend(Initial(), zoom, [Block, Unblock], distance);
    ZoomThenBlock();
  }

  lemma ZoomThenBlock()
    ensures ([Down(1, Origin), Down(2, Far)] + [Move(1, Origin)]) + [Input<int>.Block, Input<int>.Unblock]
         == [Down(1, Origin), Down(2, Far), Move(1, Origin), Block, Unblock]
  {
  }
}
