/** The TouchInputHandler itself: the fields of the source class, updated in place by
    methods that follow the source statement by statement. Each method is proved to
    leave the handler in the state that the function of the same name in TouchModel
    computes from the state before, and the entry points to keep Consistent. */
module TouchInput {
  import opened Points
  import opened TouchModel

  class TouchInputHandler<Id(==)> {
    /** Point::distance */
    const distance: Distance

    var zooming: bool
    var invalidActive: set<Id>
    var validActive: seq<ActiveEvent<Id>>
    var startZoomDistance: real
    var lastZoomScrollCenter: Point
    var priLastAbs: Point
    var secLastAbs: Point
    /** True if a zoom sequence may be started by a motion event. */
    var startZoomReady: bool
    var canBlockZoom: bool
    /** The calls made on the host so far. */
    var trace: seq<HostCall>

    function State(): HandlerState<Id>
      reads this
    {
      HandlerState(zooming, invalidActive, validActive, startZoomDistance, lastZoomScrollCenter,
                   priLastAbs, secLastAbs, startZoomReady, canBlockZoom, trace)
    }

    ghost predicate Valid()
      reads this
    {
      Consistent(State())
    }

    constructor (distance: Distance)
      ensures this.distance == distance
      ensures State() == Initial()
      ensures !zooming && !startZoomReady && !canBlockZoom
      ensures validActive == [] && invalidActive == {} && trace == []
      ensures Valid()
    {
      this.distance := distance;
      zooming := false;
      invalidActive := {};
      validActive := [];
      startZoomDistance := 0.0;
      lastZoomScrollCenter := Origin;
      priLastAbs := Unset;
      secLastAbs := Unset;
      startZoomReady := false;
      canBlockZoom := false;
      trace := [];
    }

    // ----- the collections -----

    method FindEvent(id: Id) returns (r: Option<nat>)
      ensures r == IndexOf(validActive, id)
    {
      var i := 0;
      while i < |validActive|
        invariant 0 <= i <= |validActive|
        invariant forall j :: 0 <= j < i ==> validActive[j].sequence != id
      {
        if id == validActive[i].sequence {
          return Some(i);
        }
        i := i + 1;
      }
      return None;
    }

    method RemoveValidEvent(id: Id) returns (removed: bool)
      modifies this
      ensures removed == (id in Ids(old(validActive)))
      ensures State() == old(State()).(validActive := RemoveFirst(old(validActive), id))
    {
      RemoveFirstErases(validActive, id);
      var i := 0;
      while i < |validActive|
        invariant 0 <= i <= |validActive|
        invariant forall j :: 0 <= j < i ==> validActive[j].sequence != id
        invariant State() == old(State())
      {
        if id == validActive[i].sequence {
          validActive := validActive[..i] + validActive[i + 1..];
          return true;
        }
        i := i + 1;
      }
      return false;
    }

    method TapGestureValid() returns (valid: bool)
      ensures valid == TapValid(validActive, distance)
    {
      for i := 0 to |validActive|
        invariant forall j :: 0 <= j < i ==> Abs(distance(Origin, validActive[j].distMoved)) <= TapSlop
      {
        if Abs(distance(Origin, validActive[i].distMoved)) > TapSlop {
          return false;
        }
      }
      return true;
    }

    method InvalidateAllValid()
      modifies this
      ensures State() == TouchModel.InvalidateAllValid(old(State()))
    {
      for i := 0 to |validActive|
        invariant validActive == old(validActive) && trace == old(trace) && zooming == old(zooming)
        invariant startZoomDistance == old(startZoomDistance) && lastZoomScrollCenter == old(lastZoomScrollCenter)
        invariant priLastAbs == old(priLastAbs) && secLastAbs == old(secLastAbs)
        invariant startZoomReady == old(startZoomReady) && canBlockZoom == old(canBlockZoom)
        invariant invalidActive == old(invalidActive) + Ids(validActive[..i])
      {
        IdsOfPrefix(old(invalidActive), validActive, i);
        invalidActive := invalidActive + {validActive[i].sequence};
      }
      assert validActive[..|validActive|] == validActive;
      validActive := [];
    }

    // ----- the gesture steps -----

    method SequenceStart(id: Id, absolute: Point)
      requires |validActive| > 0
      modifies this
      ensures State() == TouchModel.SequenceStart(old(State()), id, absolute)
    {
      if validActive[0].sequence == id {
        priLastAbs := absolute;
      } else {
        secLastAbs := absolute;
      }
    }

    method ScrollMotion(id: Id, absolute: Point)
      requires |validActive| > 0
      modifies this
      ensures State() == TouchModel.ScrollMotion(old(State()), id, absolute)
    {
      var offset: Point;
      if id == validActive[0].sequence {
        offset := Minus(absolute, priLastAbs);
        priLastAbs := absolute;
      } else {
        offset := Minus(absolute, secLastAbs);
        secLastAbs := absolute;
      }
      trace := trace + [ScrollRelative(-offset.x, -offset.y)];
    }

    method ZoomStart(ctx: Context)
      modifies this
      ensures State() == TouchModel.ZoomStart(old(State()), distance, ctx)
    {
      zooming := true;
      startZoomDistance := distance(priLastAbs, secLastAbs);
      if startZoomDistance == 0.0 {
        startZoomDistance := MinStartZoomDistance;
      }
      canBlockZoom := true;
      if ctx.zoomFitMode {
        trace := trace + [SetZoomFitMode(false)];
      }
      var center := Midpoint(priLastAbs, secLastAbs);
      lastZoomScrollCenter := center;
      center := Plus(center, ctx.negativeWidgetPos);
      trace := trace + [StartZoomSequence(center)];
      startZoomReady := false;
    }

    method ZoomMotion(id: Id, absolute: Point, threshold: real)
      requires |validActive| > 0
      requires startZoomDistance != 0.0
      modifies this
      ensures State() == TouchModel.ZoomMotion(old(State()), id, absolute, distance, threshold)
    {
      if id == validActive[0].sequence {
        priLastAbs := absolute;
      } else {
        secLastAbs := absolute;
      }
      var d := distance(priLastAbs, secLastAbs);
      var zoom := d / startZoomDistance;
      var zoomChangePercentage := Abs(d - startZoomDistance) / startZoomDistance * 100.0;
      if canBlockZoom && zoomChangePercentage < threshold {
        zoom := 1.0;
      } else {
        canBlockZoom := false;
      }
      var center := Midpoint(priLastAbs, secLastAbs);
      trace := trace + [ZoomSequenceChange(zoom, true, Minus(center, lastZoomScrollCenter))];
      lastZoomScrollCenter := center;
    }

    method ZoomEnd()
      modifies this
      ensures State() == TouchModel.ZoomEnd(old(State()))
    {
      zooming := false;
      trace := trace + [EndZoomSequence];
    }

    // ----- the entry points -----

    method Press(id: Id, absolute: Point)
      requires Valid()
      modifies this
      ensures Valid()
      ensures State() == TouchModel.Press(old(State()), id, absolute)
    {
      if id in invalidActive {
        // a release of this sequence was missed: forget every quarantined contact
        invalidActive := {};
      }
      if invalidActive == {} {
        validActive := validActive + [NewActiveEvent(id, absolute)];
        SequenceStart(id, absolute);
        if |validActive| == 2 {
          startZoomReady := true;
        }
      } else {
        invalidActive := invalidActive + {id};
      }
      PressKeepsConsistent(old(State()), id, absolute);
    }

    method Motion(id: Id, absolute: Point, ctx: Context)
      requires Valid()
      requires MotionDefined(State(), id)
      modifies this
      ensures Valid()
      ensures State() == TouchModel.Motion(old(State()), id, absolute, distance, ctx)
    {
      TouchModel.MotionCases(old(State()), id, absolute, distance, ctx);
      if |validActive| > 1 {
        var ev := FindEvent(id);
        var k := ev.value;
        validActive := validActive[k := validActive[k].Moved(absolute)];
      }
      assert State() == TouchModel.TrackMotion(old(State()), id, absolute);
      if |validActive| == 1 {
        ScrollMotion(id, absolute);
      } else if |validActive| == 2 {
        if validActive[0].sequence == id || validActive[1].sequence == id {
          if ctx.zoomGesturesEnabled {
            if startZoomReady {
              if validActive[0].sequence == id {
                SequenceStart(id, absolute);
                ZoomStart(ctx);
              }
            } else {
              ZoomMotion(id, absolute, ctx.touchZoomStartThreshold);
            }
          } else {
            ScrollMotion(id, absolute);
          }
        }
      }
      MotionKeepsConsistent(old(State()), id, absolute, distance, ctx);
    }

    /** The switch of handleImpl for a release, on the number of valid contacts. */
    method ReleaseDispatch(id: Id, absolute: Point)
      modifies this
      ensures State() == TouchModel.ReleaseDispatch(old(State()), id, absolute, distance)
    {
      if |validActive| == 1 {
      } else if |validActive| == 2 {
        // only a release of one of the two contacts that make the gesture counts
        if validActive[0].sequence == id || validActive[1].sequence == id {
          if zooming {
            ZoomEnd();
          } else {
            var tap := TapGestureValid();
            if tap {
              trace := trace + [Undo];
              InvalidateAllValid();
            }
          }
        }
      } else if |validActive| == 3 {
        var tap := TapGestureValid();
        if tap {
          trace := trace + [Redo];
        }
        InvalidateAllValid();
      } else if |validActive| == 4 {
        var tap := TapGestureValid();
        if tap {
          trace := trace + [ShowFloatingToolbox(absolute.x, absolute.y)];
        }
        InvalidateAllValid();
      } else {
        InvalidateAllValid();
      }
    }

    method Release(id: Id, absolute: Point)
      requires Valid()
      modifies this
      ensures Valid()
      ensures State() == TouchModel.Release(old(State()), id, absolute, distance)
    {
      ReleaseDispatch(id, absolute);
      var removed := RemoveValidEvent(id);
      if !removed {
        invalidActive := invalidActive - {id};
      }
      ReleaseKeepsConsistent(old(State()), id, absolute, distance);
    }

    /** handleImpl */
    method Handle(event: InputEvent<Id>, ctx: Context) returns (consumed: bool)
      requires Valid()
      requires event.kind.MotionEvent? && event.sequence.Some? ==> MotionDefined(State(), event.sequence.value)
      modifies this
      ensures Valid()
      ensures TouchModel.Handle(old(State()), event, ctx, distance) == Handled(State(), consumed)
    {
      if event.sequence.None? {
        return false;
      }
      var id := event.sequence.value;
      if event.kind.ButtonPressEvent? {
        Press(id, event.absolute);
        return true;
      }
      if event.kind.MotionEvent? {
        Motion(id, event.absolute, ctx);
        return true;
      }
      if event.kind.ButtonReleaseEvent? {
        Release(id, event.absolute);
        return true;
      }
      return false;
    }

    method OnBlock()
      requires Valid()
      modifies this
      ensures Valid()
      ensures State() == TouchModel.OnBlock(old(State()))
    {
      if zooming {
        ZoomEnd();
      }
      OnBlockKeepsConsistent(old(State()));
    }

    method OnUnblock()
      requires Valid()
      modifies this
      ensures Valid()
      ensures State() == TouchModel.OnUnblock(old(State()))
    {
      validActive := [];
      invalidActive := {};
      startZoomDistance := 0.0;
      lastZoomScrollCenter := Origin;
      priLastAbs := Unset;
      secLastAbs := Unset;
    }
  }
}
