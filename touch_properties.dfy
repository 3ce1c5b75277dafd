/** What the handler promises, stated over the functions of TouchModel. */
module TouchProperties {
  import opened Points
  import opened TouchModel

  // ----- release -----

  /** Lifting one of two valid contacts during a zoom ends the zoom and drops that contact. */
  lemma ReleaseEndsZoom<Id>(s: HandlerState<Id>, id: Id, absolute: Point, distance: Distance)
    requires |s.validActive| == 2 && id in Ids(s.validActive) && s.zooming
    ensures var r := Release(s, id, absolute, distance);
      && !r.zooming && r.trace == s.trace + [EndZoomSequence]
      && r.validActive == RemoveFirst(s.validActive, id) && |r.validActive| == 1
      && r.invalidActive == s.invalidActive
  {
    RemoveFirstErases(s.validActive, id);
  }

  /** A two-finger tap: exactly one undo, and both contacts are quarantined; the lifted
      one then leaves the quarantine at once. */
  lemma TwoFingerTapUndoes<Id>(s: HandlerState<Id>, id: Id, absolute: Point, distance: Distance)
    requires |s.validActive| == 2 && id in Ids(s.validActive) && !s.zooming
    requires TapValid(s.validActive, distance)
    ensures Release(s, id, absolute, distance)
         == s.(validActive := [], invalidActive := s.invalidActive + Ids(s.validActive) - {id},
               trace := s.trace + [Undo])
  {
  }

  /** Two contacts that moved too far for a tap, and no zoom: the lifted contact is dropped
      and nothing is called. */
  lemma TwoFingerDragReleases<Id>(s: HandlerState<Id>, id: Id, absolute: Point, distance: Distance)
    requires |s.validActive| == 2 && id in Ids(s.validActive) && !s.zooming
    requires !TapValid(s.validActive, distance)
    ensures Release(s, id, absolute, distance) == s.(validActive := RemoveFirst(s.validActive, id))
  {
  }

  /** With two valid contacts, a release of any other sequence only leaves the quarantine. */
  lemma TwoFingerForeignRelease<Id>(s: HandlerState<Id>, id: Id, absolute: Point, distance: Distance)
    requires |s.validActive| == 2 && id !in Ids(s.validActive)
    ensures Release(s, id, absolute, distance) == s.(invalidActive := s.invalidActive - {id})
  {
  }

  /** Releasing anything while 0, 3, 4 or more contacts are valid quarantines every valid
      contact, the tap of 3 (redo) or 4 (floating toolbox) fingers fires when no contact
      moved too far, and `zooming` is not looked at. */
  lemma ManyFingerRelease<Id>(s: HandlerState<Id>, id: Id, absolute: Point, distance: Distance)
    requires |s.validActive| != 1 && |s.validActive| != 2
    ensures Release(s, id, absolute, distance)
         == s.(validActive := [], invalidActive := s.invalidActive + Ids(s.validActive) - {id},
               trace := s.trace + (if TapValid(s.validActive, distance) then TapCall(|s.validActive|, absolute) else []))
  {
  }

  /** With one valid contact there is no gesture: the contact is dropped if it is the one lifted. */
  lemma OneFingerRelease<Id>(s: HandlerState<Id>, id: Id, absolute: Point, distance: Distance)
    requires |s.validActive| == 1
    ensures Release(s, id, absolute, distance)
         == if s.validActive[0].sequence == id then s.(validActive := [])
            else s.(invalidActive := s.invalidActive - {id})
  {
  }

  /** A release of a sequence the handler does not track changes nothing, as long as fewer
      than three contacts are valid. */
  lemma UntrackedReleaseKeepsState<Id>(s: HandlerState<Id>, id: Id, absolute: Point, distance: Distance)
    requires |s.validActive| <= 2 && id !in Ids(s.validActive) && id !in s.invalidActive
    ensures Release(s, id, absolute, distance) == s
  {
    if |s.validActive| == 0 {
      ManyFingerRelease(s, id, absolute, distance);
      assert Ids(s.validActive) == {};
      assert s.invalidActive + Ids(s.validActive) - {id} == s.invalidActive;
    } else if |s.validActive| == 1 {
      OneFingerRelease(s, id, absolute, distance);
      assert s.invalidActive - {id} == s.invalidActive;
    } else {
      TwoFingerForeignRelease(s, id, absolute, distance);
      assert s.invalidActive - {id} == s.invalidActive;
    }
  }

  // ----- press -----

  /** The code does not keep the valid sequences distinct: a second press for a valid
      sequence is admitted as another contact. */
  lemma RepeatedPressDuplicates<Id>(s: HandlerState<Id>, id: Id, absolute: Point)
    requires Consistent(s) && id in Ids(s.validActive)
    ensures !DistinctIds(Press(s, id, absolute).validActive)
  {
    var k := IndexOf(s.validActive, id).value;
    var r := Press(s, id, absolute);
    assert r.validActive[k].sequence == r.validActive[|s.validActive|].sequence;
  }

  // ----- motion -----

  /** With no valid contact a motion changes nothing; with three or more it only records the
      displacement of the moving contact. */
  lemma MotionIgnored<Id>(s: HandlerState<Id>, id: Id, absolute: Point, distance: Distance, ctx: Context)
    requires Consistent(s) && MotionDefined(s, id)
    requires |s.validActive| == 0 || |s.validActive| >= 3
    ensures var r := Motion(s, id, absolute, distance, ctx);
      && (|s.validActive| == 0 ==> r == s)
      && (|s.validActive| >= 3 ==>
            var k := IndexOf(s.validActive, id).value;
            r == s.(validActive := s.validActive[k := s.validActive[k].Moved(absolute)]))
  {
    MotionCases(s, id, absolute, distance, ctx);
  }

  /** One contact, or two with zoom gestures off, scrolls by the negated displacement from the
      contact's reference point, which then holds the new position. */
  lemma MotionScrolls<Id>(s: HandlerState<Id>, id: Id, absolute: Point, distance: Distance, ctx: Context)
    requires Consistent(s) && MotionDefined(s, id)
    requires |s.validActive| == 1 || (|s.validActive| == 2 && !ctx.zoomGesturesEnabled)
    ensures var r := Motion(s, id, absolute, distance, ctx);
      && r.trace == s.trace + [ScrollRelative(LastAbs(s, id).x - absolute.x, LastAbs(s, id).y - absolute.y)]
      && LastAbs(r, id) == absolute
      && r.zooming == s.zooming && r.canBlockZoom == s.canBlockZoom
  {
    MotionCases(s, id, absolute, distance, ctx);
    var t := TrackMotion(s, id, absolute);
    assert LastAbs(t, id) == LastAbs(s, id);
  }

  /** `canBlockZoom`, once cleared, stays cleared until a motion starts the next zoom. */
  lemma CanBlockZoomOnlyRaisedByZoomStart<Id>(s: HandlerState<Id>, input: Input<Id>, distance: Distance)
    requires Consistent(s) && !s.canBlockZoom
    requires Apply(s, input, distance).Some? && Apply(s, input, distance).value.canBlockZoom
    ensures input.Touch? && input.event.kind.MotionEvent? && input.event.sequence.Some?
    ensures StartsZoom(s, input.event.sequence.value, input.context)
  {
    match input
    case Touch(e, ctx) => {
      match e.kind
      case ButtonPressEvent =>
      case MotionEvent =>
      case ButtonReleaseEvent =>
      case OtherEvent =>
    }
    case Block =>
    case Unblock =>
  }

  /** During a zoom, a pinch that stays below the threshold is reported as no zoom at all. */
  lemma BlockedPinchReportsNoZoom<Id>(s: HandlerState<Id>, id: Id, absolute: Point, distance: Distance, ctx: Context)
    requires Consistent(s) && MotionDefined(s, id)
    requires |s.validActive| == 2 && id in Ids(s.validActive)
    requires ctx.zoomGesturesEnabled && !s.startZoomReady && s.canBlockZoom
    requires var m := TrackMotion(s, id, absolute);
      var p := SequenceStart(m, id, absolute);
      ZoomChangePercentage(distance(p.priLastAbs, p.secLastAbs), s.startZoomDistance) < ctx.touchZoomStartThreshold
    ensures var r := Motion(s, id, absolute, distance, ctx);
      r.canBlockZoom && r.trace[..|s.trace|] == s.trace && |r.trace| == |s.trace| + 1
      && r.trace[|s.trace|].ZoomSequenceChange? && r.trace[|s.trace|].zoom == 1.0
  {
  }

  // ----- block and unblock -----

  /** After onBlock the host has no open zoom sequence. */
  lemma {:induction false} OnBlockClosesZoom<Id>(s: HandlerState<Id>)
    requires Consistent(s)
    ensures !ZoomOpen(OnBlock(s).trace)
  {
    if s.zooming {
      ZoomOpenAppend(s.trace, EndZoomSequence);
    }
  }

  lemma OnUnblockIdempotent<Id>(s: HandlerState<Id>)
    ensures OnUnblock(OnUnblock(s)) == OnUnblock(s)
  {
  }

  // ----- the collections -----

  ghost predicate DistinctIds<Id>(events: seq<ActiveEvent<Id>>)
  {
    forall i, j :: 0 <= i < j < |events| ==> events[i].sequence != events[j].sequence
  }

  /** In a consistent handler no sequence is both valid and quarantined. */
  lemma ValidAndInvalidDisjoint<Id>(s: HandlerState<Id>)
    requires Consistent(s)
    ensures Ids(s.validActive) !! s.invalidActive
  {
  }

  /** Removing the first contact of a sequence keeps the others distinct and, when they
      were distinct, leaves no contact of that sequence. */
  lemma {:induction false} RemoveFirstOfDistinct<Id>(events: seq<ActiveEvent<Id>>, id: Id)
    requires DistinctIds(events)
    ensures DistinctIds(RemoveFirst(events, id))
    ensures Ids(RemoveFirst(events, id)) == Ids(events) - {id}
  {
    RemoveFirstErases(events, id);
    match IndexOf(events, id)
    case None =>
      assert Ids(events) - {id} == Ids(events);
    case Some(k) =>
      DropKeepsDistinct(events, k);
      DropRemovesId(events, k);
  }

  /** The position in a list of the `i`th element left after dropping position `k`. */
  function Skip(i: nat, k: nat): nat
  {
    if i < k then i else i + 1
  }

  lemma DropKeepsDistinct<Id>(events: seq<ActiveEvent<Id>>, k: nat)
    requires k < |events| && DistinctIds(events)
    ensures DistinctIds(events[..k] + events[k + 1..])
  {
    var r := events[..k] + events[k + 1..];
    forall i, j | 0 <= i < j < |r|
      ensures r[i].sequence != r[j].sequence
    {
      assert r[i] == events[Skip(i, k)];
      assert r[j] == events[Skip(j, k)];
    }
  }

  lemma DropRemovesId<Id>(events: seq<ActiveEvent<Id>>, k: nat)
    requires k < |events| && DistinctIds(events)
    ensures Ids(events[..k] + events[k + 1..]) == Ids(events) - {events[k].sequence}
  {
    DropKeepsOthers(events, k);
    DropLosesId(events, k);
  }

  lemma DropKeepsOthers<Id>(events: seq<ActiveEvent<Id>>, k: nat)
    requires k < |events|
    ensures Ids(events) - {events[k].sequence} <= Ids(events[..k] + events[k + 1..])
  {
    forall x | x in Ids(events) - {events[k].sequence}
      ensures x in Ids(events[..k] + events[k + 1..])
    {
      var i :| 0 <= i < |events| && events[i].sequence == x;
      DropKeepsAt(events, k, i);
    }
  }

  lemma DropKeepsAt<Id>(events: seq<ActiveEvent<Id>>, k: nat, i: nat)
    requires k < |events| && i < |events| && i != k
    ensures events[i].sequence in Ids(events[..k] + events[k + 1..])
  {
    var r := events[..k] + events[k + 1..];
    var j := if i < k then i else i - 1;
    assert r[j] == events[i];
    assert r[j].sequence in Ids(r);
  }

  lemma DropLosesId<Id>(events: seq<ActiveEvent<Id>>, k: nat)
    requires k < |events| && DistinctIds(events)
    ensures Ids(events[..k] + events[k + 1..]) <= Ids(events) - {events[k].sequence}
  {
    var r := events[..k] + events[k + 1..];
    forall x | x in Ids(r)
      ensures x in Ids(events) - {events[k].sequence}
    {
      var i :| 0 <= i < |r| && r[i].sequence == x;
      assert r[i] == events[Skip(i, k)];
    }
  }

  /** A press keeps the valid sequences distinct when it is not for a valid sequence. */
  lemma PressKeepsDistinct<Id>(s: HandlerState<Id>, id: Id, absolute: Point)
    requires DistinctIds(s.validActive) && id !in Ids(s.validActive)
    ensures DistinctIds(Press(s, id, absolute).validActive)
  {
  }

  lemma MotionKeepsDistinct<Id>(s: HandlerState<Id>, id: Id, absolute: Point, distance: Distance, ctx: Context)
    requires Consistent(s) && MotionDefined(s, id) && DistinctIds(s.validActive)
    ensures DistinctIds(Motion(s, id, absolute, distance, ctx).validActive)
  {
  }

  lemma ReleaseKeepsDistinct<Id>(s: HandlerState<Id>, id: Id, absolute: Point, distance: Distance)
    requires DistinctIds(s.validActive)
    ensures DistinctIds(Release(s, id, absolute, distance).validActive)
    ensures id !in Ids(Release(s, id, absolute, distance).validActive)
  {
    var v := s.validActive;
    RemoveFirstOfDistinct(v, id);
    if |v| == 1 {
      OneFingerRelease(s, id, absolute, distance);
    } else if |v| == 2 {
      if id !in Ids(v) {
        TwoFingerForeignRelease(s, id, absolute, distance);
      } else if s.zooming {
        ReleaseEndsZoom(s, id, absolute, distance);
      } else if TapValid(v, distance) {
        TwoFingerTapUndoes(s, id, absolute, distance);
      } else {
        TwoFingerDragReleases(s, id, absolute, distance);
      }
    } else {
      ManyFingerRelease(s, id, absolute, distance);
    }
  }

  /** The input does not press a sequence that is already a valid contact. */
  predicate NoRepeatedPress<Id(==)>(s: HandlerState<Id>, input: Input<Id>)
  {
    (input.Touch? && input.event.kind == ButtonPressEvent && input.event.sequence.Some?) ==>
      input.event.sequence.value !in Ids(s.validActive)
  }

  /** Under that assumption every input keeps the valid sequences distinct. */
  lemma {:induction false} ApplyKeepsDistinct<Id>(s: HandlerState<Id>, input: Input<Id>, distance: Distance)
    requires Consistent(s) && DistinctIds(s.validActive) && NoRepeatedPress(s, input)
    requires Apply(s, input, distance).Some?
    ensures DistinctIds(Apply(s, input, distance).value.validActive)
  {
    match input
    case Touch(e, ctx) => {
      if e.sequence.Some? {
        var id := e.sequence.value;
        match e.kind
        case ButtonPressEvent => PressKeepsDistinct(s, id, e.absolute);
        case MotionEvent => MotionKeepsDistinct(s, id, e.absolute, distance, ctx);
        case ButtonReleaseEvent => ReleaseKeepsDistinct(s, id, e.absolute, distance);
        case OtherEvent =>
      }
    }
    case Block =>
    case Unblock =>
  }

  // ----- runs -----

  /** A consistent state that accepts an input stays consistent, and a run through it continues from its successor. */
  lemma RunStep<Id>(s: HandlerState<Id>, input: Input<Id>, rest: seq<Input<Id>>, distance: Distance)
    requires Consistent(s) && Apply(s, input, distance).Some?
    ensures Consistent(Apply(s, input, distance).value)
    ensures Run(s, [input] + rest, distance) == Run(Apply(s, input, distance).value, rest, distance)
  {
    ApplyKeepsConsistent(s, input, distance);
    assert ([input] + rest)[1..] == rest;
  }

  /** A run that starts with an input leading to `next` continues from `next`. */
  lemma RunThrough<Id>(s: HandlerState<Id>, input: Input<Id>, next: HandlerState<Id>, rest: seq<Input<Id>>,
                       t: HandlerState<Id>, distance: Distance)
    requires Consistent(s) && Consistent(next) && Apply(s, input, distance) == Some(next)
    requires Run(next, rest, distance) == Some(t)
    ensures Run(s, [input] + rest, distance) == Some(t)
  {
    RunStep(s, input, rest, distance);
  }

  /** A run of one accepted input ends where that input leads. */
  lemma RunOne<Id>(s: HandlerState<Id>, input: Input<Id>, t: HandlerState<Id>, distance: Distance)
    requires Consistent(s) && Apply(s, input, distance) == Some(t)
    ensures Run(s, [input], distance) == Some(t)
  {
    RunStep(s, input, [], distance);
    assert [input] + [] == [input];
  }

  /** Running two lists of inputs one after the other is running their concatenation. */
  lemma {:induction false} RunAppend<Id>(s: HandlerState<Id>, first: seq<Input<Id>>, second: seq<Input<Id>>, distance: Distance)
    requires Consistent(s)
    ensures Run(s, first, distance).None? ==> Run(s, first + second, distance).None?
    ensures Run(s, first, distance).Some? ==> Run(s, first + second, distance) == Run(Run(s, first, distance).value, second, distance)
    decreases |first|
  {
    if first == [] {
      assert first + second == second;
    } else {
      assert (first + second)[0] == first[0] && (first + second)[1..] == first[1..] + second;
      var next := Apply(s, first[0], distance);
      if next.Some? {
        ApplyKeepsConsistent(s, first[0], distance);
        RunAppend(next.value, first[1..], second, distance);
      }
    }
  }
}
