# TouchInputHandler, modelled in Dafny

Xournal++ turns raw touch events into gestures in `TouchInputHandler`:
- one finger scrolls the view;
- two fingers pinch-zoom;
- a tap with two, three or four fingers performs undo, redo or shows the floating toolbox.

The handler keeps this state:
- an ordered list of *valid* contacts (`validActive`; index 0 is the primary contact);
- a set of *quarantined* sequences (`invalidActive`);
- the flags `zooming`, `startZoomReady` and `canBlockZoom`;
- the reference points of the primary and secondary contact;
- the start distance and the last centre of a zoom.

This project models that handler in four layers.

- `points.dfy` (module `Points`): points over exact reals. `Point::distance` is a parameter of type `Distance`: its square root cannot be written over the reals, and no property of it is assumed.
- `touch_model.dfy` (module `TouchModel`): the handler state as a value (`HandlerState`). Each operation of the source is a function from the state before to the state after, and each call the handler makes on its host is appended to `trace`. The host calls are scroll, zoom-fit off, zoom start/change/end, undo, redo and floating toolbox. The module also holds:
  - `Consistent`, the invariant every reachable state satisfies: a contact is quarantined only while no contact is valid; zoomMotion never divides by a zero start distance; `zooming` is true exactly when the host has an open zoom sequence; no zoom end is sent without an open sequence.
  - Lemmas proving that every entry point keeps `Consistent`.
  - `Run`, which feeds a list of inputs to a handler.
- `touch_input_handler.dfy` (module `TouchInput`): the class `TouchInputHandler`, with the fields of the source class and one method per member function. The loops of `findEvent`, `removeValidEvent`, `tapGestureValid` and `invalidateAllValid` are written as loops with invariants. Each method that changes the object is proved to leave it in exactly the state that the function of the same name computes; `RemoveValidEvent` leaves the state that `RemoveFirst` computes. The methods that change nothing are proved against a function or predicate too: `FindEvent` returns `IndexOf`, and `TapGestureValid` returns `TapValid`.
- `touch_properties.dfy` (module `TouchProperties`): what the handler promises, as lemmas over those functions. This covers:
  - the release cases;
  - that `canBlockZoom` is only raised by a zoom start;
  - onBlock closing the host's zoom;
  - onUnblock being idempotent;
  - when the valid sequences stay distinct;
  - running concatenated input lists.
- `touch_scenarios.dfy` (module `TouchScenarios`): whole gestures from a fresh handler. These are a pan, a pinch, the two-, three- and four-finger taps, a block during a zoom, and two behaviours of the code as written:
  - a motion that reaches the dereference of `findEvent`'s `end()`;
  - a zoom that stays open after every finger is lifted.

The source code is followed as written:
- a release with 0, 3, 4 or 5 and more valid contacts quarantines every valid contact and does not look at `zooming`;
- onUnblock does not reset the three flags;
- a third press overwrites the secondary reference point;
- scrollMotion measures any contact other than `validActive[0]` from the secondary point;
- `distMoved` is the displacement from the press position, updated only while two or more contacts are valid.

`abs` in `tapGestureValid` is unqualified while the file includes `<cmath>`. It is read as the floating-point absolute value (`Abs`), not as a truncation to `int`.

## Model

| member | source | states |
|---|---|---|
| TouchModel.ActiveEvent.Moved | src/core/gui/inputdevices/TouchInputHandler.cpp:296-299 | `moved` keeps the sequence and press position, and the new displacement added to the press position gives the event position |
| TouchModel.NewActiveEvent | src/core/gui/inputdevices/TouchInputHandler.cpp:291-294 | a new contact has the event's sequence, is pressed at the event position and has not moved |
| TouchModel.IndexOf | src/core/gui/inputdevices/TouchInputHandler.cpp:164-174 | findEvent finds the first contact with the sequence, and finds none exactly when the sequence is not valid |
| TouchModel.RemoveFirstErases | src/core/gui/inputdevices/TouchInputHandler.cpp:141-150 | the erase drops only the first contact of the sequence, keeps the order of the rest, and changes nothing when there is none |
| TouchModel.InvalidateAllValid | src/core/gui/inputdevices/TouchInputHandler.cpp:133-139 | the quarantine becomes exactly the old quarantine plus every valid sequence, the list is emptied, and nothing else changes |
| TouchModel.SequenceStart | src/core/gui/inputdevices/TouchInputHandler.cpp:176-184 | the primary reference point moves for the contact at index 0, the secondary one for any other, and nothing else changes |
| TouchModel.ScrollMotion | src/core/gui/inputdevices/TouchInputHandler.cpp:186-201 | exactly one scroll by the negated displacement from the contact's reference point, which then holds the new position |
| TouchModel.StartDistance | src/core/gui/inputdevices/TouchInputHandler.cpp:205-209 | the start distance is never zero: it equals the measured distance whenever that is not zero, and 0.01 when it is |
| TouchModel.ZoomStart | src/core/gui/inputdevices/TouchInputHandler.cpp:203-236 | zooming, canBlockZoom set and startZoomReady cleared; zoom-fit mode is switched off when on; one zoom start is sent at the midpoint plus the widget offset |
| TouchModel.ZoomMotion | src/core/gui/inputdevices/TouchInputHandler.cpp:238-264 | canBlockZoom stays set exactly while it was set and the change is below the threshold; the reported zoom is then 1.0, else the distance ratio; the offset is the move of the midpoint |
| TouchModel.ZoomEnd | src/core/gui/inputdevices/TouchInputHandler.cpp:266-270 | zooming is cleared and one zoom end is sent |
| TouchModel.Press | src/core/gui/inputdevices/TouchInputHandler.cpp:30-49 | an admitted press appends one contact, empties the quarantine and arms the zoom at two contacts, and sets the pressed contact's reference point while keeping the other one; any other press only joins the quarantine |
| TouchModel.TrackMotion | src/core/gui/inputdevices/TouchInputHandler.cpp:52-55 | with two or more valid contacts, only the moving contact's displacement is rewritten; with at most one the state is unchanged |
| TouchModel.Motion | src/core/gui/inputdevices/TouchInputHandler.cpp:51-81 | a motion keeps the quarantine, the contacts' sequences, order and press positions; it disarms the zoom and sets zooming exactly when it starts a zoom (contact 0 moving while armed), which stores a non-zero start distance; canBlockZoom is only raised by that start; with at most one contact no displacement is updated |
| TouchModel.MotionStartsZoom | src/core/gui/inputdevices/TouchInputHandler.cpp:64-68 | the motion that starts a zoom measures the start distance from the new primary point to the secondary one and sends zoom-fit off (when on) and one zoom start at their midpoint |
| TouchModel.MotionOtherwise | src/core/gui/inputdevices/TouchInputHandler.cpp:51-81 | any other motion sends at most one call, and never a zoom start or end |
| TouchProperties.MotionScrolls | src/core/gui/inputdevices/TouchInputHandler.cpp:57-60 | with one contact, or two and zoom gestures off, a motion sends one scroll by the negated displacement from the contact's reference point, which moves to the event, and zooming and canBlockZoom are untouched |
| TouchProperties.MotionIgnored | src/core/gui/inputdevices/TouchInputHandler.cpp:52-56 | with no contact a motion changes nothing; with three or more it only records the moving contact's displacement and makes no call |
| TouchModel.ReleaseDispatch | src/core/gui/inputdevices/TouchInputHandler.cpp:84-121 | the switch on the count of valid contacts never opens a zoom, keeps the earlier host calls and appends at most one, leaves flags and points alone, and either moves every valid sequence into the quarantine (always with three or more) or leaves both collections as they were |
| TouchModel.ReleaseDispatchKeepsConsistent | src/core/gui/inputdevices/TouchInputHandler.cpp:84-121 | the release switch keeps the handler invariant; its zoom end is only sent for an open zoom |
| TouchModel.Release | src/core/gui/inputdevices/TouchInputHandler.cpp:83-128 | a release never opens a zoom, keeps the earlier host calls and appends at most one, and leaves the flags, the zoom distance and the reference points alone |
| TouchModel.OnBlock | src/core/gui/inputdevices/TouchInputHandler.cpp:272-276 | an open zoom is ended with exactly one zoom end; otherwise nothing changes |
| TouchModel.OnUnblock | src/core/gui/inputdevices/TouchInputHandler.cpp:278-289 | both collections are emptied, the reference points become (-1,-1), distance 0 and centre the origin; flags and calls are untouched |
| TouchModel.Handle | src/core/gui/inputdevices/TouchInputHandler.cpp:22-131 | an event without sequence, or of another kind, is not consumed and changes nothing; a press, a motion and a release are consumed and produce exactly the state of Press, Motion and Release; the result is undefined exactly for a motion of a sequence findEvent cannot find |
| TouchModel.PressKeepsConsistent | src/core/gui/inputdevices/TouchInputHandler.cpp:30-49 | a press keeps the handler invariant |
| TouchModel.MotionKeepsConsistent | src/core/gui/inputdevices/TouchInputHandler.cpp:51-81 | a motion keeps the handler invariant: no division by a zero start distance, zooming matches the host's open sequence |
| TouchModel.ReleaseKeepsConsistent | src/core/gui/inputdevices/TouchInputHandler.cpp:83-128 | a release keeps the handler invariant; a zoom end is only sent for an open zoom |
| TouchModel.OnBlockKeepsConsistent | src/core/gui/inputdevices/TouchInputHandler.cpp:272-276 | onBlock keeps the handler invariant |
| TouchModel.ApplyKeepsConsistent | src/core/gui/inputdevices/TouchInputHandler.cpp:22-131 | every defined input keeps the handler invariant |
| TouchModel.Run | src/core/gui/inputdevices/TouchInputHandler.cpp:22-131 | every state reached from a consistent state by a defined run is consistent |
| TouchInput.TouchInputHandler.constructor | src/core/gui/inputdevices/TouchInputHandler.h:39-57 | a fresh handler has all three flags false, no contacts, no calls, reference points (-1,-1), distance 0, centre at the origin |
| TouchInput.TouchInputHandler.FindEvent | src/core/gui/inputdevices/TouchInputHandler.cpp:164-174 | the search loop returns the position of the first contact with the sequence, or none |
| TouchInput.TouchInputHandler.RemoveValidEvent | src/core/gui/inputdevices/TouchInputHandler.cpp:141-150 | reports whether the sequence was valid and erases its first contact in place |
| TouchInput.TouchInputHandler.TapGestureValid | src/core/gui/inputdevices/TouchInputHandler.cpp:154-161 | true exactly when no valid contact is more than 5 from where it was pressed, measured from the constant origin `center` |
| TouchInput.TouchInputHandler.InvalidateAllValid | src/core/gui/inputdevices/TouchInputHandler.cpp:133-139 | the loop quarantines every valid sequence and then clears the list |
| TouchInput.TouchInputHandler.SequenceStart | src/core/gui/inputdevices/TouchInputHandler.cpp:176-184 | updates the primary or the secondary reference point in place |
| TouchInput.TouchInputHandler.ScrollMotion | src/core/gui/inputdevices/TouchInputHandler.cpp:186-201 | updates the reference point and records one scroll |
| TouchInput.TouchInputHandler.ZoomStart | src/core/gui/inputdevices/TouchInputHandler.cpp:203-236 | starts a zoom in place |
| TouchInput.TouchInputHandler.ZoomMotion | src/core/gui/inputdevices/TouchInputHandler.cpp:238-264 | reports one zoom change in place, clamped to 1.0 while the zoom can be blocked |
| TouchInput.TouchInputHandler.ZoomEnd | src/core/gui/inputdevices/TouchInputHandler.cpp:266-270 | ends the zoom in place |
| TouchInput.TouchInputHandler.Press | src/core/gui/inputdevices/TouchInputHandler.cpp:30-49 | a press, in place, keeping the invariant |
| TouchInput.TouchInputHandler.Motion | src/core/gui/inputdevices/TouchInputHandler.cpp:51-81 | a motion, in place, keeping the invariant |
| TouchInput.TouchInputHandler.ReleaseDispatch | src/core/gui/inputdevices/TouchInputHandler.cpp:84-121 | the release switch, in place |
| TouchInput.TouchInputHandler.Release | src/core/gui/inputdevices/TouchInputHandler.cpp:83-128 | a release, in place, keeping the invariant |
| TouchInput.TouchInputHandler.Handle | src/core/gui/inputdevices/TouchInputHandler.cpp:22-131 | handleImpl, in place, returning whether the event was consumed |
| TouchInput.TouchInputHandler.OnBlock | src/core/gui/inputdevices/TouchInputHandler.cpp:272-276 | onBlock, in place, keeping the invariant |
| TouchInput.TouchInputHandler.OnUnblock | src/core/gui/inputdevices/TouchInputHandler.cpp:278-289 | onUnblock, in place, keeping the invariant |
| TouchProperties.ReleaseEndsZoom | src/core/gui/inputdevices/TouchInputHandler.cpp:87-92 | lifting one of two contacts during a zoom sends one zoom end and drops that contact only |
| TouchProperties.TwoFingerTapUndoes | src/core/gui/inputdevices/TouchInputHandler.cpp:93-99 | a two-finger tap sends exactly one undo and quarantines the other contact |
| TouchProperties.TwoFingerDragReleases | src/core/gui/inputdevices/TouchInputHandler.cpp:87-101 | two contacts that moved too far and no zoom: the lifted contact is dropped and nothing is sent |
| TouchProperties.TwoFingerForeignRelease | src/core/gui/inputdevices/TouchInputHandler.cpp:87-101 | with two valid contacts, a release of any other sequence only leaves the quarantine |
| TouchProperties.ManyFingerRelease | src/core/gui/inputdevices/TouchInputHandler.cpp:103-120 | with 0, 3, 4 or more contacts every contact is quarantined and the list emptied; redo or the floating toolbox only for a tap; zooming is not consulted |
| TouchProperties.OneFingerRelease | src/core/gui/inputdevices/TouchInputHandler.cpp:85-86 | with one contact no gesture is performed; the contact is dropped if it is the lifted one |
| TouchProperties.UntrackedReleaseKeepsState | src/core/gui/inputdevices/TouchInputHandler.cpp:123-127 | a release of a sequence in neither collection changes nothing while fewer than three contacts are valid |
| TouchProperties.RepeatedPressDuplicates | src/core/gui/inputdevices/TouchInputHandler.cpp:35-43 | a press for an already valid sequence is admitted again, so the valid sequences are no longer distinct |
| TouchProperties.CanBlockZoomOnlyRaisedByZoomStart | src/core/gui/inputdevices/TouchInputHandler.cpp:245-263 | once cleared, canBlockZoom is only set again by the motion that starts the next zoom |
| TouchProperties.BlockedPinchReportsNoZoom | src/core/gui/inputdevices/TouchInputHandler.cpp:249-253 | a pinch below the threshold while canBlockZoom is set sends one zoom change of exactly 1.0 |
| TouchProperties.OnBlockClosesZoom | src/core/gui/inputdevices/TouchInputHandler.cpp:272-276 | after onBlock the host has no open zoom sequence |
| TouchProperties.OnUnblockIdempotent | src/core/gui/inputdevices/TouchInputHandler.cpp:278-289 | onUnblock twice is onUnblock once |
| TouchProperties.ValidAndInvalidDisjoint | src/core/gui/inputdevices/TouchInputHandler.cpp:31-46 | in a consistent handler no sequence is both valid and quarantined |
| TouchProperties.RemoveFirstOfDistinct | src/core/gui/inputdevices/TouchInputHandler.cpp:141-150 | removing from distinct contacts keeps them distinct and removes exactly that sequence |
| TouchProperties.PressKeepsDistinct | src/core/gui/inputdevices/TouchInputHandler.cpp:35-43 | a press of a sequence that is not valid keeps the valid sequences distinct |
| TouchProperties.MotionKeepsDistinct | src/core/gui/inputdevices/TouchInputHandler.cpp:51-81 | a motion keeps the valid sequences distinct |
| TouchProperties.ReleaseKeepsDistinct | src/core/gui/inputdevices/TouchInputHandler.cpp:83-128 | a release keeps the valid sequences distinct and leaves no contact of the lifted sequence |
| TouchProperties.ApplyKeepsDistinct | src/core/gui/inputdevices/TouchInputHandler.cpp:22-131 | every input that does not press a valid sequence keeps the valid sequences distinct |
| TouchProperties.RunAppend | src/core/gui/inputdevices/TouchInputHandler.cpp:22-131 | handling two lists of events in turn is handling their concatenation |
| TouchScenarios.OneFingerPanScrolls | src/core/gui/inputdevices/TouchInputHandler.cpp:186-201 | a finger dragged 10 to the right scrolls the view 10 to the left |
| TouchScenarios.PinchZooms | src/core/gui/inputdevices/TouchInputHandler.cpp:203-264 | a pinch sends one zoom start at the midpoint, 1.0 for a 5 percent change, 1.5 for a 50 percent change, and one zoom end when a finger lifts |
| TouchScenarios.TwoFingerTapUndoesOnce | src/core/gui/inputdevices/TouchInputHandler.cpp:87-101 | press two, lift two without moving: exactly one undo, nothing left tracked |
| TouchScenarios.ThreeFingerTapRedoes | src/core/gui/inputdevices/TouchInputHandler.cpp:103-110 | lifting one of three still fingers redoes once and quarantines the other two |
| TouchScenarios.FourFingerTapShowsToolbox | src/core/gui/inputdevices/TouchInputHandler.cpp:111-117 | lifting one of four still fingers shows the floating toolbox at the lifted finger |
| TouchScenarios.UnknownMotionReachable | src/core/gui/inputdevices/TouchInputHandler.cpp:52-55 | after a tap and a missed release, a still-pressed finger is in neither collection while two contacts are valid, and its motion is undefined |
| TouchScenarios.ZoomOutlivesContacts | src/core/gui/inputdevices/TouchInputHandler.cpp:103-110 | a third finger during a zoom, then all fingers lifted: no contact is tracked while the host's zoom sequence stays open |
| TouchScenarios.BlockEndsZoom | src/core/gui/inputdevices/TouchInputHandler.cpp:272-289 | blocking during a zoom sends one zoom end; unblocking clears the contacts and leaves canBlockZoom set |

## Left out

- TouchModel.Motion, TouchInput.TouchInputHandler.Motion and TouchInput.TouchInputHandler.Handle: require that the sequence is found by findEvent whenever two or more contacts are valid. In the source that case dereferences the `end()` iterator, which is undefined behaviour. TouchModel.Handle returns `Undefined` for it instead of inventing a result, and TouchScenarios.UnknownMotionReachable shows that it can happen.
- TouchProperties.UntrackedReleaseKeepsState: stated only for fewer than three valid contacts. With three or more, the source quarantines every contact even for a sequence it does not track (TouchProperties.ManyFingerRelease).
- Distinct valid sequences are not an invariant: the source does not check a press against the valid contacts. They are proved under the explicit assumption TouchProperties.NoRepeatedPress.
- `Point::distance` is a parameter with no properties; the scenarios state the values they need. Floating-point rounding is not modelled: coordinates, distances and zoom ratios are exact reals.
- The relative coordinates `priLastRel`/`secLastRel` are left out; they are written but never read. So is the unused `moving` field.
- Logging (`g_warning`, `g_debug`) and `xoj_assert` are left out.
- The host collaborators (`Layout`, `ZoomControl`, `UndoRedoHandler`, `Control`, `MainWindow`, `Settings`) are not modelled. Their calls are recorded in `trace`, and the values the handler reads from them are fields of `Context`.
- `AbstractInputHandler` is not part of this model. Whether events reach a blocked handler is therefore not modelled: inputs after `Block` are handled as the handler's own code handles them.
- `ActiveEvent` is a value: the source's vector stores contacts by value, so `moved` is an update of one element of `validActive` in place.
