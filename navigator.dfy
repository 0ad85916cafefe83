/**
 * The observable effect of each navigator operation, as transitions of the
 * part of the element's state the navigator touches. The class in
 * controller.dfy is proved to perform exactly these transitions.
 */
module Navigator {
  import opened Wrappers
  import opened SequenceIndex

  /** What the navigator asks of the external pan/zoom engine. */
  datatype PanRequest =
    | ShowRect(target: Geometry.Rect)  // smoothShowRectangle(target, easing)
    | ResetZoom                        // smoothZoomAbs(0, 0, 1)

  /**
   * The state the navigator reads and writes:
   * whether the element's `#sequence` record exists and has its step label,
   * whether a pan engine exists, the current step, the stepper's value and the
   * label's text (both showing a number), the requests made to the pan engine
   * and the step numbers carried by the `sequenceChange` events dispatched.
   */
  datatype UiState = UiState(
    hasSequence: bool, hasLabel: bool, hasPan: bool,
    current: int, stepperValue: int, labelText: int,
    pans: seq<PanRequest>, events: seq<int>)

  function Max(a: int, b: int): int { if a >= b then a else b }

  /** `updateSequenceNumber` does its work only when both are present. */
  predicate Ready(s: UiState) { s.hasSequence && s.hasLabel }

  /** `this.#sequence?.currentSequenceNumber ?? 0`. */
  function CurrentNumber(hasSequence: bool, current: int): int { if hasSequence then current else 0 }

  /** The step `moveNext` aims at. */
  function NextTarget(s: UiState): int { Max(0, CurrentNumber(s.hasSequence, s.current) + 1) }

  /** The step `movePrev` aims at. */
  function PrevTarget(s: UiState): int { Max(0, CurrentNumber(s.hasSequence, s.current) - 1) }

  /** A call on `this.#pan?.`: recorded only when the engine exists. */
  function AfterPanRequest(s: UiState, req: PanRequest): UiState
  {
    if s.hasPan then s.(pans := s.pans + [req]) else s
  }

  /** `updateSequenceNumber(n)`. */
  function AfterUpdateSequenceNumber(s: UiState, n: int): UiState
  {
    if !Ready(s) then s
    else s.(current := n, stepperValue := n, labelText := n, events := s.events + [n])
  }

  /** `moveTo(n)`. */
  function AfterMoveTo(c: SequenceController, s: UiState, n: int): UiState
  {
    match GetSequenceElement(c.index, n)
    case None => s
    case Some(m) => AfterUpdateSequenceNumber(AfterPanRequest(s, ShowRect(PanTarget(c, m))), n)
  }

  /** `moveNext()`; on the boundary the bare read of `smoothShowRectangle`
      requests nothing. */
  function AfterMoveNext(c: SequenceController, s: UiState): UiState
  {
    var target := NextTarget(s);
    match GetSequenceElement(c.index, target)
    case None => s
    case Some(m) => AfterUpdateSequenceNumber(AfterPanRequest(s, ShowRect(PanTarget(c, m))), target)
  }

  /** `movePrev()`; step 0 is the home view, reached by resetting the zoom. */
  function AfterMovePrev(c: SequenceController, s: UiState): UiState
  {
    var target := PrevTarget(s);
    if target == 0 then AfterUpdateSequenceNumber(AfterPanRequest(s, ResetZoom), 0)
    else
      match GetSequenceElement(c.index, target)
      case None => s
      case Some(m) => AfterUpdateSequenceNumber(AfterPanRequest(s, ShowRect(PanTarget(c, m))), target)
  }

  /** The stepper's `input` listener: the user has already written `v` into
      the stepper, and the listener then calls `moveTo(v)`. */
  function AfterStepperInput(c: SequenceController, s: UiState, v: int): UiState
  {
    AfterMoveTo(c, s.(stepperValue := v), v)
  }

  /** The pan requests one operation may add. */
  function Requested(s: UiState, req: PanRequest): seq<PanRequest>
  {
    if s.hasPan then [req] else []
  }

  // ---------------------------------------------------------------------------
  // Committing a step

  /** When the record and its label exist, the step, the stepper and the label
      all take `n` and exactly one event carrying `n` is dispatched; otherwise
      nothing at all changes. The pan engine is never touched. */
  lemma UpdateSequenceNumberCommits(s: UiState, n: int)
    ensures var t := AfterUpdateSequenceNumber(s, n);
      && t.pans == s.pans
      && (Ready(s) ==> t.current == n && t.stepperValue == n && t.labelText == n && t.events == s.events + [n])
      && (!Ready(s) ==> t == s)
  {
  }

  // ---------------------------------------------------------------------------
  // moveTo

  /** No marker numbered `n`: nothing changes, no pan request, no event. */
  lemma MoveToAbsentIsNoop(c: SequenceController, s: UiState, n: int)
    requires !HasMarker(c.index, n)
    ensures AfterMoveTo(c, s, n) == s
  {
  }

  /** A marker numbered `n`: one padded request for the FIRST such marker, then
      the step is committed. */
  lemma {:induction false} MoveToPresent(c: SequenceController, s: UiState, n: int, i: int)
    requires IsFirstMatch(c.index, n, i)
    ensures var t := AfterMoveTo(c, s, n);
      && t.pans == s.pans + Requested(s, ShowRect(PanTarget(c, c.index[i])))
      && (Ready(s) ==> t.current == n && t.stepperValue == n && t.labelText == n && t.events == s.events + [n])
      && (!Ready(s) ==> t.current == s.current && t.stepperValue == s.stepperValue
                        && t.labelText == s.labelText && t.events == s.events)
      && t.hasSequence == s.hasSequence && t.hasLabel == s.hasLabel && t.hasPan == s.hasPan
  {
    GetSequenceElementIsFirst(c.index, n, i);
  }

  // ---------------------------------------------------------------------------
  // moveNext

  /** moveNext is moveTo of the step after the current one (never below 0). */
  lemma MoveNextIsMoveToNext(c: SequenceController, s: UiState)
    ensures AfterMoveNext(c, s) == AfterMoveTo(c, s, NextTarget(s))
  {
  }

  /** Past the last marker moveNext is a complete no-op. */
  lemma MoveNextAtBoundaryIsNoop(c: SequenceController, s: UiState)
    requires !HasMarker(c.index, NextTarget(s))
    ensures AfterMoveNext(c, s) == s
  {
  }

  // ---------------------------------------------------------------------------
  // movePrev

  /** Heading for step 0 always resets the zoom and commits 0, even from 0. */
  lemma MovePrevToHome(c: SequenceController, s: UiState)
    requires PrevTarget(s) == 0
    ensures var t := AfterMovePrev(c, s);
      && t.pans == s.pans + Requested(s, ResetZoom)
      && (Ready(s) ==> t.current == 0 && t.stepperValue == 0 && t.labelText == 0 && t.events == s.events + [0])
      && (!Ready(s) ==> t.current == s.current && t.events == s.events)
  {
  }

  /** Anywhere else movePrev is moveTo of the step before the current one. */
  lemma MovePrevIsMoveToPrev(c: SequenceController, s: UiState)
    requires PrevTarget(s) != 0
    ensures AfterMovePrev(c, s) == AfterMoveTo(c, s, PrevTarget(s))
  {
  }

  /** From step 1 movePrev goes home, with no marker lookup at all. */
  lemma MovePrevFromFirstStep(c: SequenceController, s: UiState)
    requires Ready(s) && s.current == 1
    ensures var t := AfterMovePrev(c, s);
      && t.current == 0 && t.events == s.events + [0]
      && t.pans == s.pans + Requested(s, ResetZoom)
  {
  }

  /** moveNext then movePrev restores step k when both moves are in bounds:
      k + 1 has a marker and either k is the home step 0 or k has one as well. */
  lemma NextThenPrevRestores(c: SequenceController, s: UiState, k: int)
    requires Ready(s) && s.current == k && k >= 0
    requires HasMarker(c.index, k + 1)
    requires k == 0 || HasMarker(c.index, k)
    ensures var t := AfterMovePrev(c, AfterMoveNext(c, s));
      && t.current == k && t.stepperValue == k && t.labelText == k
      && t.events == s.events + [k + 1, k]
      && |t.pans| == |s.pans| + (if s.hasPan then 2 else 0)
  {
  }

  // ---------------------------------------------------------------------------
  // Invariants kept by every move

  /** The label shows the current step, and the last event dispatched
      carries it. */
  predicate LabelSynced(s: UiState)
  {
    Ready(s) ==>
      && s.labelText == s.current
      && (|s.events| > 0 ==> s.events[|s.events| - 1] == s.current)
  }

  /** In addition, the stepper shows the current step. */
  predicate Synced(s: UiState)
  {
    LabelSynced(s) && (Ready(s) ==> s.stepperValue == s.current)
  }

  /** The current step is the home step or the number of some marker. */
  predicate AtKnownStep(c: SequenceController, s: UiState)
  {
    var n := CurrentNumber(s.hasSequence, s.current);
    n == 0 || HasMarker(c.index, n)
  }

  /** Each move dispatches at most one event and makes at most one pan request,
      appending to the logs and never rewriting them, and leaves the presence of
      the record, the label and the engine alone. */
  predicate AppendsAtMostOne(s: UiState, t: UiState)
  {
    && t.hasSequence == s.hasSequence && t.hasLabel == s.hasLabel && t.hasPan == s.hasPan
    && (t.events == s.events || (|t.events| == |s.events| + 1 && t.events[..|s.events|] == s.events))
    && (t.pans == s.pans || (|t.pans| == |s.pans| + 1 && t.pans[..|s.pans|] == s.pans))
    && (t.events == s.events ==> t.current == s.current)
  }

  lemma MovesPreserveSynced(c: SequenceController, s: UiState, n: int)
    requires Synced(s)
    ensures Synced(AfterMoveTo(c, s, n))
    ensures Synced(AfterMoveNext(c, s))
    ensures Synced(AfterMovePrev(c, s))
  {
  }

  /** A number typed into the stepper keeps the label and the events in step
      with the current step, but the stepper itself stays in step exactly when
      the number has a marker (or already was the current step): for any other
      number `moveTo` does nothing and the typed value stays on show. */
  lemma StepperInputSynced(c: SequenceController, s: UiState, v: int)
    requires Ready(s) && Synced(s)
    ensures LabelSynced(AfterStepperInput(c, s, v))
    ensures Synced(AfterStepperInput(c, s, v)) <==> HasMarker(c.index, v) || v == s.current
  {
  }

  lemma MovesPreserveAtKnownStep(c: SequenceController, s: UiState, n: int)
    requires AtKnownStep(c, s)
    ensures AtKnownStep(c, AfterMoveTo(c, s, n))
    ensures AtKnownStep(c, AfterMoveNext(c, s))
    ensures AtKnownStep(c, AfterMovePrev(c, s))
  {
  }

  lemma MovesAppendAtMostOne(c: SequenceController, s: UiState, n: int)
    ensures AppendsAtMostOne(s, AfterMoveTo(c, s, n))
    ensures AppendsAtMostOne(s, AfterMoveNext(c, s))
    ensures AppendsAtMostOne(s, AfterMovePrev(c, s))
  {
  }

  // ---------------------------------------------------------------------------
  // The stepper's maximum

  /** The step labels are numbered 1, 2, ... in document order. */
  predicate NumberedInOrder(index: seq<Marker>)
  {
    forall i :: 0 <= i < |index| ==> index[i].number == i + 1
  }

  /** With labels numbered 1 to N in order, the stepper's maximum N is exactly
      where `moveNext` stops: below it `moveNext` commits the next step, at it
      `moveNext` is a no-op. */
  lemma MaxIsNextBoundary(c: SequenceController, s: UiState, k: int)
    requires NumberedInOrder(c.index)
    requires Ready(s) && s.current == k && 0 <= k <= TotalSequenceNumber(c)
    ensures k < TotalSequenceNumber(c) ==>
      var t := AfterMoveNext(c, s);
      t.current == k + 1 && t.events == s.events + [k + 1]
      && t.pans == s.pans + Requested(s, ShowRect(PanTarget(c, c.index[k])))
    ensures k == TotalSequenceNumber(c) ==> AfterMoveNext(c, s) == s
  {
  }
}
