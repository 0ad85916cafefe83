/**
 * The element's navigation state and the operations that change it in place:
 * the commit of a step, the three moves of a navigator, and the swap of the
 * navigator and of the listeners' cancellation token after a render.
 */
module Controller {
  import opened Wrappers
  import opened SequenceIndex
  import opened Navigator

  /** `text.includes(pattern)`. */
  predicate Includes(text: string, pattern: string)
    decreases |text|
  {
    |pattern| <= |text| && (text[..|pattern|] == pattern || Includes(text[1..], pattern))
  }

  class MermaidController {
    /** `#sequence` was set up (the element has a shadow root). */
    var hasSequence: bool
    /** `#sequence.sequenceNumber`, the label element, was found. */
    var hasLabel: bool
    /** `#sequence.sequenceControllerElement`, `nextSequence` and
        `prevSequence` were found (the stepper always is: the constructor
        fails without it). */
    var hasControls: bool
    var hasNextButton: bool
    var hasPrevButton: bool
    /** `#pan` holds a pan/zoom engine. */
    var hasPan: bool
    /** `#sequence.currentSequenceNumber`. */
    var currentSequenceNumber: int
    /** The number shown by `sequenceStepper.value` and by the label's `textContent`. */
    var stepperValue: int
    var labelText: int
    /** The number shown by `sequenceStepper.max`. */
    var stepperMax: int
    /** `sequenceControllerElement.style.display` is "flex" rather than "none". */
    var controlsShown: bool
    /** How many times `abortController` has been replaced; listeners added
        under an older one have been removed. */
    var listenerGeneration: nat
    /** `#sequence.sequenceController`. */
    var sequenceController: Option<SequenceController>
    /** The requests made to the pan engine, oldest first. */
    ghost var panRequests: seq<PanRequest>
    /** The `sequenceNumber` of every `sequenceChange` event dispatched, oldest first. */
    ghost var events: seq<int>

    /** The part of the state the navigator reads and writes. */
    ghost function State(): UiState
      reads this
    {
      UiState(hasSequence, hasLabel, hasPan, currentSequenceNumber, stepperValue, labelText,
              panRequests, events)
    }

    /** The `#sequence` record is set up only when there is a shadow root; the
        step starts at 0 and there is no pan engine and no navigator yet. */
    constructor (hasShadowRoot: bool, labelFound: bool, controlsFound: bool,
                 nextFound: bool, prevFound: bool)
      ensures hasSequence == hasShadowRoot && hasLabel == labelFound && !hasPan
      ensures hasControls == controlsFound && hasNextButton == nextFound && hasPrevButton == prevFound
      ensures currentSequenceNumber == 0 && stepperValue == 0 && labelText == 0 && stepperMax == 0
      ensures sequenceController == None && listenerGeneration == 0
      ensures panRequests == [] && events == []
      ensures Synced(State())
    {
      hasSequence := hasShadowRoot;
      hasLabel := labelFound;
      hasControls := controlsFound;
      hasNextButton := nextFound;
      hasPrevButton := prevFound;
      hasPan := false;
      currentSequenceNumber := 0;
      stepperValue := 0;
      labelText := 0;
      stepperMax := 0;
      controlsShown := false;
      listenerGeneration := 0;
      sequenceController := None;
      panRequests := [];
      events := [];
    }

    /** The one effect of `render` that the navigator depends on: a new pan
        engine replaces the disposed one. */
    method AttachPanEngine()
      modifies this`hasPan
      ensures hasPan
    {
      hasPan := true;
    }

    /** `updateSequenceNumber(n)`: commit step `n` to the state, the stepper, the
        label and one `sequenceChange` event, unless the record or label is missing. */
    method UpdateSequenceNumber(n: int)
      modifies this`currentSequenceNumber, this`stepperValue, this`labelText, this`events
      ensures State() == AfterUpdateSequenceNumber(old(State()), n)
    {
      if !hasSequence {
        return;
      }
      if !hasLabel {
        return;
      }
      currentSequenceNumber := n;
      stepperValue := n;
      labelText := n;
      events := events + [n];
    }

    /** `panElement(m)`: ask the engine, if there is one, to show the padded rectangle. */
    method PanElement(c: SequenceController, m: Marker)
      modifies this`panRequests
      ensures State() == AfterPanRequest(old(State()), ShowRect(PanTarget(c, m)))
    {
      if !hasPan {
        return;
      }
      panRequests := panRequests + [ShowRect(PanTarget(c, m))];
    }

    /** `this.#pan?.smoothZoomAbs(0, 0, 1)`. */
    method ResetZoom()
      modifies this`panRequests
      ensures State() == AfterPanRequest(old(State()), PanRequest.ResetZoom)
    {
      if hasPan {
        panRequests := panRequests + [PanRequest.ResetZoom];
      }
    }

    /** `moveTo(n)` of navigator `c`. */
    method MoveTo(c: SequenceController, n: int)
      modifies this`currentSequenceNumber, this`stepperValue, this`labelText, this`events, this`panRequests
      ensures State() == AfterMoveTo(c, old(State()), n)
    {
      var currentSequenceElement := GetSequenceElement(c.index, n);
      if currentSequenceElement.None? {
        return;
      }
      PanElement(c, currentSequenceElement.value);
      UpdateSequenceNumber(n);
    }

    /** `moveNext()` of navigator `c`. */
    method MoveNext(c: SequenceController)
      modifies this`currentSequenceNumber, this`stepperValue, this`labelText, this`events, this`panRequests
      ensures State() == AfterMoveNext(c, old(State()))
    {
      var currentNumber := CurrentNumber(hasSequence, currentSequenceNumber);
      var moveToNumber := Max(0, currentNumber + 1);
      var currentSequenceElement := GetSequenceElement(c.index, moveToNumber);
      if currentSequenceElement.None? {
        // the source's bare read of `smoothShowRectangle` here has no effect
        return;
      }
      PanElement(c, currentSequenceElement.value);
      UpdateSequenceNumber(moveToNumber);
    }

    /** `movePrev()` of navigator `c`. */
    method MovePrev(c: SequenceController)
      modifies this`currentSequenceNumber, this`stepperValue, this`labelText, this`events, this`panRequests
      ensures State() == AfterMovePrev(c, old(State()))
    {
      var currentNumber := CurrentNumber(hasSequence, currentSequenceNumber);
      var moveToNumber := Max(0, currentNumber - 1);
      if moveToNumber == 0 {
        ResetZoom();
        UpdateSequenceNumber(0);
        return;
      }
      var currentSequenceElement := GetSequenceElement(c.index, moveToNumber);
      if currentSequenceElement.None? {
        return;
      }
      PanElement(c, currentSequenceElement.value);
      UpdateSequenceNumber(moveToNumber);
    }

    /** The stepper's `input` listener: the user writes `v` into the stepper,
        then the listener calls `moveTo(v)` of navigator `c`. */
    method StepperInput(c: SequenceController, v: int)
      modifies this`currentSequenceNumber, this`stepperValue, this`labelText, this`events, this`panRequests
      ensures State() == AfterStepperInput(c, old(State()), v)
    {
      stepperValue := v;
      MoveTo(c, v);
    }

    /**
     * `updateSequenceController()` after a render, given the `text` attribute,
     * the viewBox fields and the step labels found. It throws, changing
     * nothing, without the `#sequence` record or without the controls
     * container. Otherwise it shows the controls exactly for sequence diagrams,
     * cancels the old listeners and installs a navigator built from this
     * snapshot; it then throws if either button is missing, and only when both
     * are present sets the stepper's maximum to the navigator's step count.
     */
    method UpdateSequenceController(text: Option<string>, viewBox: Option<seq<real>>, markers: seq<Marker>)
      returns (ok: bool)
      modifies this`controlsShown, this`listenerGeneration, this`sequenceController, this`stepperMax
      ensures ok == (hasSequence && hasControls && hasNextButton && hasPrevButton)
      ensures !(hasSequence && hasControls) ==>
        && controlsShown == old(controlsShown) && listenerGeneration == old(listenerGeneration)
        && sequenceController == old(sequenceController) && stepperMax == old(stepperMax)
      ensures hasSequence && hasControls ==>
        && controlsShown == (text.Some? && Includes(text.value, "sequenceDiagram"))
        && listenerGeneration == old(listenerGeneration) + 1
        && sequenceController == Some(CreateSequenceController(viewBox, markers))
        && sequenceController.value.index == markers
      ensures hasSequence && hasControls && !ok ==> stepperMax == old(stepperMax)
      ensures ok ==> stepperMax == TotalSequenceNumber(sequenceController.value) == |markers|
    {
      if !hasSequence || !hasControls {
        return false;
      }
      controlsShown := text.Some? && Includes(text.value, "sequenceDiagram");
      listenerGeneration := listenerGeneration + 1;
      var controller := CreateSequenceController(viewBox, markers);
      sequenceController := Some(controller);
      if !hasNextButton || !hasPrevButton {
        return false;
      }
      stepperMax := TotalSequenceNumber(controller);
      ok := true;
    }
  }
}
