/**
 * An interactable door: an Open/Close toggle that is locked while its
 * animation plays (`isTurning`), released by the animation-finished callback.
 */
module Doors {

  datatype State = Open | Close

  function Toggled(s: State): (t: State) {
    match s
    case Open => Close
    case Close => Open
  }

  class Door {
    var state: State
    var isTurning: bool

    /** The field initialisers: the state is the enum default, Open, and no animation runs. */
    constructor ()
      ensures state == Open && !isTurning
    {
      state := Open;
      isTurning := false;
    }

    /** Awake: close without animation or sound, so the latch stays as it was. */
    method OnAwake()
      modifies this
      ensures state == Close && isTurning == old(isTurning)
    {
      SwitchState(Close, false, false);
    }

    /** The floor-change handler: close with the animation but without sound. */
    method OnFloorChangeRequested()
      modifies this
      ensures state == Close
      ensures isTurning == (old(isTurning) || old(state) == Open)
    {
      SwitchState(Close, true, false);
    }

    method OnInteract()
      modifies this
      ensures old(isTurning) ==> state == old(state) && isTurning
      ensures !old(isTurning) ==> state == Toggled(old(state)) && isTurning
    {
      ToggleDoor();
    }

    /** Flip the door unless an animation is still running. */
    method ToggleDoor()
      modifies this
      ensures old(isTurning) ==> state == old(state) && isTurning
      ensures !old(isTurning) ==> state == Toggled(old(state)) && isTurning
    {
      if isTurning {
        return;
      }
      match state {
        case Open => SwitchState(Close);
        case Close => SwitchState(Open);
      }
    }

    /**
     * Change to `newState`; a real change with `playAnimation` starts the
     * animation and sets the latch.  Switching to the current state does nothing.
     */
    method SwitchState(newState: State, playAnimation: bool := true, playSound: bool := true)
      modifies this
      ensures state == newState
      ensures old(state) == newState ==> isTurning == old(isTurning)
      ensures old(state) != newState ==> isTurning == (old(isTurning) || playAnimation)
    {
      if state == newState {
        return;
      }
      state := newState;
      if playAnimation {
        isTurning := true;
      }
    }

    /** The animation-finished callback releases the latch. */
    method OnAnimationFinished()
      modifies this
      ensures !isTurning && state == old(state)
    {
      isTurning := false;
    }
  }
}
