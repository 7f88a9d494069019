/** A light switch whose on/off flag is mirrored into the light actor's active flag. */
module Lights {
  import opened Engine

  class LightSwitch {
    const lightActor: Actor
    var isOn: bool

    /** The switch and the light agree. */
    ghost predicate Mirrored()
      reads this, lightActor
    {
      isOn == lightActor.isActive
    }

    /** The field initialiser: the switch starts on (the light actor is untouched). */
    constructor (light: Actor)
      ensures lightActor == light && isOn
      ensures light.isActive == old(light.isActive)
    {
      lightActor := light;
      isOn := true;
    }

    /** Awake: switch the light off. */
    method OnAwake()
      modifies this, lightActor`isActive
      ensures !isOn && Mirrored()
    {
      ToggleLight(false);
    }

    /** The floor-change handler: force the light off, whatever its state. */
    method OnFloorChangeRequested()
      modifies this, lightActor`isActive
      ensures !isOn && Mirrored()
    {
      ToggleLight(false);
    }

    /** Interaction flips the switch. */
    method OnInteract()
      modifies this, lightActor`isActive
      ensures isOn == !old(isOn) && Mirrored()
    {
      ToggleLight(!isOn);
    }

    method ToggleLight(flag: bool)
      modifies this, lightActor`isActive
      ensures isOn == flag && lightActor.isActive == flag
    {
      isOn := flag;
      lightActor.isActive := flag;
    }
  }
}
