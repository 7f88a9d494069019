/** Stand-ins for the few engine values the gameplay scripts touch. */
module Engine {

  /** A position in the scene (a FlaxEngine Vector3); floats are modelled as exact reals. */
  datatype Vec3 = Vec3(x: real, y: real, z: real)

  function Add(a: Vec3, b: Vec3): (r: Vec3) {
    Vec3(a.x + b.x, a.y + b.y, a.z + b.z)
  }

  const Zero: Vec3 := Vec3(0.0, 0.0, 0.0)

  /** A scene actor: only its local position and its active flag are observed by the core. */
  class Actor {
    var localPosition: Vec3
    var isActive: bool

    constructor (position: Vec3, active: bool)
      ensures localPosition == position && isActive == active
    {
      localPosition := position;
      isActive := active;
    }
  }
}

/** The optional value used where the source stores a nullable reference. */
module Wrappers {
  datatype Option<+T> = None | Some(value: T)
}
