/** Three-component vectors over the reals, standing for the `glm::vec3`
    values of the robot's position, facing direction and the fixed offsets
    of the skeleton. Single-precision rounding is not modelled. */
module Vectors {

  datatype Vec3 = Vec3(x: real, y: real, z: real)

  const Zero: Vec3 := Vec3(0.0, 0.0, 0.0)

  /** The world's vertical axis, `glm::vec3(0, 1, 0)`. */
  const Up: Vec3 := Vec3(0.0, 1.0, 0.0)

  function Add(a: Vec3, b: Vec3): Vec3 {
    Vec3(a.x + b.x, a.y + b.y, a.z + b.z)
  }

  function Sub(a: Vec3, b: Vec3): Vec3 {
    Vec3(a.x - b.x, a.y - b.y, a.z - b.z)
  }

  function Neg(a: Vec3): Vec3 {
    Vec3(-a.x, -a.y, -a.z)
  }

  /** The mirror image of a point in the robot's sagittal plane x = 0. */
  function MirrorX(a: Vec3): Vec3 {
    Vec3(-a.x, a.y, a.z)
  }

  /** `glm::cross`: the right-handed cross product. */
  function Cross(a: Vec3, b: Vec3): Vec3 {
    Vec3(a.y * b.z - a.z * b.y, a.z * b.x - a.x * b.z, a.x * b.y - a.y * b.x)
  }

  /** Crossing with the vertical axis turns a direction a quarter turn in
      the horizontal plane; the two orders give opposite vectors, so their
      sum is zero, and neither has a vertical component. */
  lemma CrossWithUp(d: Vec3)
    ensures Cross(Up, d) == Vec3(d.z, 0.0, -d.x)
    ensures Cross(d, Up) == Vec3(-d.z, 0.0, d.x)
    ensures Add(Cross(Up, d), Cross(d, Up)) == Zero
  {
  }
}
