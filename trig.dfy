/** The trigonometry the robot uses. The values of `sin` and `cos` come from
    the C math library and stay uninterpreted: a `Trig` is any pair of real
    functions, and a lemma that needs a fact about them says so with one of
    the predicates below. */
module Trig {

  datatype Trig = Trig(sin: real -> real, cos: real -> real)

  /** `sin(0) = 0`. */
  predicate SinZero(t: Trig) {
    t.sin(0.0) == 0.0
  }

  /** `cos(0) = 1`. */
  predicate CosZero(t: Trig) {
    t.cos(0.0) == 1.0
  }

  /** `sin(a)^2 + cos(a)^2 = 1` for every angle `a`. */
  ghost predicate Pythagorean(t: Trig) {
    forall a: real :: t.sin(a) * t.sin(a) + t.cos(a) * t.cos(a) == 1.0
  }

  /** The factor `glm::radians` multiplies degrees by (pi / 180). */
  const DegToRad: real := 0.01745329251994329576923690768489

  /** `glm::radians`: degrees to radians; zero degrees is zero radians. */
  function Radians(degrees: real): (r: real)
    ensures degrees == 0.0 <==> r == 0.0
    ensures degrees > 0.0 <==> r > 0.0
  {
    degrees * DegToRad
  }
}
