/** Three-component vectors, as the camera uses `glm::vec3`: componentwise
    addition and subtraction and scaling by a scalar. Components are reals,
    so the arithmetic is exact. */
module Vectors {

  datatype Vec3 = Vec3(x: real, y: real, z: real)
  {
    /** `a + b` */
    function Plus(b: Vec3): Vec3 {
      Vec3(x + b.x, y + b.y, z + b.z)
    }

    /** `a - b` */
    function Minus(b: Vec3): Vec3 {
      Vec3(x - b.x, y - b.y, z - b.z)
    }

    /** `a * s` for a scalar `s` */
    function Scale(s: real): Vec3 {
      Vec3(x * s, y * s, z * s)
    }
  }

  const Zero := Vec3(0.0, 0.0, 0.0)

  /** Adding a vector and then subtracting it again gives back the start. */
  lemma PlusMinusCancel(p: Vec3, d: Vec3)
    ensures p.Plus(d).Minus(d) == p
    ensures p.Minus(d).Plus(d) == p
  {
  }

  /** Scaling by zero gives the zero vector, and adding or subtracting it
      changes nothing. */
  lemma ScaleZero(p: Vec3, d: Vec3)
    ensures d.Scale(0.0) == Zero
    ensures p.Plus(d.Scale(0.0)) == p && p.Minus(d.Scale(0.0)) == p
  {
  }
}
