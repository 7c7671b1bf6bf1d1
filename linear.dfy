/** Vectors, quaternions and a symbolic 4x4 matrix.
    Floating-point arithmetic is not modelled: components are reals and the
    model matrix is a term built from its factors. A term is not a matrix:
    two different terms can stand for the same product (glm's mat4_cast gives
    the same matrix for q and -q), so the model relies on no fact about terms
    beyond the default transform composing to the identity. */
module Linear {

  datatype Vec3 = Vec3(x: real, y: real, z: real)

  /** A rotation quaternion, stored as glm stores it (w, x, y, z). */
  datatype Quat = Quat(w: real, x: real, y: real, z: real)

  datatype Axis = X | Y | Z

  /** A 4x4 matrix as a term. `Identity` is glm::mat4(1.0f); `Trs(p, r, s)` is
      translate(p) * mat4_cast(r) * scale(s); `Given(id)` is a matrix this model
      does not compute (a camera's view or projection). */
  datatype Mat4 = Identity | Trs(translation: Vec3, rotation: Quat, scaling: Vec3) | Given(id: nat)

  const Zero := Vec3(0.0, 0.0, 0.0)
  const One := Vec3(1.0, 1.0, 1.0)

  /** glm::quat built from the Euler angles (0, 0, 0): the identity rotation. */
  const NoRotation := Quat(1.0, 0.0, 0.0, 0.0)

  function Component(v: Vec3, a: Axis): real
  {
    match a
    case X => v.x
    case Y => v.y
    case Z => v.z
  }

  /** `v` with the component on axis `a` replaced by `value`. */
  function WithComponent(v: Vec3, a: Axis, value: real): (r: Vec3)
    ensures Component(r, a) == value
    ensures forall b :: b != a ==> Component(r, b) == Component(v, b)
  {
    match a
    case X => v.(x := value)
    case Y => v.(y := value)
    case Z => v.(z := value)
  }

  /** Translate * Rotate * Scale. The product with a zero translation, the
      identity rotation and a unit scale is the identity matrix. */
  function Compose(position: Vec3, rotation: Quat, scale: Vec3): (m: Mat4)
    ensures position == Zero && rotation == NoRotation && scale == One ==> m == Identity
  {
    if position == Zero && rotation == NoRotation && scale == One then Identity
    else Trs(position, rotation, scale)
  }
}
