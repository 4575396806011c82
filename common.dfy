/** Small value types shared by the rest of the model. */
module Common {

  datatype Option<+T> = None | Some(value: T)

  /** A colour with real (normalised float) channels, as glm::vec4 or float[4] holds it. */
  datatype Color4 = Color4(r: real, g: real, b: real, a: real)

  /** A 4x4 transform. Its entries are never inspected by the model: view and projection
      matrices are produced by the opaque camera maths and only passed along. */
  datatype Mat4 = Mat4(entries: seq<real>)

  /** A three-component vector (glm::vec3) over the reals. */
  datatype Vec3 = Vec3(x: real, y: real, z: real)

  const Zero3 := Vec3(0.0, 0.0, 0.0)

  function Add(a: Vec3, b: Vec3): Vec3 { Vec3(a.x + b.x, a.y + b.y, a.z + b.z) }

  function Sub(a: Vec3, b: Vec3): Vec3 { Vec3(a.x - b.x, a.y - b.y, a.z - b.z) }

  function Scale(v: Vec3, s: real): Vec3 { Vec3(v.x * s, v.y * s, v.z * s) }

  function Dot(a: Vec3, b: Vec3): real { a.x * b.x + a.y * b.y + a.z * b.z }

  function Cross(a: Vec3, b: Vec3): Vec3
  {
    Vec3(a.y * b.z - a.z * b.y, a.z * b.x - a.x * b.z, a.x * b.y - a.y * b.x)
  }
}
