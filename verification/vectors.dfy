/**
 * The glm vector and matrix arithmetic the loader and the generators use,
 * over real numbers (floating-point rounding is not modelled).
 */
module Vectors {

  datatype Vec2 = Vec2(x: real, y: real)
  datatype Vec3 = Vec3(x: real, y: real, z: real)
  datatype Vec4 = Vec4(x: real, y: real, z: real, w: real)

  /** `glm::vec2()`, the texture coordinate of an untextured vertex. */
  const Zero2: Vec2 := Vec2(0.0, 0.0)

  /** `glm::min` on one component: `y < x ? y : x`. */
  function Min(x: real, y: real): (r: real)
    ensures r <= x && r <= y && (r == x || r == y)
  {
    if y < x then y else x
  }

  /** `glm::max` on one component: `x < y ? y : x`. */
  function Max(x: real, y: real): (r: real)
    ensures x <= r && y <= r && (r == x || r == y)
  {
    if x < y then y else x
  }

  function MinV(a: Vec3, b: Vec3): Vec3 {
    Vec3(Min(a.x, b.x), Min(a.y, b.y), Min(a.z, b.z))
  }

  function MaxV(a: Vec3, b: Vec3): Vec3 {
    Vec3(Max(a.x, b.x), Max(a.y, b.y), Max(a.z, b.z))
  }

  function Add(a: Vec3, b: Vec3): Vec3 {
    Vec3(a.x + b.x, a.y + b.y, a.z + b.z)
  }

  function Sub(a: Vec3, b: Vec3): Vec3 {
    Vec3(a.x - b.x, a.y - b.y, a.z - b.z)
  }

  function Scale(a: Vec3, s: real): Vec3 {
    Vec3(a.x * s, a.y * s, a.z * s)
  }

  /** Componentwise `a <= b`. */
  predicate LessEq(a: Vec3, b: Vec3) {
    a.x <= b.x && a.y <= b.y && a.z <= b.z
  }

  /** `glm::vec4(v, w)`. */
  function Extend(v: Vec3, w: real): Vec4 {
    Vec4(v.x, v.y, v.z, w)
  }

  /** `glm::vec3(v)` of a `vec4`: drops `w`. */
  function Xyz(v: Vec4): Vec3 {
    Vec3(v.x, v.y, v.z)
  }

  /** A 3x3 matrix by rows: the linear part of a `glm::mat4` rotation. */
  datatype Mat3 = Mat3(r0: Vec3, r1: Vec3, r2: Vec3)

  const Identity: Mat3 := Mat3(Vec3(1.0, 0.0, 0.0), Vec3(0.0, 1.0, 0.0), Vec3(0.0, 0.0, 1.0))

  function Dot(a: Vec3, b: Vec3): real {
    a.x * b.x + a.y * b.y + a.z * b.z
  }

  function Column0(m: Mat3): Vec3 { Vec3(m.r0.x, m.r1.x, m.r2.x) }
  function Column1(m: Mat3): Vec3 { Vec3(m.r0.y, m.r1.y, m.r2.y) }
  function Column2(m: Mat3): Vec3 { Vec3(m.r0.z, m.r1.z, m.r2.z) }

  /** Matrix times column vector. */
  function Apply(m: Mat3, v: Vec3): Vec3 {
    Vec3(Dot(m.r0, v), Dot(m.r1, v), Dot(m.r2, v))
  }

  /** Matrix product `a * b`. */
  function Mul(a: Mat3, b: Mat3): Mat3 {
    Mat3(
      Vec3(Dot(a.r0, Column0(b)), Dot(a.r0, Column1(b)), Dot(a.r0, Column2(b))),
      Vec3(Dot(a.r1, Column0(b)), Dot(a.r1, Column1(b)), Dot(a.r1, Column2(b))),
      Vec3(Dot(a.r2, Column0(b)), Dot(a.r2, Column1(b)), Dot(a.r2, Column2(b))))
  }

  /** Multiplying by a product applies the right factor first. */
  lemma ApplyMul(a: Mat3, b: Mat3, v: Vec3)
    ensures Apply(Mul(a, b), v) == Apply(a, Apply(b, v))
  {
    assert Dot(a.r0, Apply(b, v)) == Dot(Vec3(Dot(a.r0, Column0(b)), Dot(a.r0, Column1(b)), Dot(a.r0, Column2(b))), v);
    assert Dot(a.r1, Apply(b, v)) == Dot(Vec3(Dot(a.r1, Column0(b)), Dot(a.r1, Column1(b)), Dot(a.r1, Column2(b))), v);
    assert Dot(a.r2, Apply(b, v)) == Dot(Vec3(Dot(a.r2, Column0(b)), Dot(a.r2, Column1(b)), Dot(a.r2, Column2(b))), v);
  }
}
