/**
 * The engine's vector and rotation types, kept abstract.
 *
 * `Vector3` is a triple of reals with componentwise addition (no rounding).
 * `Quaternion` is the free term algebra over named rotations: a value records
 * exactly which products and inverses were formed, and in which order, without
 * interpreting any of them. `Factors` reads a product as the list of its
 * factors, which is how a value looks in any monoid once associativity and the
 * identity law are taken into account.
 */
module Geometry {

  import opened Wrappers

  datatype Vector3 = Vector3(x: real, y: real, z: real)

  /** Unity's `Vector3 + Vector3`. */
  function Add(a: Vector3, b: Vector3): Vector3
  {
    Vector3(a.x + b.x, a.y + b.y, a.z + b.z)
  }

  /** Unity's `Vector3 - Vector3`. */
  function Sub(a: Vector3, b: Vector3): Vector3
  {
    Vector3(a.x - b.x, a.y - b.y, a.z - b.z)
  }

  datatype Quaternion =
    | Identity
    | Atom(id: nat)                              // a rotation value the model does not look into
    | Mul(left: Quaternion, right: Quaternion)   // Unity's `left * right`
    | Inverse(of: Quaternion)                    // Unity's `Quaternion.Inverse(of)`

  /** The factors of a product, left to right; an inverse is one opaque factor. */
  function Factors(q: Quaternion): seq<Quaternion>
  {
    match q
    case Identity => []
    case Atom(_) => [q]
    case Mul(l, r) => Factors(l) + Factors(r)
    case Inverse(_) => [q]
  }

  /** The factors of an optional factor: none when it is absent. */
  function OptionalFactors(q: Option<Quaternion>): seq<Quaternion>
  {
    match q
    case None => []
    case Some(p) => Factors(p)
  }
}
