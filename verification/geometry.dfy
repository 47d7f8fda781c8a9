/**
 * The two-dimensional point used both for compass directions and for the
 * waypoints of a car's path. Coordinates are exact reals: every constant the
 * program uses is a short decimal, so no rounding is modelled.
 */
module Geometry {

  /** A point (or direction vector) with coordinates `x` and `y`. */
  datatype Side = Side(x: real, y: real)

  /** The centre of the intersection. */
  const Centre: Side := Side(0.0, 0.0)

  /** Componentwise sum. */
  function Add(a: Side, b: Side): Side {
    Side(a.x + b.x, a.y + b.y)
  }

  /** Componentwise difference. */
  function Sub(a: Side, b: Side): Side {
    Side(a.x - b.x, a.y - b.y)
  }

  /** Multiplication of both coordinates by one scalar. */
  function Scale(a: Side, k: real): Side {
    Side(a.x * k, a.y * k)
  }

  /** The program's equality test: both coordinates compare equal. */
  predicate SameSide(a: Side, b: Side) {
    a.x == b.x && a.y == b.y
  }

  /** Both coordinates lie in [-1, 1]. */
  predicate InUnitSquare(a: Side) {
    -1.0 <= a.x <= 1.0 && -1.0 <= a.y <= 1.0
  }

  /** The coordinate-wise test coincides with value equality. */
  lemma SameSideIsEquality(a: Side, b: Side)
    ensures SameSide(a, b) <==> a == b
  {}

  /** Subtracting what was added gives back the original point. */
  lemma AddThenSub(a: Side, b: Side)
    ensures Sub(Add(a, b), b) == a
  {}

  /** Adding back what was subtracted gives back the original point. */
  lemma SubThenAdd(a: Side, b: Side)
    ensures Add(Sub(a, b), b) == a
  {}

  /** Addition is commutative and associative. */
  lemma AddLaws(a: Side, b: Side, c: Side)
    ensures Add(a, b) == Add(b, a)
    ensures Add(Add(a, b), c) == Add(a, Add(b, c))
    ensures Add(a, Centre) == a
  {}

  /** Scaling distributes over addition and composes by multiplication. */
  lemma ScaleLaws(a: Side, b: Side, k: real, m: real)
    ensures Scale(Add(a, b), k) == Add(Scale(a, k), Scale(b, k))
    ensures Scale(Scale(a, k), m) == Scale(a, k * m)
    ensures Scale(a, 1.0) == a
    ensures Sub(a, b) == Add(a, Scale(b, -1.0))
  {}
}
