/** A point in three-dimensional space with exact (real) coordinates.
    The crate's `f32`/`f64` scalar is abstracted to `real`, so sums are
    exact and rounding does not arise. */
module Point {

  /** The three coordinates; Dafny's structural equality on this datatype
      is the derived component-by-component equality. */
  datatype Point3D = Point3D(x: real, y: real, z: real)

  /** A fixed-size array of three coordinates, `[T; 3]`. */
  type Triple = s: seq<real> | |s| == 3 witness [0.0, 0.0, 0.0]

  /** Construction from three explicit coordinates. */
  function New(x: real, y: real, z: real): (p: Point3D)
    ensures p.x == x && p.y == y && p.z == z
  {
    Point3D(x, y, z)
  }

  /** Construction from an array of three coordinates, in x, y, z order. */
  function From(coords: Triple): (p: Point3D)
    ensures p.x == coords[0] && p.y == coords[1] && p.z == coords[2]
  {
    Point3D(coords[0], coords[1], coords[2])
  }

  /** The default point: every coordinate is the scalar's zero. */
  function Default(): (p: Point3D)
    ensures p.x == 0.0 && p.y == 0.0 && p.z == 0.0
  {
    Point3D(0.0, 0.0, 0.0)
  }

  /** The point moved by the delta (dx, dy, dz). */
  function Translated(p: Point3D, dx: real, dy: real, dz: real): (q: Point3D)
    ensures q.x == p.x + dx && q.y == p.y + dy && q.z == p.z + dz
  {
    p.(x := p.x + dx, y := p.y + dy, z := p.z + dz)
  }

  /** In-place translation: each coordinate is incremented by its delta in
      turn. The point is a value owned by its caller, so the update is
      returned as the new value of that point. */
  method MoveBy(p: Point3D, dx: real, dy: real, dz: real) returns (moved: Point3D)
    ensures moved.x == p.x + dx && moved.y == p.y + dy && moved.z == p.z + dz
    ensures moved == Translated(p, dx, dy, dz)
  {
    moved := p;
    moved := moved.(x := moved.x + dx);
    moved := moved.(y := moved.y + dy);
    moved := moved.(z := moved.z + dz);
  }

  /** Building from an array gives the same point as building from the
      three coordinates it holds. */
  lemma FromAgreesWithNew(a: real, b: real, c: real)
    ensures From([a, b, c]) == New(a, b, c)
  {
  }

  /** The default point is the point built from three zeros. */
  lemma DefaultIsOrigin()
    ensures Default() == New(0.0, 0.0, 0.0)
    ensures Default() == From([0.0, 0.0, 0.0])
  {
  }

  /** Two points are equal exactly when all three coordinates are equal. */
  lemma EqualIffComponentwise(p: Point3D, q: Point3D)
    ensures p == q <==> p.x == q.x && p.y == q.y && p.z == q.z
  {
  }

  /** Two successive moves are one move by the summed deltas. */
  lemma TranslatedCompose(p: Point3D, a: real, b: real, c: real, d: real, e: real, f: real)
    ensures Translated(Translated(p, a, b, c), d, e, f) == Translated(p, a + d, b + e, c + f)
  {
  }

  /** A move by the zero delta changes nothing. */
  lemma TranslatedZero(p: Point3D)
    ensures Translated(p, 0.0, 0.0, 0.0) == p
  {
  }

  /** A move is undone by the move by the negated delta. */
  lemma TranslatedInverse(p: Point3D, dx: real, dy: real, dz: real)
    ensures Translated(Translated(p, dx, dy, dz), -dx, -dy, -dz) == p
  {
  }
}
