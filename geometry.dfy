/**
 * The Core Graphics / Core Animation geometry the view computes with.
 * `CGFloat` is modelled as an exact `real`. Of a `CATransform3D` only the part the
 * view ever builds is kept: a scale of x and y (z scale 1) followed by a translation
 * of x and y (z translation 0).
 */
module Geometry {
  datatype Size = Size(width: real, height: real)

  datatype Point = Point(x: real, y: real)

  /** Maps a point p to (p.x * sx + tx, p.y * sy + ty). */
  datatype Transform = Transform(sx: real, sy: real, tx: real, ty: real)

  const Identity: Transform := Transform(1.0, 1.0, 0.0, 0.0)

  function Apply(t: Transform, p: Point): Point
  {
    Point(p.x * t.sx + t.tx, p.y * t.sy + t.ty)
  }

  /** CATransform3DMakeScale(sx, sy, 1). */
  function MakeScale(sx: real, sy: real): Transform
  {
    Transform(sx, sy, 0.0, 0.0)
  }

  /** CATransform3DMakeTranslation(tx, ty, 0). */
  function MakeTranslation(tx: real, ty: real): Transform
  {
    Transform(1.0, 1.0, tx, ty)
  }

  /** CATransform3DConcat(a, b): the matrix product a·b, which applies `a` first, then `b`. */
  function Concat(a: Transform, b: Transform): Transform
  {
    Transform(a.sx * b.sx, a.sy * b.sy, a.tx * b.sx + b.tx, a.ty * b.sy + b.ty)
  }

  /** One coordinate of the composition: scaling then translating twice is one scale and one shift. */
  lemma Distributes(x: real, s: real, t: real, k: real)
    ensures (x * s + t) * k == x * (s * k) + t * k
  {
    calc {
      (x * s + t) * k;
      (x * s) * k + t * k;
      x * (s * k) + t * k;
    }
  }

  /** Concatenation is composition: `Concat(a, b)` moves every point where `a` then `b` would. */
  lemma ConcatComposes(a: Transform, b: Transform, p: Point)
    ensures Apply(Concat(a, b), p) == Apply(b, Apply(a, p))
  {
    Distributes(p.x, a.sx, a.tx, b.sx);
    Distributes(p.y, a.sy, a.ty, b.sy);
    var lhs := Apply(Concat(a, b), p);
    var rhs := Apply(b, Apply(a, p));
    assert lhs.x == rhs.x;
    assert lhs.y == rhs.y;
  }
}
