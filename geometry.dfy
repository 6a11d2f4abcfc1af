/** The integer arithmetic done by the pointer-move handler of the paint program:
    the Shift "square" constraint on a shape's signed size and the ellipse radii. */
module Geometry {

  /** Magnitude of a signed length. */
  function Abs(n: int): (r: nat)
    ensures r == n || r == -n
  {
    if n < 0 then -n else n
  }

  /** The smaller of two magnitudes. */
  function Min(a: nat, b: nat): (r: nat)
    ensures r <= a && r <= b
    ensures r == a || r == b
  {
    if a <= b then a else b
  }

  /** The Shift constraint applied to a signed (width, height): both take the smaller of
      the two magnitudes, and each keeps the direction of its own delta (a delta that is
      not positive gives the negated side). */
  function SquareClamp(width: int, height: int): (r: (int, int))
    ensures Abs(r.0) == Min(Abs(width), Abs(height)) && Abs(r.1) == Abs(r.0)
    ensures width > 0 ==> r.0 >= 0
    ensures width <= 0 ==> r.0 <= 0
    ensures height > 0 ==> r.1 >= 0
    ensures height <= 0 ==> r.1 <= 0
  {
    var side: int := Min(Abs(width), Abs(height));
    (if width > 0 then side else -side, if height > 0 then side else -side)
  }

  /** The clamp changes nothing exactly when the size is already square. */
  lemma SquareClampFixesSquares(width: int, height: int)
    ensures SquareClamp(width, height) == (width, height) <==> Abs(width) == Abs(height)
  {
  }

  /** Clamping twice is clamping once. */
  lemma SquareClampIdempotent(width: int, height: int)
    ensures var r := SquareClamp(width, height); SquareClamp(r.0, r.1) == r
  {
  }

  /** The ellipse radii computed from the signed deltas: the first is the magnitude of
      width - height, the second the magnitude of width - height + 24 (a negative or zero
      value is negated). They are never both small: together they reach at least 24. */
  function EllipseRadii(width: int, height: int): (r: (nat, nat))
    ensures r.0 == Abs(width - height) && r.1 == Abs(width - height + 24)
    ensures r.0 + r.1 >= 24
  {
    var radiusX := width - height;
    var radiusY := width - height + 24;
    (if radiusX < 0 || radiusX == 0 then -radiusX else radiusX,
     if radiusY < 0 || radiusY == 0 then -radiusY else radiusY)
  }
}
