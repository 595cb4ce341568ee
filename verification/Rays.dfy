/** The two ways in which common/rule.c follows a line, and why they agree: the attack test
    walks a ray square by square, the legality test divides the displacement by the offset. */
module Rays {
  import opened Pieces
  import opened ChessBoard
  import opened Rules

  predicate IsUnit(o: Offset) {
    Abs(o.x) <= 1 && Abs(o.y) <= 1 && (o.x != 0 || o.y != 0)
  }

  /** `t` is the `n`-th square of the ray from `s` along `o`, and nothing stands before it. */
  predicate OnRay(b: Board, s: Sq, o: Offset, t: Sq, n: int) {
    n >= 1 && t == Along(s, o.x, o.y, n) && forall m :: 1 <= m < n ==> At(b, Along(s, o.x, o.y, m)).dead
  }

  ghost predicate RayReaches(b: Board, s: Sq, o: Offset, t: Sq) {
    exists n :: OnRay(b, s, o, t, n)
  }

  lemma SliderOffsetsAreUnits(k: Kind, o: Offset)
    requires IsSlider(k) && o in Offsets(k)
    ensures IsUnit(o)
  {
    SliderTable(k, o);
  }

  /** Once a ray has left the board it never comes back. */
  lemma RayStaysOff(s: Sq, o: Offset, n: int, m: int)
    requires InBoard(s) && IsUnit(o) && 1 <= n <= m
    requires !InBoard(Along(s, o.x, o.y, n))
    ensures !InBoard(Along(s, o.x, o.y, m))
  {
  }

  lemma RayGivesLine(b: Board, s: Sq, t: Sq, k: Kind, o: Offset, n: int)
    requires IsSlider(k) && o in Offsets(k) && OnRay(b, s, o, t, n)
    ensures Geometry(k, t.x - s.x, t.y - s.y) && ClearLine(b, s, t)
  {
    SliderTable(k, o);
    assert Sign(t.x - s.x) == o.x && Sign(t.y - s.y) == o.y && Distance(s, t) == n;
  }

  lemma LineArrives(s: Sq, t: Sq, k: Kind)
    requires IsSlider(k) && Geometry(k, t.x - s.x, t.y - s.y)
    ensures Towards(s, t, Distance(s, t)) == t && Distance(s, t) >= 1
    ensures Geometry(k, Sign(t.x - s.x), Sign(t.y - s.y))
  {
  }

  lemma LineGivesRay(b: Board, s: Sq, t: Sq, k: Kind) returns (o: Offset)
    requires IsSlider(k) && Geometry(k, t.x - s.x, t.y - s.y) && ClearLine(b, s, t)
    ensures o in Offsets(k) && RayReaches(b, s, o, t)
  {
    o := Offset(Sign(t.x - s.x), Sign(t.y - s.y));
    SliderTable(k, o);
    LineArrives(s, t, k);
    var n := Distance(s, t);
    forall m | 1 <= m < n ensures At(b, Along(s, o.x, o.y, m)).dead {
      assert At(b, Towards(s, t, m)).dead;
    }
    assert OnRay(b, s, o, t, n);
  }

  /** Following the rays of the table reaches exactly the squares at the end of an open line. */
  lemma RaysAreLines(b: Board, s: Sq, t: Sq, k: Kind)
    requires IsSlider(k)
    ensures (exists o :: o in Offsets(k) && RayReaches(b, s, o, t))
       <==> Geometry(k, t.x - s.x, t.y - s.y) && ClearLine(b, s, t)
  {
    if o :| o in Offsets(k) && RayReaches(b, s, o, t) {
      var n :| OnRay(b, s, o, t, n);
      RayGivesLine(b, s, t, k, o, n);
    }
    if Geometry(k, t.x - s.x, t.y - s.y) && ClearLine(b, s, t) {
      var o := LineGivesRay(b, s, t, k);
    }
  }

  // ----- the division and alignment test

  /** C's division and remainder, which truncate toward zero. */
  function CDiv(a: int, d: int): int
    requires d != 0
  {
    Sign(a) * Sign(d) * (Abs(a) / Abs(d))
  }

  function CMod(a: int, d: int): int
    requires d != 0
  {
    a - d * CDiv(a, d)
  }

  /** The local `dd` of `is_move_legal`. */
  function Quotient(o: Offset, rx: int, ry: int): int
    requires o.x != 0 || o.y != 0
  {
    if o.x != 0 then CDiv(rx, o.x) else CDiv(ry, o.y)
  }

  /** The local `align` of `is_move_legal`. */
  predicate Aligned(o: Offset, rx: int, ry: int)
    requires o.x != 0 || o.y != 0
  {
    if o.x == 0 then rx == 0 && CDiv(ry, o.y) > 0
    else if o.y == 0 then ry == 0 && CDiv(rx, o.x) > 0
    else CMod(rx, o.x) == 0 && CMod(ry, o.y) == 0 && Quotient(o, rx, ry) == CDiv(ry, o.y) && Quotient(o, rx, ry) > 0
  }

  lemma UnitDivision(a: int, d: int)
    requires d == 1 || d == -1
    ensures CDiv(a, d) == (if d == 1 then a else -a) && CMod(a, d) == 0
  {
  }

  lemma UnitProduct(u: int, n: int)
    requires Abs(u) <= 1 && n >= 0
    ensures u * n == Steps(u, n)
  {
  }

  /** The test by division holds exactly when some positive number of steps along `o` covers
      the displacement, and the quotient is that number. */
  lemma AlignedMeansOnRay(o: Offset, s: Sq, d: Sq)
    requires IsUnit(o)
    ensures Aligned(o, d.x - s.x, d.y - s.y) <==> exists n :: n >= 1 && d == Along(s, o.x, o.y, n)
    ensures forall n :: n >= 1 && d == Along(s, o.x, o.y, n) ==> n == Quotient(o, d.x - s.x, d.y - s.y)
  {
    hide CDiv, CMod;
    var rx, ry := d.x - s.x, d.y - s.y;
    if o.x != 0 { UnitDivision(rx, o.x); }
    if o.y != 0 { UnitDivision(ry, o.y); }
    if Aligned(o, rx, ry) {
      assert d == Along(s, o.x, o.y, Quotient(o, rx, ry));
    }
  }

  /** Alignment by division with no blocker before the quotient is the ray walk's verdict. */
  lemma DivisionAgreesWithWalk(b: Board, o: Offset, s: Sq, d: Sq)
    requires IsUnit(o)
    ensures RayReaches(b, s, o, d) <==>
            Aligned(o, d.x - s.x, d.y - s.y) &&
            forall m :: 1 <= m < Quotient(o, d.x - s.x, d.y - s.y) ==> At(b, Along(s, o.x, o.y, m)).dead
  {
    AlignedMeansOnRay(o, s, d);
    var dd := Quotient(o, d.x - s.x, d.y - s.y);
    if Aligned(o, d.x - s.x, d.y - s.y) && forall m :: 1 <= m < dd ==> At(b, Along(s, o.x, o.y, m)).dead {
      assert OnRay(b, s, o, d, dd);
    }
  }
}
