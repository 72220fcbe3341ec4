/** The triangle-index generator of the polygon graphic (`UIPoly.Triangles`). */
module Triangulation {
  import opened Geometry

  /** Triangle k of a proper fan over a convex polygon: vertex 0 with edge (k+1, k+2). */
  function FanTriangle(k: int): Tri { Tri(0, k + 1, k + 2) }

  /** The proper fan over an n-gon: n - 2 triangles sharing vertex 0. */
  function Fan(n: int): seq<Tri>
  {
    seq(if n < 2 then 0 else n - 2, k => FanTriangle(k))
  }

  /** Triangle i of the general loop: (0, i, i+1), the third index wrapping to 1 at the end. */
  function LoopTriangle(sides: int, i: int): Tri
  {
    Tri(0, i, if i + 1 >= sides then 1 else i + 1)
  }

  /** What `Triangles(sides)` returns: the hard-coded fans for 3, 4 and 5 sides,
      and `sides` loop triangles (none when `sides` is not positive) otherwise. */
  function TriangleList(sides: int): seq<Tri>
  {
    if 3 <= sides <= 5 then Fan(sides)
    else seq(if sides < 0 then 0 else sides, i => LoopTriangle(sides, i))
  }

  /** Every index of `t` names one of the vertices 0 .. n-1. */
  predicate InRange(t: Tri, n: int)
  {
    0 <= t.x < n && 0 <= t.y < n && 0 <= t.z < n
  }

  predicate AllInRange(ts: seq<Tri>, n: int)
  {
    forall k :: 0 <= k < |ts| ==> InRange(ts[k], n)
  }

  /** The index generator, as written: three early returns, then a counting loop. */
  method Triangles(sides: int) returns (tris: seq<Tri>)
    ensures tris == TriangleList(sides)
  {
    tris := [];
    if sides == 3 {
      tris := tris + [Tri(0, 1, 2)];
      return;
    }
    if sides == 4 {
      tris := tris + [Tri(0, 1, 2)];
      tris := tris + [Tri(0, 2, 3)];
      return;
    }
    if sides == 5 {
      tris := tris + [Tri(0, 1, 2)];
      tris := tris + [Tri(0, 2, 3)];
      tris := tris + [Tri(0, 3, 4)];
      return;
    }
    var i := 0;
    while i < sides
      invariant 0 <= i <= (if sides < 0 then 0 else sides)
      invariant |tris| == i
      invariant forall k :: 0 <= k < i ==> tris[k] == LoopTriangle(sides, k)
    {
      var z;
      if i + 1 >= sides {
        z := 1;
      } else {
        z := i + 1;
      }
      tris := tris + [Tri(0, i, z)];
      i := i + 1;
    }
  }

  /** The three hard-coded results. */
  lemma SpecialCaseValues()
    ensures TriangleList(3) == [Tri(0, 1, 2)]
    ensures TriangleList(4) == [Tri(0, 1, 2), Tri(0, 2, 3)]
    ensures TriangleList(5) == [Tri(0, 1, 2), Tri(0, 2, 3), Tri(0, 3, 4)]
  {
  }

  /** For 3, 4 and 5 sides the result is a proper fan: sides - 2 triangles (0, k+1, k+2). */
  lemma SpecialCasesAreFans(sides: int)
    requires 3 <= sides <= 5
    ensures |TriangleList(sides)| == sides - 2
    ensures forall k :: 0 <= k < sides - 2 ==> TriangleList(sides)[k] == Tri(0, k + 1, k + 2)
  {
  }

  /** Any other count: exactly `sides` triangles, (0, i, i+1) up to the last,
      which wraps to (0, sides-1, 1); nothing at all for a non-positive count. */
  lemma GeneralCase(sides: int)
    requires !(3 <= sides <= 5)
    ensures sides <= 0 ==> TriangleList(sides) == []
    ensures sides >= 0 ==> |TriangleList(sides)| == sides
    ensures forall i :: 0 <= i < sides - 1 ==> TriangleList(sides)[i] == Tri(0, i, i + 1)
    ensures sides >= 1 ==> TriangleList(sides)[sides - 1] == Tri(0, sides - 1, 1)
  {
  }

  /** Every emitted triangle, in every branch, has vertex 0 as its first index. */
  lemma FirstIndexIsZero(sides: int)
    ensures forall k :: 0 <= k < |TriangleList(sides)| ==> TriangleList(sides)[k].x == 0
  {
  }

  /** The emitted indices all name existing vertices exactly when the count is not 1:
      for one side the single triangle (0, 0, 1) names vertex 1, which does not exist. */
  lemma IndicesInRangeIff(sides: int)
    ensures AllInRange(TriangleList(sides), sides) <==> sides != 1
  {
    var ts := TriangleList(sides);
    if sides == 1 {
      assert ts[0] == Tri(0, 0, 1);
      assert !InRange(ts[0], sides);
    } else if 3 <= sides <= 5 {
      forall k | 0 <= k < |ts| ensures InRange(ts[k], sides) {
        assert ts[k] == FanTriangle(k);
      }
    } else {
      forall k | 0 <= k < |ts| ensures InRange(ts[k], sides) {
        assert ts[k] == LoopTriangle(sides, k);
      }
    }
  }

  /** The one-side result exactly. */
  lemma OneSide()
    ensures TriangleList(1) == [Tri(0, 0, 1)]
  {
  }

  /** Two sides give two degenerate triangles. */
  lemma TwoSides()
    ensures TriangleList(2) == [Tri(0, 0, 1), Tri(0, 1, 1)]
  {
  }

  /** Outside 3..5 the loop yields the proper fan framed by two extra triangles:
      a degenerate (0, 0, 1) in front and a wrap-around (0, sides-1, 1) behind. */
  lemma GeneralIsFanPlusTwo(sides: int)
    requires sides >= 2 && !(3 <= sides <= 5)
    ensures TriangleList(sides) == [Tri(0, 0, 1)] + Fan(sides) + [Tri(0, sides - 1, 1)]
  {
  }

  /** The general loop does not follow the n - 2 rule of the hard-coded cases:
      for six or more sides it emits two triangles more than a fan. */
  lemma GeneralDisagreesWithFan(sides: int)
    requires sides >= 6
    ensures |TriangleList(sides)| == |Fan(sides)| + 2
    ensures TriangleList(sides) != Fan(sides)
  {
  }
}
