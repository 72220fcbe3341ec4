/** The polygon helpers of `UIPoly` that the mesh builder no longer calls:
    `Average`, `AverageAdded` and `UV`. */
module PolygonHelpers {
  import opened Geometry

  const Zero3: Vec3 := Vec3(0.0, 0.0, 0.0)

  /** Sum of the points, accumulated from the front as a `foreach` does. */
  function Sum(vs: seq<Vec3>): Vec3
  {
    if vs == [] then Zero3 else Sum(vs[..|vs| - 1]).Plus(vs[|vs| - 1])
  }

  /** Vector3 divided by a scalar. */
  function Divide(v: Vec3, d: real): Vec3
    requires d != 0.0
  {
    Vec3(v.x / d, v.y / d, v.z / d)
  }

  /** The mean of a non-empty list of points. */
  function Mean(vs: seq<Vec3>): Vec3
    requires |vs| > 0
  {
    Divide(Sum(vs), |vs| as real)
  }

  /** n copies of one point. */
  function Copies(v: Vec3, n: nat): seq<Vec3>
  {
    seq(n, _ => v)
  }

  /** The sum of n copies of a point is n times that point. */
  lemma {:induction false} SumOfCopies(v: Vec3, n: nat)
    ensures Sum(Copies(v, n)) == Vec3(n as real * v.x, n as real * v.y, n as real * v.z)
  {
    if n > 0 {
      assert Copies(v, n)[..n - 1] == Copies(v, n - 1);
      SumOfCopies(v, n - 1);
    }
  }

  /** The mean of a list of equal points is that point. */
  lemma MeanOfCopies(v: Vec3, n: nat)
    requires n > 0
    ensures Mean(Copies(v, n)) == v
  {
    SumOfCopies(v, n);
  }

  /** `Average`: sum and count the points in one pass, then divide. */
  method Average(vs: seq<Vec3>) returns (average: Vec3)
    requires |vs| > 0
    ensures average == Mean(vs)
  {
    var count := 0;
    var sum := Zero3;
    for i := 0 to |vs|
      invariant count == i
      invariant sum == Sum(vs[..i])
    {
      assert vs[..i + 1][..i] == vs[..i];
      sum := sum.Plus(vs[i]);
      count := count + 1;
    }
    assert vs[..|vs|] == vs;
    average := Divide(sum, count as real);
  }

  /** `AverageAdded`: the mean in front, followed by the points themselves. */
  method AverageAdded(vs: seq<Vec3>) returns (averageFirst: seq<Vec3>)
    requires |vs| > 0
    ensures |averageFirst| == |vs| + 1
    ensures averageFirst[0] == Mean(vs)
    ensures averageFirst[1..] == vs
  {
    averageFirst := [];
    var average := Average(vs);
    averageFirst := averageFirst + [average];
    averageFirst := averageFirst + vs;
  }

  /** `UV`: drop each point's z coordinate, keeping order and length. */
  method UV(verticies: seq<Vec3>) returns (uvs: seq<Vec2>)
    ensures |uvs| == |verticies|
    ensures forall i :: 0 <= i < |uvs| ==> uvs[i] == Vec2(verticies[i].x, verticies[i].y)
  {
    uvs := [];
    for i := 0 to |verticies|
      invariant |uvs| == i
      invariant forall k :: 0 <= k < i ==> uvs[k] == Vec2(verticies[k].x, verticies[k].y)
    {
      uvs := uvs + [Vec2(verticies[i].x, verticies[i].y)];
    }
  }
}
