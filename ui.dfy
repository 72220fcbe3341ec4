/** The polygon graphic component (`UIPoly`) and the host's vertex buffer it fills. */
module UI {
  import opened Geometry
  import opened VertexSpace
  import opened Triangulation

  /** An image resource owned by the host; only its identity matters here. */
  class Texture {
  }

  /** A host material; the graphic only asks it for its main texture. */
  class Material {
    var mainTexture: Texture?
  }

  /** One vertex as the host's mesh buffer stores it. The position's z is always 0
      (a Vector2 widened to a Vector3) and is not represented. */
  datatype UIVertex = UIVertex(position: Vec2, color: Color, uv: Vec2)

  /** The vertex of the mesh built for normalized point `v`: its rect-space position,
      the flat tint, and the point offset by (0.5, 0.5) as its UV. */
  function MeshVertex(r: Rect, c: Color, v: Vec2): UIVertex
  {
    UIVertex(ToRect(r, v), c, v.Plus(Half))
  }

  /** The mesh vertices built for a whole polygon, one per point and in order. */
  function MeshVertices(r: Rect, c: Color, vs: seq<Vec2>): seq<UIVertex>
  {
    seq(|vs|, i requires 0 <= i < |vs| => MeshVertex(r, c, vs[i]))
  }

  /** The host's mesh buffer (`VertexHelper`), reduced to the three operations the
      graphic uses: the vertices added so far and the triangles added so far. */
  class VertexHelper {
    var verts: seq<UIVertex>
    var triangles: seq<Tri>

    constructor ()
      ensures verts == [] && triangles == []
    {
      verts := [];
      triangles := [];
    }

    method Clear()
      modifies this
      ensures verts == [] && triangles == []
    {
      verts := [];
      triangles := [];
    }

    method AddVert(position: Vec2, color: Color, uv: Vec2)
      modifies this
      ensures verts == old(verts) + [UIVertex(position, color, uv)]
      ensures triangles == old(triangles)
    {
      verts := verts + [UIVertex(position, color, uv)];
    }

    method AddTriangle(idx0: int, idx1: int, idx2: int)
      modifies this
      ensures triangles == old(triangles) + [Tri(idx0, idx1, idx2)]
      ensures verts == old(verts)
    {
      triangles := triangles + [Tri(idx0, idx1, idx2)];
    }
  }

  /** The polygon graphic. `texture`, `uvRect`, `vertices` and `tris` are its own fields
      (`m_Texture`, `m_UVRect`, `m_Verticies`, `tris`); `rect`, `color`, `material`,
      `whiteTexture` and the two dirty flags stand for state the host's Graphic base
      class and layout system own. */
  class UIPoly {
    var texture: Texture?
    var uvRect: Rect
    var vertices: seq<Vec2>
    var tris: seq<Tri>

    var rect: Rect
    var color: Color
    var material: Material?
    var whiteTexture: Texture?
    var verticesDirty: bool
    var materialDirty: bool

    /** A freshly added component: no texture of its own, the full UV rectangle, no points
        and no triangles; the host state is whatever the host supplies. */
    constructor (rect: Rect, color: Color, material: Material?, whiteTexture: Texture?,
                 verticesDirty: bool, materialDirty: bool)
      ensures texture == null && uvRect == Rect(0.0, 0.0, 1.0, 1.0)
      ensures vertices == [] && tris == []
      ensures this.rect == rect && this.color == color
      ensures this.material == material && this.whiteTexture == whiteTexture
      ensures this.verticesDirty == verticesDirty && this.materialDirty == materialDirty
    {
      texture := null;
      uvRect := Rect(0.0, 0.0, 1.0, 1.0);
      vertices := [];
      tris := [];
      this.rect := rect;
      this.color := color;
      this.material := material;
      this.whiteTexture := whiteTexture;
      this.verticesDirty := verticesDirty;
      this.materialDirty := materialDirty;
    }

    /** `mainTexture`: the graphic's own texture when set, else the material's main
        texture when there is one, else the white placeholder. */
    function MainTexture(): (t: Texture?)
      reads this, material
      ensures t == texture || t == whiteTexture || (material != null && t == material.mainTexture)
      ensures texture != null ==> t == texture
      ensures texture == null && material != null && material.mainTexture != null ==>
                t == material.mainTexture
      ensures t == null <==>
                texture == null && (material == null || material.mainTexture == null) && whiteTexture == null
    {
      if texture == null then
        if material != null && material.mainTexture != null then material.mainTexture
        else whiteTexture
      else texture
    }

    /** The `texture` setter: assigning the current texture changes nothing; any other
        texture is stored and marks both vertices and material dirty. */
    method SetTexture(value: Texture?)
      modifies this`texture, this`verticesDirty, this`materialDirty
      ensures old(texture) == value ==>
                texture == value && verticesDirty == old(verticesDirty) && materialDirty == old(materialDirty)
      ensures old(texture) != value ==> texture == value && verticesDirty && materialDirty
    {
      if texture == value {
        return;
      }
      texture := value;
      verticesDirty := true;
      materialDirty := true;
    }

    /** The `uvRect` setter: assigning the current rectangle changes nothing; any other
        rectangle is stored and marks only the vertices dirty. */
    method SetUVRect(value: Rect)
      modifies this`uvRect, this`verticesDirty
      ensures old(uvRect) == value ==> uvRect == value && verticesDirty == old(verticesDirty)
      ensures old(uvRect) != value ==> uvRect == value && verticesDirty
    {
      if uvRect == value {
        return;
      }
      uvRect := value;
      verticesDirty := true;
    }

    /** The `m_VertsWS` getter: every stored point mapped into rect space, in order. */
    method VertsWS() returns (verts: seq<Vec2>)
      ensures verts == ToRectAll(rect, vertices)
    {
      verts := [];
      for i := 0 to |vertices|
        invariant |verts| == i
        invariant forall k :: 0 <= k < i ==> verts[k] == ToRect(rect, vertices[k])
      {
        verts := verts + [ToRect(rect, vertices[i])];
      }
    }

    /** The `m_VertsWS` setter: replaces the stored points with the given rect-space
        points mapped back by the setter's formula. */
    method SetVertsWS(value: seq<Vec2>)
      requires Invertible(rect)
      modifies this`vertices
      ensures vertices == FromRectAll(rect, value)
    {
      var verts := [];
      for i := 0 to |value|
        invariant |verts| == i
        invariant forall k :: 0 <= k < i ==> verts[k] == FromRect(rect, value[k])
      {
        verts := verts + [FromRect(rect, value[i])];
      }
      vertices := verts;
    }

    /** `OnPopulateMesh`: always empties the buffer; when a texture resolves, adds one
        vertex per stored point and then the triangles of `Triangles(count)` in order,
        keeping those triangles in `tris`. */
    method OnPopulateMesh(vh: VertexHelper)
      modifies this`tris, vh
      ensures old(MainTexture()) == null ==>
                vh.verts == [] && vh.triangles == [] && tris == old(tris)
      ensures old(MainTexture()) != null ==>
                && vh.verts == MeshVertices(rect, color, vertices)
                && tris == TriangleList(|vertices|)
                && vh.triangles == tris
    {
      var tex := MainTexture();
      vh.Clear();
      if tex != null {
        var verts := VertsWS();
        tris := Triangles(|verts|);
        for i := 0 to |verts|
          invariant tris == TriangleList(|vertices|)
          invariant vh.triangles == []
          invariant |vh.verts| == i
          invariant forall k :: 0 <= k < i ==> vh.verts[k] == MeshVertex(rect, color, vertices[k])
        {
          var color32 := color;
          vh.AddVert(verts[i], color32, vertices[i].Plus(Half));
        }
        for i := 0 to |tris|
          invariant tris == TriangleList(|vertices|)
          invariant vh.verts == MeshVertices(rect, color, vertices)
          invariant vh.triangles == tris[..i]
        {
          vh.AddTriangle(tris[i].x, tris[i].y, tris[i].z);
        }
      }
    }
  }

  /** The mesh has one vertex per point; vertex i sits at the getter's point i, carries the
      tint, and has UV point i + (0.5, 0.5). */
  lemma MeshVertexLayout(r: Rect, c: Color, vs: seq<Vec2>)
    ensures |MeshVertices(r, c, vs)| == |vs|
    ensures forall i :: 0 <= i < |vs| ==>
              && MeshVertices(r, c, vs)[i].position == ToRectAll(r, vs)[i]
              && MeshVertices(r, c, vs)[i].color == c
              && MeshVertices(r, c, vs)[i].uv == Vec2(vs[i].x + 0.5, vs[i].y + 0.5)
  {
  }

  /** Every triangle of the mesh names an existing vertex exactly when the polygon
      does not have a single point. */
  lemma MeshIndicesValidIff(r: Rect, c: Color, vs: seq<Vec2>)
    ensures AllInRange(TriangleList(|vs|), |MeshVertices(r, c, vs)|) <==> |vs| != 1
  {
    IndicesInRangeIff(|vs|);
  }

  /** A square of side 100 centred on the origin with corners at (+-0.5, +-0.5): the corners
      land at (+-50, +-50), the UVs are the unit square's corners, and two triangles cover it. */
  lemma SquareScenario(c: Color)
    ensures var r := Rect(-50.0, -50.0, 100.0, 100.0);
            var square := [Vec2(-0.5, -0.5), Vec2(0.5, -0.5), Vec2(0.5, 0.5), Vec2(-0.5, 0.5)];
            && MeshVertices(r, c, square) ==
                 [ UIVertex(Vec2(-50.0, -50.0), c, Vec2(0.0, 0.0)),
                   UIVertex(Vec2(50.0, -50.0), c, Vec2(1.0, 0.0)),
                   UIVertex(Vec2(50.0, 50.0), c, Vec2(1.0, 1.0)),
                   UIVertex(Vec2(-50.0, 50.0), c, Vec2(0.0, 1.0)) ]
            && TriangleList(|square|) == [Tri(0, 1, 2), Tri(0, 2, 3)]
  {
  }
}
