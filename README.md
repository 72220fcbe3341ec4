# UIPoly polygon graphic — a Dafny model

`UIPoly` is a UI graphic component for a game engine's canvas. It stores a polygon as
a list of points normalized to its owning rectangle. On each redraw it turns them into
a triangle mesh: one vertex per point in rect space, one flat tint colour, the point
shifted by (0.5, 0.5) as its UV, and a triangle list computed from the point count alone.
This project models that mesh builder and the state around it, and proves what it does,
including the odd cases:

- `Triangles` hard-codes proper fans (n - 2 triangles) for 3, 4 and 5 points. Any other
  count goes through a loop that emits n triangles. For n >= 2 that loop output is the
  proper fan with a degenerate (0, 0, 1) in front and a wrap-around (0, n-1, 1) behind.
  For one point the only triangle, (0, 0, 1), names a vertex that does not exist.
- The `m_VertsWS` setter is not the inverse of the getter. Set-then-get moves every
  point by `center - size * center`. So it is the identity exactly when each centre
  coordinate is zero or its side is 1 (in particular, when the rectangle is centred on
  the origin).

Modules: `Geometry` holds the value types (Vector2, Vector3, Vector3Int, Rect, Color).
`Triangulation` holds `Triangles`. `VertexSpace` holds the rect-space conversions and
their round trips. `PolygonHelpers` holds `Average`, `AverageAdded` and `UV`. `UI` holds
the host's `VertexHelper` buffer and the `UIPoly` class.

`Triangles`, the `m_VertsWS` getter and setter, `Average` and `UV` are loops in the
source, so they are methods with loop invariants. `Triangles` is proved against the
specification function `TriangleList`, the getter against `ToRectAll`, the setter
against `FromRectAll` and `Average` against `Mean`; lemmas state what those functions
mean. `UV` states its result element by element. `texture`, `uvRect` and `OnPopulateMesh` change
fields, so they are methods of the `UIPoly` class with `modifies` clauses. `mainTexture`
is a conditional, so it is a function.

Host state is modelled as plain fields of `UIPoly`: `rect` (the RectTransform's rect),
`color`, `material`, the white placeholder texture, and the vertices/material dirty
flags. None of the modelled operations writes `rect`, `color`, `material` or the
placeholder. The placeholder is nullable so that `OnPopulateMesh`'s null check on the
resolved texture still has two branches. The source itself never lets it be null.

## Model

| member | source | states |
|---|---|---|
| Triangulation.Triangles | UIPoly.cs:256-297 | the early returns and the counting loop produce exactly `TriangleList(sides)` |
| Triangulation.SpecialCaseValues | UIPoly.cs:263-280 | 3, 4 and 5 sides give [(0,1,2)], [(0,1,2),(0,2,3)] and [(0,1,2),(0,2,3),(0,3,4)] |
| Triangulation.SpecialCasesAreFans | UIPoly.cs:263-280 | for 3..5 sides there are sides-2 triangles and triangle k is (0,k+1,k+2) |
| Triangulation.GeneralCase | UIPoly.cs:281-296 | outside 3..5: exactly `sides` triangles (none if sides <= 0); triangle i is (0,i,i+1) for i < sides-1; the last is (0,sides-1,1) |
| Triangulation.FirstIndexIsZero | UIPoly.cs:256-297 | in every branch each triangle's first index is 0 |
| Triangulation.IndicesInRangeIff | UIPoly.cs:281-293 | all indices lie in [0,sides) if and only if sides != 1 |
| Triangulation.OneSide | UIPoly.cs:281-293 | one side yields exactly [(0,0,1)] |
| Triangulation.TwoSides | UIPoly.cs:281-293 | two sides yield the two degenerate triangles [(0,0,1),(0,1,1)] |
| Triangulation.GeneralIsFanPlusTwo | UIPoly.cs:281-296 | for sides >= 2 outside 3..5 the loop output is (0,0,1), then the proper fan, then (0,sides-1,1) |
| Triangulation.GeneralDisagreesWithFan | UIPoly.cs:263-296 | from six sides on the loop emits two triangles more than the n-2 rule of the hard-coded cases |
| VertexSpace.RoundTripShift | UIPoly.cs:150-170 | setter then getter moves a point by center - size*center |
| VertexSpace.ReverseTripShift | UIPoly.cs:150-170 | getter then setter moves a point by center/size - center |
| VertexSpace.RoundTripExactIff | UIPoly.cs:150-170 | a point survives set-then-get unchanged iff each centre coordinate is 0 or its side is 1 |
| VertexSpace.SetThenGet | UIPoly.cs:150-170 | set-then-get keeps the list's length and shifts each element by center - size*center |
| VertexSpace.SetThenGetIdentityIff | UIPoly.cs:150-170 | set-then-get returns a non-empty list unchanged iff the rectangle round-trips exactly |
| VertexSpace.CenteredRoundTrip | UIPoly.cs:150-170 | with the centre at (0,0) and non-zero sizes, set-then-get is the identity |
| VertexSpace.GetThenSet | UIPoly.cs:150-170 | get-then-set keeps the length and shifts each element by center/size - center |
| PolygonHelpers.SumOfCopies | UIPoly.cs:227-238 | the accumulated sum of n equal points is n times the point |
| PolygonHelpers.MeanOfCopies | UIPoly.cs:227-238 | the average of n >= 1 equal points is that point |
| PolygonHelpers.Average | UIPoly.cs:227-238 | the one-pass sum-and-count loop returns the sum of the points divided by their number |
| PolygonHelpers.AverageAdded | UIPoly.cs:239-245 | the result is one longer, starts with the average and continues with the input unchanged |
| PolygonHelpers.UV | UIPoly.cs:299-307 | same length; element i is point i without its z coordinate |
| UI.VertexHelper.Clear | UIPoly.cs:179 | the buffer holds no vertices and no triangles |
| UI.VertexHelper.AddVert | UIPoly.cs:194 | appends one vertex with the given position, colour and UV; triangles unchanged |
| UI.VertexHelper.AddTriangle | UIPoly.cs:201 | appends one index triple; vertices unchanged |
| UI.UIPoly.constructor | UIPoly.cs:24-25 | a new component has no texture and UV rect (0,0,1,1) (lines 24-25), no points (line 138) and no triangles (line 172); host state, dirty flags included, is as supplied |
| UI.UIPoly.MainTexture | UIPoly.cs:35-50 | own texture first, then the material's main texture, then the white placeholder; null only if all three are absent |
| UI.UIPoly.SetTexture | UIPoly.cs:85-100 | the same texture changes nothing, flags included; another texture is stored and marks vertices and material dirty |
| UI.UIPoly.SetUVRect | UIPoly.cs:105-118 | the same rectangle changes nothing; another is stored and marks only the vertices dirty |
| UI.UIPoly.VertsWS | UIPoly.cs:150-160 | returns the stored points mapped to centre + size*point, same length and order |
| UI.UIPoly.SetVertsWS | UIPoly.cs:161-169 | replaces the stored points with point/size - centre of each given point, same length and order |
| UI.UIPoly.OnPopulateMesh | UIPoly.cs:176-203 | always clears the buffer; when a texture resolves, adds one mesh vertex per point in order, then the triangles of `Triangles(count)` in order, and stores them in `tris`; otherwise the buffer stays empty and `tris` is unchanged |
| UI.MeshVertexLayout | UIPoly.cs:190-195 | vertex i sits at the getter's point i, carries the tint, and has UV point i + (0.5,0.5) |
| UI.MeshIndicesValidIff | UIPoly.cs:190-202 | every triangle of the built mesh names an existing vertex iff the polygon does not have exactly one point |
| UI.SquareScenario | UIPoly.cs:176-203 | the corner square of a 100x100 rect centred on the origin gives corners (+-50,+-50), unit-square UVs and triangles [(0,1,2),(0,2,3)] |

## Left out

- Floating point: coordinates are reals. Rounding, infinities and NaN are not modelled.
- UI.UIPoly.SetVertsWS: a rectangle with zero width or height is excluded. The source divides by zero there and stores infinities or NaN.
- PolygonHelpers.Average: the empty list is excluded. The source divides 0 by 0 there and returns NaN.
- PolygonHelpers.AverageAdded: the empty list is excluded, for the same reason as `Average`.
- `OrderClockwise` (UIPoly.cs:246-253): an angle sort through `Atan2` and a library sort; nothing calls it.
- `SetNativeSize` (UIPoly.cs:126-136): float rounding and writes to the host's RectTransform.
- `OnDidApplyAnimationProperties` (UIPoly.cs:310-315): host callbacks only. The raycast-dirty flag is not modelled.
- The `m_Verts` setter (UIPoly.cs:145-148) calls itself forever. Only the getter is used, and it is the field `vertices`.
- The `texture` and `uvRect` getters are plain field reads, represented by the fields `texture` and `uvRect`.
- The host's Graphic machinery is not modelled: `SetVerticesDirty`/`SetMaterialDirty` are reduced to raising two flags, and the rebuild that clears them is host code. The conversion of `Color` to `Color32` and the z = 0 of vertex positions are also left out.
- `VertexHelper` belongs to the host engine and is not part of this model beyond the three operations the graphic calls, each modelled as an append to, or clearing of, a buffer.
- Editor/UIPolyEditor.cs (inspector GUI, scene handles, menu wizard, preview textures) is editor glue over host APIs and is not part of this model.
