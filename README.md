# A verified model of a small software 3D renderer's geometry pipeline

The program is a wire-frame renderer written in Python with numpy. It keeps a
camera, turns every line of a shape into camera space with a view matrix,
clips the line against the near plane z = Z_NEAR, projects it and divides by
w. A depth-tested scanline rasteriser fills triangles into a depth buffer and
a pixel array. This project models that core in Dafny:

| file | module | models |
|---|---|---|
| `wrappers.dfy` | `Wrappers` | `Option` and `Result` |
| `vectors.dfy` | `Vectors` | `vector.py`: `Vec4` values and the `Vector4` class over a 4x1 array |
| `matrices.dfy` | `Matrices` | `matrix.py`: `Mat4` values, the `Matrix4` class over a 4x4 array, the rotation and translation builders |
| `clipping.dfy` | `Clipping` | `clipping.py`: the intersection of a line with a plane and the clip of a segment |
| `cameras.dfy` | `Cameras` | `camera.py`: the camera, its shared class attributes, its view and projection matrices |
| `shapes.dfy` | `Shapes` | `shape.py`: a shape as a list of endpoint pairs, its deep copy and its in-place offset |
| `drawing.dfy` | `Drawing` | `drawing.py`: `draw_triangle` with `draw_horizontal_line`, and the NDC-to-pixel mapping of `draw_shape` |
| `pipeline.dfy` | `Pipeline` | `main.py`: its own camera, shape offset, `normalize`, clipper, projection and `on_update_shape` |

Two layers are used throughout. A value layer of datatypes and functions
(`Vec4`, `Mat4`, `Dot`, `Mul`, `Project`, `LineClip`, `UpdateLines`,
`ApplySpans`, ...) states what each operation computes. An object layer of
classes over arrays (`Vector4`, `Matrix4`, `Camera`, `Shape`, the depth and
pixel buffers) does what the source does step by step: it copies, writes in
place, shares arrays and loops. Each method is proved against the value
layer, and the properties are proved about the value layer.

Floats are `real`. The cosine and sine of an angle in degrees are the
parameters `cosd` and `sind`. The projection's `f = 1 / tan(fov / 2)` is the
parameter `f`. The length that `np.linalg.norm` returns is the parameter
`norm`, which is required to be the square root of the squared length. The
getters `get_x` ... `get_w` are the components of `Vector4.Value()`.

Aliasing is modelled as the source has it:
- In `camera.py` every camera's `orientation` is the class attribute
  `STARTING_ORIENTATION` itself. The look and rotate mutators change it in
  place, so a camera created later starts from the changed orientation
  (`Cameras.SharedOrientation`). The moves rebind `position` to a fresh
  vector, because `+=` on a `Vector4` falls back to `__add__`.
- In `main.py` both `position` (a numpy array) and `orientation` (a list)
  are class attributes changed in place, so the position is shared as well
  (`Pipeline.SharedPosition`).

## Model

| member | source | states |
|---|---|---|
| Vectors.New | vector.py:9-12 | fails with ValueError exactly when the array is not 4x1; otherwise wraps that very array, without copying |
| Vectors.Vector4.FromCords | vector.py:17-22 | a fresh 4x1 array holding x, y, z, w |
| Vectors.Vector4.Copy | vector.py:24-25 | an equal vector over a fresh array, so later writes to either do not reach the other |
| Vectors.Dot | vector.py:33-35 | `dot_product_xyz`: the sum of the products of x, y and z; w takes no part |
| Vectors.DotIgnoresW | vector.py:33-35 | the xyz dot product does not depend on either w |
| Vectors.DotSymmetric | vector.py:33-35 | the xyz dot product is symmetric |
| Vectors.DotSelfNonNegative | vector.py:33-35 | `dot(a, a) >= 0` |
| Vectors.DotScale | vector.py:33-35 | the dot product is linear in a scaled first argument |
| Vectors.DotAdd | vector.py:33-35 | the dot product distributes over `+` |
| Vectors.DotSub | vector.py:33-35 | the dot product distributes over `-` |
| Vectors.Cross | vector.py:37-50 | the cross product's w is 1 |
| Vectors.CrossOrthogonal | vector.py:37-50 | the cross product's xyz has zero dot product with both arguments |
| Vectors.CrossAntiSymmetric | vector.py:37-50 | swapping the arguments negates the xyz of the cross product |
| Vectors.Add | vector.py:52-55 | `a + b` keeps `a`'s w |
| Vectors.Sub | vector.py:57-60 | `a - b` keeps `a`'s w |
| Vectors.Scale | vector.py:62-65 | `a * k` keeps `a`'s w |
| Vectors.AddSubCancel | vector.py:52-65 | adding then subtracting the same vector (or adding it scaled by -1) restores the original, w included, and so does the opposite order |
| Vectors.Vector4.Plus | vector.py:52-55 | `__add__` returns a fresh vector holding `Add` of the two values; neither operand changes (no modifies clause) |
| Vectors.Vector4.Minus | vector.py:57-60 | `__sub__` returns a fresh vector holding `Sub`; neither operand changes |
| Vectors.Vector4.Times | vector.py:62-65 | `__mul__` returns a fresh vector holding `Scale`; the operand does not change |
| Vectors.NormalizedXyz | vector.py:27-31 | xyz is divided by the squared length: the result is `v` scaled by the positive `1/dot(v, v)`, w is kept, and the result's squared length is `1/dot(v, v)` |
| Vectors.NormalizeTwice | vector.py:27-31 | normalising twice by the squared length gives back the original vector |
| Vectors.Vector4.GetNormalizedXyz | vector.py:27-31 | copies, then divides the copy's xyz in place by `dot(v, v)`: a fresh vector equal to `NormalizedXyz`; the original is untouched |
| Vectors.Vector4.SetOffset | vector.py:79-80 | adds the offset's xyz in place, keeping this vector's w; the offset is unchanged unless it is this very vector, which then doubles |
| Matrices.Mul | matrix.py:25-26 | the product `a @ b`: entry (i, j) is the four-term dot product of row i of a with column j of b |
| Matrices.MulVec | matrix.py:29 | the raw product `m @ v` before any divide: component i is row i of m times all four components of v |
| Matrices.Transposed | matrix.py:37-38 | the transpose: entry (i, j) is m's entry (j, i) |
| Matrices.Row | matrix.py:40-41 | row i of m as a vector, w included |
| Matrices.Column | matrix.py:34-35 | column j of m as a vector, w included |
| Matrices.TranslationMatrix | matrix.py:85-89 | the identity with t's x, y and z in rows 0 to 2 of the last column |
| Matrices.MulAssociative | matrix.py:25-26 | the 4x4 product is associative |
| Matrices.MulIdentity | matrix.py:25-26 | the identity is neutral on both sides of the product |
| Matrices.MulVecMul | matrix.py:25-32 | multiplying a vector by a product applies the right factor first |
| Matrices.Matrix4.FromList | matrix.py:18-20 | a fresh 4x4 array holding the given rows |
| Matrices.Matrix4.Copy | matrix.py:22-23 | an equal matrix over a fresh array |
| Matrices.Matrix4.MultiplyByMatrix | matrix.py:25-26 | a fresh matrix holding the product `self @ other` |
| Matrices.Project | matrix.py:28-32 | keeps the raw product's w; when it is 0 the raw product is returned; otherwise xyz times w gives back the raw xyz |
| Matrices.Matrix4.MultiplyByVector | matrix.py:28-32 | wraps the raw product in a fresh vector, then divides its xyz in place by a nonzero w: the result is `Project` |
| Matrices.Matrix4.GetColumn | matrix.py:34-35 | column j in a fresh vector |
| Matrices.Matrix4.Transpose | matrix.py:37-38 | a fresh matrix holding the transpose |
| Matrices.Matrix4.GetRow | matrix.py:40-41 | row i in a fresh vector |
| Matrices.TransposeInvolution | matrix.py:37-38 | transposing twice gives back the matrix |
| Matrices.TransposeRowIsColumn | matrix.py:34-41 | row i of the transpose is column i, and column i of the transpose is row i |
| Matrices.SetEntry | matrix.py:43-44 | entry (i, j) becomes v and every other entry is kept |
| Matrices.Matrix4.Set | matrix.py:43-44 | writes entry (i, j) in place; the new value is `SetEntry` of the old one |
| Matrices.RotationX | matrix.py:47-54 | the last row and last column are those of the identity |
| Matrices.RotationY | matrix.py:57-64 | the last row and last column are those of the identity |
| Matrices.RotationZ | matrix.py:67-74 | the last row and last column are those of the identity |
| Matrices.KeepsWMul | matrix.py:25-26 | a product of two matrices that keep w keeps w |
| Matrices.KeepsWPoint | matrix.py:28-32 | a matrix that keeps w maps a w = 1 point to a w = 1 point, with no divide |
| Matrices.RotationMatrix | matrix.py:77-82 | the composed rotation keeps w |
| Matrices.RotationOrder | matrix.py:77-82 | the rotation Rx @ Ry @ Rz applies Rz first, then Ry, then Rx |
| Matrices.RotationAtRest | matrix.py:77-82 | with every cosine 1 and every sine 0 the rotation is the identity |
| Matrices.TranslationMovesPoint | matrix.py:85-89 | the translation moves a w = 1 point by t's xyz and leaves w at 1 |
| Clipping.SignedDistance | clipping.py:23-24 | `get_signed_distance`: dot(n, p) - dot(n, plane_p), with the normal as passed |
| Clipping.Parameter | clipping.py:10-13 | t = (-plane_d - ad) / (bd - ad), with plane_d = -dot(n, plane_p), ad = dot(start, n) and bd = dot(end, n) |
| Clipping.IntersectionPoint | clipping.py:4-14 | the intersection keeps `line_start`'s w and lies on the plane |
| Clipping.ParameterMeetsPlane | clipping.py:10-14 | with the normalised normal, the parameter t puts the point on the plane |
| Clipping.ParameterInUnit | clipping.py:10-14 | when the endpoint distances are not strictly of one sign, t is in [0, 1] |
| Clipping.IntersectionOnSegment | clipping.py:4-14 | the intersection point lies on the closed segment when the endpoints are not strictly on one side |
| Clipping.DistanceScale | clipping.py:23-24 | scaling the normal scales every signed distance by the same factor |
| Clipping.ParameterScale | clipping.py:4-14 | t does not depend on the length of the normal, so normalising again changes nothing |
| Clipping.BranchesUnderNormalisation | clipping.py:17-43 | normalising the normal by its squared length keeps the sign of each distance and of their product, so the same branch is taken as with the raw normal |
| Clipping.LineClip | clipping.py:17-43 | `None` exactly when both distances are negative; the segment unchanged when both are positive; otherwise `start` replaced by the intersection when its distance is negative, else `end` replaced |
| Clipping.LineClipCollapses | clipping.py:31 | a segment that starts on the plane and ends inside collapses to the point `(start, start)`, where the closed half-space clip keeps it whole |
| Clipping.LineClipCollapseExample | clipping.py:31 | the plane z = 0 with normal +z clips the segment from the origin to (0, 0, 1) to the origin alone |
| Clipping.LineClipHalfSpace | clipping.py:17-43 | the intended clip: `None` exactly when both distances are negative, the segment whole when both are at least 0, every returned endpoint at or inside the plane and on the segment |
| Clipping.LineClipAgreesOffPlane | clipping.py:29-43 | away from the plane itself the clip as written and the intended clip agree |
| Cameras.ZoomedIn | camera.py:43-45 | `max(fov - 10, 10)`: never below 10 and never wider than before |
| Cameras.ZoomedOut | camera.py:47-49 | `min(fov + 10, 170)`: never above 170 and never narrower than before |
| Cameras.ZoomsStayInRange | camera.py:43-49 | any sequence of zooms from a field of view in [10, 170] stays in [10, 170] |
| Cameras.ZoomInRepeatedly | camera.py:43-45 | zooming in n times from 90 gives `max(90 - 10n, 10)` |
| Cameras.ZoomInFrom | camera.py:43-45 | zooming in n times from fov >= 10 gives `max(fov - 10n, 10)` |
| Cameras.ZoomRoundTrip | camera.py:43-49 | away from the limits, zooming in then out (or out then in) restores the field of view |
| Cameras.CameraAttributes.constructor | camera.py:9-19 | the class attributes: starting position (0, 0, -2, 0), step vectors of 0.5 with w = 1, orientation steps of 5 with w = 1, starting orientation (0, 0, 0, 1), all over fresh arrays, the orientation's array distinct from every other |
| Cameras.Camera.constructor | camera.py:35-41 | position and orientation are the shared starting vectors themselves; fov is 90; the aspect ratio is width / height |
| Cameras.Camera.ZoomIn | camera.py:43-45 | fov becomes `ZoomedIn(fov)`, so it stays in [10, 170] |
| Cameras.Camera.ZoomOut | camera.py:47-49 | fov becomes `ZoomedOut(fov)`, so it stays in [10, 170] |
| Cameras.Camera.Turn | camera.py:51-67 | adds a step's xyz to the shared orientation in place; only that array is modified |
| Cameras.Camera.RotateRight | camera.py:51-52 | orientation z grows by 5; nothing else changes and the attributes stay valid |
| Cameras.Camera.RotateLeft | camera.py:54-55 | orientation z shrinks by 5 |
| Cameras.Camera.LookUp | camera.py:57-58 | orientation x grows by 5 |
| Cameras.Camera.LookDown | camera.py:60-61 | orientation x shrinks by 5 |
| Cameras.Camera.LookRight | camera.py:63-64 | orientation y grows by 5 |
| Cameras.Camera.LookLeft | camera.py:66-67 | orientation y shrinks by 5 |
| Cameras.SharedOrientation | camera.py:35-58 | after one camera looks up, a camera created afterwards shares its orientation vector and starts at (5, 0, 0, 1) |
| Cameras.Camera.GetRotationMatrixOverX | camera.py:135-142 | a fresh matrix holding `RotationX` of the orientation's x angle |
| Cameras.Camera.GetRotationMatrixOverY | camera.py:144-151 | a fresh matrix holding `RotationY` of the orientation's y angle |
| Cameras.Camera.GetRotationMatrixOverZ | camera.py:153-160 | a fresh matrix holding `RotationZ` of the orientation's z angle |
| Cameras.Camera.GetRotationMatrix | camera.py:162-167 | a fresh matrix holding Rx @ Ry @ Rz of the orientation |
| Cameras.Camera.Turned | camera.py:69-85 | the step turned to the camera's facing, in a fresh vector |
| Cameras.Facing | camera.py:69-85 | `get_rotation_matrix().multiply_by_vector(delta)`: the step turned by the rotation, divided by its w when that is not 0 |
| Cameras.FacingOfStep | camera.py:69-85 | a step with w = 1 is turned by the rotation alone, with no divide, and keeps w = 1 |
| Cameras.FacingAtRest | camera.py:69-85 | at rest a step is taken along the world axes |
| Cameras.Camera.Shift | camera.py:69-85 | rebinds the position to a fresh vector holding the old position plus or minus the turned step; the position's w stays 0 |
| Cameras.Camera.Step | camera.py:69-85 | the position becomes the old position plus (or minus) the step turned to the facing; only `position` is rebound |
| Cameras.Camera.MoveRight | camera.py:69-70 | position plus the turned (0.5, 0, 0) step |
| Cameras.Camera.MoveLeft | camera.py:72-73 | position minus the turned (0.5, 0, 0) step |
| Cameras.Camera.MoveFront | camera.py:75-76 | position plus the turned (0, 0, 0.5) step |
| Cameras.Camera.MoveBack | camera.py:78-79 | position minus the turned (0, 0, 0.5) step |
| Cameras.Camera.MoveUp | camera.py:81-82 | position minus the turned (0, 0.5, 0) step |
| Cameras.Camera.MoveDown | camera.py:84-85 | position plus the turned (0, 0.5, 0) step |
| Cameras.MoveRoundTrip | camera.py:69-85 | at an unchanged orientation a move and its opposite restore the position, in either order |
| Cameras.ViewFrom | camera.py:125-131 | the matrix t with, in rows 0 to 2 of the last column, minus the xyz dot product of that row with the position; row 3 is kept |
| Cameras.ViewMatrix | camera.py:122-133 | `ViewFrom` applied to the transposed rotation of the orientation |
| Cameras.ViewMatrixShape | camera.py:122-133 | the view matrix's upper-left 3x3 block is the transposed rotation's, its bottom row is [0, 0, 0, 1], and entry (i, 3) is minus the xyz dot product of row i with the position |
| Cameras.ViewFromBySet | camera.py:129-131 | the three in-place `set` calls give the view matrix |
| Cameras.CompleteView | camera.py:125-131 | reads rows 0 to 2, then writes minus their dot products with the position into the last column in place |
| Cameras.Camera.GetViewMatrix | camera.py:122-133 | a fresh matrix holding the view matrix of the current orientation and position |
| Cameras.ViewMatrixCentresCamera | camera.py:122-133 | the view matrix maps the camera position, taken as a w = 1 point, to the origin with w = 1 |
| Cameras.ViewFromCentres | camera.py:122-133 | any matrix completed this way over a bottom row [0, 0, 0, 1] maps the position to the origin |
| Cameras.CameraTranslation | camera.py:169-173 | the translation by minus the position's x, y and z |
| Cameras.Camera.GetTranslationMatrix | camera.py:169-173 | a fresh matrix holding the translation by minus the position's xyz |
| Cameras.CameraTranslationCentresCamera | camera.py:169-173 | the translation column is (-x, -y, -z) of the position, and it maps the position (w = 1) to the origin |
| Cameras.ProjectionMatrix | camera.py:208-215 | rows [f/aspect, 0, 0, 0], [0, f, 0, 0], [0, 0, q, -q Z_NEAR] and [0, 0, 1, 0], with q = Z_FAR / (Z_FAR - Z_NEAR) |
| Cameras.Camera.GetPerspectiveProjectionMatrix | camera.py:208-215 | a fresh matrix holding the projection for f and the camera's aspect ratio |
| Cameras.ProjectionDepth | camera.py:208-215 | the projected w is the input's z, and the projected z is `q * (z - Z_NEAR * w)` with `q = Z_FAR / (Z_FAR - Z_NEAR)` |
| Cameras.ProjectionDepthRange | camera.py:208-215 | after the divide a point on the near plane has depth 0 and one on the far plane depth 1 |
| Shapes.Shape.Values | shape.py:4-8 | one value pair per line |
| Shapes.Shape.constructor | shape.py:7-8 | the shape holds the given endpoint vectors themselves, not copies |
| Shapes.FromLines | shape.py:10-11 | a new shape holding the given line values, every endpoint over its own fresh array |
| Shapes.Shape.Copy | shape.py:10-11 | a new shape with the same lines in the same order, every endpoint a fresh copy |
| Shapes.OffsetAll | shape.py:13-16 | offsetting keeps the number of lines and every endpoint's w |
| Shapes.Shape.SetOffset | shape.py:13-16 | adds the offset's xyz to both endpoints of every line in place; the offset is unchanged |
| Shapes.OffsetRoundTrip | shape.py:13-16 | offsetting by o and then by -o restores every line |
| Shapes.OffsetCompose | shape.py:13-16 | two offsets in a row are one offset by their sum |
| Shapes.OffsetCopy | shape.py:10-16 | the copy is deep: offsetting the copy leaves the original's endpoints unchanged |
| Drawing.Trunc | drawing.py:58 | Python's `int()` on a float: truncation toward zero |
| Drawing.TruncBetween | drawing.py:102-103 | truncation stays inside an interval with integer ends |
| Drawing.SortByY | drawing.py:60-71 | after the three swaps `y1 <= y2 <= y3`, and the vertices are a permutation of the inputs |
| Drawing.SortedInBox | drawing.py:60-71 | the sorted vertices lie in any box the inputs lie in |
| Drawing.Ordered | drawing.py:74-76 | the span runs left to right on the same row, and each x keeps its own z |
| Drawing.TStep | drawing.py:77 | the step of t per pixel: 1 / (x_end - x_start), or the sentinel -1000 when the two are equal |
| Drawing.DepthAt | drawing.py:78-84 | the z tested at column x: t has grown by one step per pixel from x_start, and z = (1 - t) z_start + t z_end |
| Drawing.DepthAtEnds | drawing.py:77-80 | the interpolated depth starts at `z_start`; a span wider than one pixel ends at `z_end`; a one-pixel span, with the sentinel step, is tested with `z_start` |
| Drawing.DepthAtBetween | drawing.py:77-84 | inside the span the interpolated depth lies between the two end depths |
| Drawing.ApplySpan | drawing.py:79-84 | a cell is either left alone or written with the interpolated depth and the colour, and only when that depth is strictly below the stored one, and only in the span's row and x range |
| Drawing.DrawHorizontalLine | drawing.py:73-84 | every cell of both buffers ends as `ApplySpan` leaves it: the span's cells are depth-tested and every other cell is unchanged |
| Drawing.ApplySpans | drawing.py:79-84 | what a list of spans, drawn in order, leaves in one cell: `ApplySpan` of the last span over the cell the earlier spans leave |
| Drawing.ApplySpansLowers | drawing.py:81-83 | a cell's depth never increases, and a cell that changes holds the drawing colour and a strictly smaller depth |
| Drawing.ApplySpansOtherRows | drawing.py:79-84 | a cell in a row no span lies on is unchanged |
| Drawing.ApplySpansNearest | drawing.py:81-83 | a cell ends no deeper than the depth any covering span interpolates there |
| Drawing.ApplySpansFromSpan | drawing.py:81-83 | a cell that changes ends with the depth some span interpolates there |
| Drawing.Step | drawing.py:95-99 | `dx / abs(dy)`, or 0 for an edge with dy = 0 |
| Drawing.StepBetween | drawing.py:95-108 | with the guarded step (0 for a flat edge) the interpolated x or z k rows down stays between the edge's ends |
| Drawing.TruncStepBetween | drawing.py:102-103 | the truncated x of an edge stays between the edge's end x values |
| Drawing.UpperSpan | drawing.py:101-108 | row i of the first loop: ax and bx truncated from the x steps toward the middle and the last vertex, zs and ze from the z steps |
| Drawing.LowerSpan | drawing.py:118-125 | row i of the second loop: ax from the middle vertex toward the last, bx and ze still measured from the first vertex with dbx_step and dz2_step |
| Drawing.TriangleSpans | drawing.py:57-125 | the spans `draw_triangle` draws, in order: the vertices sorted by y, then rows y1..y2 of the first loop and rows y2..y3 of the second |
| Drawing.SortedSpanAt | drawing.py:101-125 | the spans of a sorted triangle are rows y1..y2 of the first loop followed by rows y2..y3 of the second |
| Drawing.TriangleSpanAt | drawing.py:101-125 | span i of a triangle is an upper span for the first rows and a lower span after them |
| Drawing.TriangleRows | drawing.py:101-125 | the rows drawn are exactly those from the lowest to the highest vertex y |
| Drawing.TriangleSpansInBox | drawing.py:101-125 | with the three vertices inside the buffers, every span's row and x ends are inside too |
| Drawing.UpperSpanInBox | drawing.py:101-108 | the first loop's span ends lie between the smallest and largest vertex x |
| Drawing.LowerSpanInBox | drawing.py:118-125 | the second loop's span ends lie between the smallest and largest vertex x |
| Drawing.TriangleKeepsOtherRows | drawing.py:101-125 | a triangle leaves every cell outside its rows unchanged |
| Drawing.DrawSpan | drawing.py:73-84 | drawing one more span extends the fold of the spans drawn so far |
| Drawing.DrawUpper | drawing.py:87-108 | the first loop leaves every cell as the spans of rows y1..y2 leave it |
| Drawing.DrawLower | drawing.py:110-125 | the second loop adds the spans of rows y2..y3 |
| Drawing.DrawSorted | drawing.py:87-125 | both loops, on sorted vertices, leave every cell as the triangle's spans leave it |
| Drawing.DrawTriangle | drawing.py:57-125 | `draw_triangle` on vertices inside the buffers: every cell of both buffers ends as `ApplySpans` of the triangle's spans leaves it |
| Drawing.ToScreen | drawing.py:35-45 | an NDC coordinate in [-1, 1] maps into [0, dim] |
| Drawing.TruncScreen | drawing.py:35-45 | its truncation lies in [0, dim] |
| Drawing.ScreenVertex | drawing.py:35-45 | a projected point with x and y in [-1, 1] becomes a vertex inside the (W + 1) x (H + 1) buffer |
| Drawing.DrawShapeTriangle | drawing.py:31-47 | one triangle of `draw_shape`: mapped to the screen and drawn, with every cell ending as the triangle's spans leave it |
| Pipeline.AddAll | main.py:139-142 | numpy `+` adds the w components too |
| Pipeline.SubAll | main.py:89 | numpy `-` subtracts the w components too |
| Pipeline.AddAllRoundTrip | main.py:79-95 | adding and then subtracting the same array restores it, and conversely |
| Pipeline.AddAllAgreesOnXyz | main.py:79-95 | numpy addition agrees with `Vector4`'s on xyz and differs only in w, not at all for a w = 0 step |
| Pipeline.AddInPlace | main.py:80 | numpy `+=` on a 4x1 array, in place, w included |
| Pipeline.SubInPlace | main.py:83 | numpy `-=` on a 4x1 array, in place, w included |
| Pipeline.MainRotation | main.py:110-127 | main.py's rotation keeps w |
| Pipeline.MainRotationOrder | main.py:110-127 | main.py's rotation is Ry @ Rx @ Rz, not camera.py's Rx @ Ry @ Rz |
| Pipeline.MainRotationAtRest | main.py:110-127 | at rest main.py's rotation is the identity |
| Pipeline.Heading | main.py:79-95 | `get_rotation_matrix() @ delta`: the step turned by main.py's rotation, with no divide |
| Pipeline.HeadingKeepsW | main.py:79-95 | a turned step keeps the step's w, so the w = 0 steps never change the position's w |
| Pipeline.MainViewFromBySet | main.py:104-106 | the three in-place writes give main.py's view matrix |
| Pipeline.ViewFromWithZeroColumn | main.py:100-106 | over rows ending in 0 the four-component dot products are the xyz ones |
| Pipeline.MainViewMatrix | main.py:97-108 | the transposed rotation with, in rows 0 to 2 of the last column, minus the four-component dot product of the row with the position |
| Pipeline.MainViewIsViewFrom | main.py:97-108 | main.py's view matrix is built exactly as camera.py's, from main.py's rotation |
| Pipeline.MainViewCentresCamera | main.py:97-108 | main.py's view matrix maps the camera position, taken as a w = 1 point, to the origin |
| Pipeline.CompleteMainView | main.py:100-106 | reads the rows, then writes minus their dot products with the position into the last column in place |
| Pipeline.CameraDefaults.constructor | main.py:23-38 | the starting position (0, 0, -2, 0) and orientation [0, 0, 0] over fresh arrays |
| Pipeline.Camera.constructor | main.py:48-51 | position and orientation are the shared class attributes themselves; fov is 90 |
| Pipeline.Camera.ZoomIn | main.py:53-55 | fov becomes `max(fov - 10, 10)` |
| Pipeline.Camera.ZoomOut | main.py:57-59 | fov becomes `min(fov + 10, 170)` |
| Pipeline.Camera.Turn | main.py:61-77 | one angle of the shared orientation changes by delta in place; the others are unchanged |
| Pipeline.Camera.RotateRight | main.py:61-62 | angle z grows by 5 and nothing else changes |
| Pipeline.Camera.RotateLeft | main.py:64-65 | angle z shrinks by 5 |
| Pipeline.Camera.LookUp | main.py:67-68 | angle x grows by 5 |
| Pipeline.Camera.LookDown | main.py:70-71 | angle x shrinks by 5 |
| Pipeline.Camera.LookRight | main.py:73-74 | angle y grows by 5 |
| Pipeline.Camera.LookLeft | main.py:76-77 | angle y shrinks by 5 |
| Pipeline.Camera.GetRotationMatrix | main.py:110-127 | a fresh matrix holding main.py's rotation of the current angles |
| Pipeline.Camera.Move | main.py:79-95 | the shared position plus or minus the turned step, in place, w included |
| Pipeline.Camera.MoveRight | main.py:79-80 | position plus the turned (0.5, 0, 0, 0) step |
| Pipeline.Camera.MoveLeft | main.py:82-83 | position minus the turned (0.5, 0, 0, 0) step |
| Pipeline.Camera.MoveFront | main.py:85-86 | position plus the turned (0, 0, 0.5, 0) step |
| Pipeline.Camera.MoveBack | main.py:88-89 | position minus the turned (0, 0, 0.5, 0) step |
| Pipeline.Camera.MoveUp | main.py:91-92 | position minus the turned (0, 0.5, 0, 0) step |
| Pipeline.Camera.MoveDown | main.py:94-95 | position plus the turned (0, 0.5, 0, 0) step |
| Pipeline.Camera.GetViewMatrix | main.py:97-108 | a fresh matrix holding main.py's view matrix of the current angles and position |
| Pipeline.SharedPosition | main.py:48-80 | after one camera moves right at rest, a camera created afterwards shares its position array and starts at (0.5, 0, -2, 0) |
| Pipeline.ShiftAll | main.py:139-142 | the offset keeps the number of lines |
| Pipeline.ShiftRoundTrip | main.py:139-142 | shifting by o and then by -o restores every line, w included |
| Pipeline.ShiftAgreesWithOffset | main.py:139-142 | main.py's offset equals shape.py's for an offset with w = 0, and otherwise also moves every endpoint's w |
| Pipeline.SetOffsetAll | main.py:139-142 | adds all four components of the offset to both endpoints of every line in place |
| Pipeline.Normalize | main.py:202-206 | `normalize`: v itself when its length is 0, otherwise v's x, y and z divided by its length (main.py passes three-component arrays here, so w plays no part) |
| Pipeline.NormalizeUnit | main.py:202-206 | the zero vector is returned unchanged; any other vector becomes a unit vector in its own direction |
| Pipeline.Intersection | main.py:209-218 | the intersection keeps `line_start`'s w and lies on the plane |
| Pipeline.IntersectionAgrees | main.py:209-218 | normalising by the length gives the same intersection point as clipping.py's normalising by the squared length |
| Pipeline.LineClip | main.py:221-247 | `None` exactly when both distances (with the normal as given) are negative; the segment unchanged when both are positive; every returned endpoint is at or in front of the plane |
| Pipeline.LineClipAgrees | main.py:221-247 | main.py's clip returns what clipping.py's returns, collapse included |
| Pipeline.PerspectiveProjection | main.py:163-170 | main.py's projection: camera.py's matrix at the aspect ratio 720 / 720 |
| Pipeline.ProjectionAtScreenAspect | main.py:163-170 | at the 720x720 aspect ratio the projection scales x and y by f, maps z to `q * (z - Z_NEAR * w)` and w to z |
| Pipeline.PerspectiveDivide | main.py:194-195 | a zero w leaves the point as it is; otherwise all four components are divided, so w becomes 1 |
| Pipeline.DivideIsProjectWithUnitW | main.py:194-195 | main.py's divide is matrix.py's `multiply_by_vector` with w then set to 1 |
| Pipeline.Perspective | main.py:188-195 | a point at or beyond the near plane ends with w = 1 and depth at least 0, and at most 1 up to the far plane |
| Pipeline.ProjectInFront | main.py:188-195 | projecting and dividing a point at or beyond the near plane gives `Perspective` |
| Pipeline.NearClipDistances | main.py:182-187 | the near clip drops a line exactly when both endpoints are behind z = Z_NEAR, keeps a line strictly in front as it is, and returns endpoints at or in front of the plane |
| Pipeline.ProjectEndpoint | main.py:188-195 | an endpoint at or in front of the near plane, with w set to 1, projects and divides to `Perspective` |
| Pipeline.ClipAndProject | main.py:182-195 | `None` exactly when both endpoints are behind the near plane; otherwise every endpoint has w = 1 and depth at least 0; a line strictly in front is only projected |
| Pipeline.UpdateLine | main.py:181-195 | one loop iteration drops the line exactly when both camera-space endpoints have z < Z_NEAR, and otherwise returns endpoints with w = 1 and depth at least 0 |
| Pipeline.UpdateLineInside | main.py:181-195 | a line strictly beyond the near plane is projected without clipping |
| Pipeline.UpdateLines | main.py:179-199 | the lines `on_update_shape` collects, in input order: `UpdateLine` of each line, the dropped ones left out |
| Pipeline.UpdateLinesLength | main.py:179-199 | the output has at most as many lines as the input, and exactly as many iff every line has an endpoint at or beyond the near plane |
| Pipeline.UpdateLinesInFront | main.py:179-199 | every output endpoint has w = 1 and depth at least 0 |
| Pipeline.UpdateShapeLines | main.py:179-199 | the loop builds a new shape holding `UpdateLines` of the input's values, over fresh arrays; the input is not modified |
| Pipeline.OnUpdateShape | main.py:173-199 | `on_update_shape` returns a new shape holding `UpdateLines` for the camera's view matrix; neither the camera nor the input shape changes |

## Left out

- Windowing, the event loop, the text overlay and `screen.set_at` itself: pixels are an array of colours written beside the depth buffer.
- `sin`, `cos`, `tan`, `math.radians` and `np.linalg.norm`: they are the parameters `cosd`, `sind`, `f` and `norm`, so no property depends on their values.
- IEEE floating point: NaN, infinities and rounding. Divisions that numpy would turn into NaN or infinity are excluded by preconditions: a zero normal, a clipped segment with both endpoints on the plane (`Pipeline.Clippable`), a line parallel to the plane.
- `Cameras.Camera.constructor`: a zero screen height raises ZeroDivisionError in the source; the constructor requires a nonzero height. A zero width gives aspect ratio 0, which `Cameras.Camera.GetPerspectiveProjectionMatrix` excludes.
- `read_object_from_file` and `shape_loader.py`: file I/O and string conversion.
- `__str__` of every class, and the commented-out alternative view and rotation matrices in camera.py.
- numpy views: `transpose()` and `get_row()` return views that share storage with their matrix; they are modelled as copies. In `get_view_matrix` the row views `v` and `w` are read after an earlier write into the same array. Row i is read before anything in row i is written. Every earlier write goes to column 3 of a different row. So no read sees a written entry, and copies give the same matrix.
- Initialising `DEPTH_BUFFER`: the buffers are inputs, and drawing requires every index in bounds, because numpy would wrap a negative index.
- The triangle shape that `draw_shape` iterates (`shape.triangles`, `shape.color`) is not defined by shape.py: one triangle of `draw_shape` is modelled, on explicit vertices (`Drawing.DrawShapeTriangle`).
- `draw_triangle`'s `int()` of its nine arguments: vertices are taken as integers (`Drawing.ScreenVertex` truncates the mapped screen coordinates).
- Shapes.Shape.SetOffset and Pipeline.SetOffsetAll: an offset that is itself one of the shape's endpoints is excluded. The source would double that endpoint on its turn, and every later endpoint would receive the doubled offset. The only caller passes a freshly built offset.
- Vectors.New: takes a two-dimensional array. A one-dimensional array of length 4 makes vector.py:10 raise IndexError, not ValueError; that case is not modelled.
- `Shapes.Shape`: two endpoints that share one array are excluded. The loader and `copy` never produce one, and `set_offset` would move such an array once per occurrence.
- main.py's `Shape` class is the class of shape.py, with the same constructor and `copy`; its different `set_offset` is `Pipeline.SetOffsetAll`.
- `Pipeline.OnUpdateShape`: main.py's `np.array([0, 0, 1])` normal has length 1, so its `norm` is the constant 1.0. The loop reads every endpoint's value before it starts and allocates the output's arrays after it ends; no array is written in between, so the result is the same as the source's.
- `Pipeline.OnUpdateShape`: the copy of the input made first is discarded, as in the source; the projection matrix is applied through `PerspectiveProjection` with `f` given.

## Findings

| source | as written | input that shows it | evidently intended | confidence | as-written member | corrected member |
|---|---|---|---|---|---|---|
| clipping.py:31 | `start_dist * end_dist > 0` keeps the segment only when both distances are strictly positive, so a segment with `start` exactly on the plane and `end` inside goes to the intersection branch, and since `start_dist` is not negative `end` is replaced by the intersection point, which is `start` itself | plane point (0, 0, 0), normal (0, 0, 1), segment from (0, 0, 0) to (0, 0, 1): the result is ((0, 0, 0), (0, 0, 0)) | a segment with both endpoints at or inside the plane is kept whole (`>= 0` on both distances) | not executed | Clipping.LineClipCollapses | Clipping.LineClipHalfSpace |

main.py:235 has the same comparison. `Pipeline.LineClipAgrees` shows that main.py's
clip returns exactly what clipping.py's does, so the near clip of
`on_update_shape` collapses such a line in the same way. The pipeline keeps
main.py's clip as written. `Clipping.LineClipCollapseExample` gives the
concrete input.
