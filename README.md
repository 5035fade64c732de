# 3D wireframe cube: a Dafny model

The demo draws a cube as a wireframe on an 800 x 800 canvas, 30 times a second.
Its core is a small 3D pipeline:

- a `Vertex` class with value-returning operations: `translate`, `rotate_yz`,
  `rotate_xz`, `rotate_xy`, the fused `rotate` and `clone` each build a new
  vertex, and `project` returns a plain two-coordinate point;
- in-place twins of those operations (`translateSelf`, `rotate_*Self`), each of
  which rewrites `x`, `y` and `z` and returns the receiver;
- `screenify`, which maps normalised coordinates onto the pixel grid;
- `Object.render`, which draws one line per consecutive vertex pair of every
  face in the mesh, wrapping from the last vertex of a face to its first;
- the fixed cube mesh;
- `frame`, which advances the global `angle`, clears the canvas and renders the cube.

The model has four modules, one per component:

- `Geometry` (geometry.dfy) holds the value types and functions:
  - `Vec3` holds a vertex's coordinates and `Point2` a projected or screen point.
  - `Trig` holds the pair (`Math.cos(angle)`, `Math.sin(angle)`) that a rotation
    computes from its angle.
  - The functions are `Translate`, the three rotations, `Rotate`, `Project` and
    `Screenify`.
  - Beside them are lemmas: rotations keep lengths and are undone by the
    negated angle, the fused rotation equals the chain, screenify is affine and
    invertible, and its corners land where they should.
- `Vertices` (vertex.dfy) holds the mutable `Vertex` class.
  - Every value-returning method except `Project` returns a fresh `Vertex` whose
    coordinates are the matching `Geometry` function of the receiver's.
    `Project` returns a `Point2`. None of them has a `modifies` clause, so the
    receiver is untouched.
  - Every `*Self` method returns `this` and leaves the receiver holding exactly
    what the value-returning form would return. The new coordinates are computed
    from the old ones before any field is written, as in the source.
  - `EditClone` shows that a clone edited in place shares nothing with the original.
- `Meshes` (mesh.dfy) holds the mesh and the renderer.
  - A mesh is a value: a map from names to coordinates, plus a list of faces.
  - `Edges` is the ordered list of (from, to) name pairs that render draws.
  - `Render` is the nested loop. It returns the `line` calls it issues as
    `DrawCall` records, and it is proved to issue exactly `Drawn(Edges(faces))`.
  - The lemmas give the count of those lines (the sum of face lengths), the
    position of each line, the closed walk of each face, and the facts about
    the cube: 16 lines, every name resolves, depths 0.75 or 1.25.
- `Animation` (animation.dfy) holds the `Scene` class with the global state
  `angle` and `dz`.
  - `Frame` is one step of the loop: the angle grows by `PI / FPS`, `dz` is
    unchanged, and the calls issued are a clear followed by the cube's 16 lines.
  - `AfterFrames` gives the angle after n frames.

`render(dz, angle)` never reads `angle`. `Render`'s postcondition determines its
output from the mesh and `dz` alone, so no point it draws depends on the angle.
The picture this file draws is therefore a fixed cube, although `frame` advances
the angle.

Two facts about the faces follow from the code:

- The cube has 12 geometric edges, but render draws 16 lines: each of the four
  two-vertex faces draws its edge twice, once in each direction
  (`Meshes.TwoVertexFace`, `Meshes.CubeEdges`).
- Render draws a face of any length: an empty face draws nothing, and a
  one-vertex face draws a line from the vertex to itself. `Render` covers every
  length.

## Model

| member | source | states |
|---|---|---|
| Geometry.Translate | script.js:20-28 | for every call form: no arguments leave the point alone; one argument shifts z only; two shift x and y; three or more shift x, y, z by the first three |
| Geometry.LoneArgumentIsDz | script.js:20-22 | `translate(d)` equals `translate(0, 0, d)`, and differs from `translate(d, 0, 0)` when d is not 0 |
| Geometry.TranslateInverse | script.js:20-28 | translating by the negated offsets restores the point, in the three-argument and in the one-argument form |
| Geometry.RotateYZ | script.js:30-38 | rotate_yz keeps x |
| Geometry.RotateXZ | script.js:41-49 | rotate_xz keeps y |
| Geometry.RotateXY | script.js:52-60 | rotate_xy keeps z |
| Geometry.Rotate | script.js:62-89 | the fused rotate with its block-local updates equals rotate_yz(ax), then rotate_xz(ay), then rotate_xy(az) |
| Geometry.NoTurnIsIdentity | script.js:30-60 | the angle 0 leaves each single-axis rotation without effect |
| Geometry.OmittedAnglesAreZero | script.js:62-65 | rotate's omitted angles default to 0: `rotate()` leaves the vertex alone and `rotate(ax)` equals `rotate_yz(ax)` |
| Geometry.QuarterTurns | script.js:30-60 | a quarter turn sends the first coordinate of the turned pair onto the second, for each of the three planes |
| Geometry.RotateOrderMatters | script.js:62-89 | the fixed YZ-then-XZ-then-XY order matters: (1,0,0) turned a quarter about YZ and XY ends at (0,1,0), while the reverse order ends at (0,0,1) |
| Geometry.RotationsKeepLength | script.js:30-60 | given true cosine and sine values, each single-axis rotation keeps the distance to the origin |
| Geometry.RotationsInvertible | script.js:30-60 | given true cosine and sine values, rotating by an angle and then by its negation returns the original vertex, for each axis |
| Geometry.RotateKeepsLength | script.js:62-89 | the fused rotation keeps the distance to the origin |
| Geometry.Project | script.js:132-137 | for z not 0, the projected point times z gives back x and y |
| Geometry.ProjectAlongRay | script.js:132-137 | scaling a vertex by any non-zero factor leaves its projection unchanged |
| Geometry.ProjectExample | script.js:132-137 | (1, 2, 2) projects to (0.5, 1) |
| Geometry.Screenify | script.js:188-194 | x lies in -1..1 exactly when the pixel x lies in 0..WIDTH, and y in -1..1 exactly when the pixel y lies in 0..HEIGHT |
| Geometry.ScreenifyRoundTrip | script.js:188-194 | screenify has an inverse on both sides |
| Geometry.ScreenCorners | script.js:188-194 | (-1,-1) maps to (0,0), (1,1) to (WIDTH, HEIGHT), (0,0) to the centre |
| Geometry.ScreenifyAffine | script.js:188-194 | screenify maps the point a fraction k of the way from p to q to the point that fraction of the way between their images |
| Geometry.ScreenifyNotClamped | script.js:188-194 | points outside -1..1 land outside the surface |
| Vertices.Vertex.constructor | script.js:14-18 | the new vertex holds the given coordinates |
| Vertices.Vertex.Translate | script.js:20-28 | returns a fresh vertex holding the translated coordinates; the receiver is not changed |
| Vertices.Vertex.RotateYZ | script.js:30-38 | returns a fresh vertex holding rotate_yz of the receiver; the receiver is not changed |
| Vertices.Vertex.RotateXZ | script.js:41-49 | returns a fresh vertex holding rotate_xz of the receiver; the receiver is not changed |
| Vertices.Vertex.RotateXY | script.js:52-60 | returns a fresh vertex holding rotate_xy of the receiver; the receiver is not changed |
| Vertices.Vertex.Rotate | script.js:62-89 | returns a fresh vertex holding the fused rotation of the receiver |
| Vertices.Vertex.Project | script.js:132-137 | for z not 0, returns the perspective divide of the receiver's coordinates |
| Vertices.Vertex.Clone | script.js:139 | returns a fresh vertex, a different object from the receiver, with equal coordinates |
| Vertices.Vertex.TranslateSelf | script.js:94-100 | returns the receiver, which now holds exactly what translate returns for the same arguments, including the one-argument z form |
| Vertices.Vertex.RotateYZSelf | script.js:102-110 | returns the receiver, which now holds exactly what rotate_yz returns; x untouched |
| Vertices.Vertex.RotateXZSelf | script.js:112-120 | returns the receiver, which now holds exactly what rotate_xz returns; y untouched |
| Vertices.Vertex.RotateXYSelf | script.js:122-130 | returns the receiver, which now holds exactly what rotate_xy returns; z untouched |
| Vertices.EditClone | script.js:93-139 | a clone edited through a chain of in-place calls, each returning its receiver, ends where the chain of value-returning calls would, and the original keeps its coordinates |
| Meshes.Render | script.js:147-159 | issues exactly one line per edge of `Edges(faces)`, in order, each joining the screenified projections of the two vertices shifted by dz; the output does not depend on the angle |
| Meshes.DrawnAt | script.js:150-157 | render issues as many lines as there are edges, and line k joins the screen points of edge k's two vertices |
| Meshes.EdgeCount | script.js:150-151 | the number of lines is the sum of the face lengths |
| Meshes.EdgeAt | script.js:150-153 | the line at position (lengths of the earlier faces) + i runs from face[i] to face[(i + 1) % length] |
| Meshes.FaceIsClosedWalk | script.js:151-153 | the lines of a non-empty face start at each vertex in turn, each ends where the next starts, and the last returns to the first vertex |
| Meshes.TwoVertexFace | script.js:151-153 | a two-vertex face draws a to b and then b to a |
| Meshes.EdgesJoinReferenced | script.js:152-153 | both ends of every line are names that some face mentions |
| Meshes.CubeReferences | script.js:196-215 | the names the cube's faces mention are exactly the keys of its vertex map |
| Meshes.CubeDepths | script.js:196-206 | shifted by dz = 1, every cube vertex has depth 0.75 or 1.25 |
| Meshes.CubeRenderable | script.js:196-217 | the cube can be rendered without a division by zero exactly when dz is neither 0.25 nor -0.25, so in particular at dz = 1 |
| Meshes.CubeEdges | script.js:207-214 | the cube's 16 lines, listed in the order render draws them |
| Animation.AngleAfterFrames | script.js:220-229 | after n frames the angle has grown by n * PI / FPS |
| Animation.FullTurnInTwoSeconds | script.js:220-229 | 60 frames, two seconds, turn the angle by exactly 2 * PI |
| Animation.Scene.constructor | script.js:217-218 | the state starts with angle 0 and dz 1, and the cube can be rendered |
| Animation.Scene.Frame | script.js:220-227 | the angle grows by exactly PI / FPS; dz is unchanged; the calls are one clear followed by the cube's render output, 17 calls in all |

## Left out

- Canvas acquisition and sizing (script.js:7-10) are browser I/O. `clear` and `line` (script.js:162-185) are recorded as `DrawCall` values instead of being drawn.
- `point` (script.js:167-176) is never called by the render path in this file, so it is not modelled. Neither is the point-cloud drawing mode.
- Colours, the line width and the square size are presentation constants with no behaviour.
- The `setTimeout` rescheduling (script.js:226, 229) is timer plumbing. `Scene.Frame` is one step, and `AfterFrames` iterates the angle update in its place.
- `Math.cos` and `Math.sin` are not computed. A rotation receives its angle as the pair of values they return (`Trig`). The length and inverse lemmas assume that c² + s² = 1, which true cosine and sine values satisfy.
- Coordinates are exact reals. Floating-point rounding is not modelled, and `PI` is the decimal that JavaScript prints for `Math.PI`.
- Geometry.Project: requires z ≠ 0. The source instead returns `Infinity` or `NaN` at z = 0, and the model does not represent non-finite numbers.
- Vertices.Vertex.Project: requires the receiver's z ≠ 0, for the same reason. At z = 0 the source's `project` returns a point with non-finite coordinates, which the model does not represent.
- Meshes.Render: requires every name a face mentions to resolve to a vertex whose shifted depth is not 0. With a missing name, the source throws a `TypeError` after drawing the earlier lines. With a zero depth, it draws non-finite points. The cube meets this requirement at dz = 1 (`Meshes.CubeRenderable`).
- The JavaScript `arguments.length` dispatch of `translate` and `translateSelf` is modelled by passing the call's arguments as a list. A call that passes `undefined` explicitly, which JavaScript replaces by the default, is not modelled.
- In the source, the mesh holds `Vertex` objects by reference. Nothing ever mutates them, so the model holds their coordinates as values.
