# TP-P3D pool table: a Dafny model of its core

TP-P3D is an OpenGL pool-table viewer. It loads balls from Wavefront OBJ
files and draws a hard-coded table box. It lights the scene with switchable
lights, and one ball rolls along the table until it hits a cushion or
another ball. This project models the parts of that program that hold
logic, as pure Dafny functions over immutable datatypes, and proves
properties about them:

- `ObjLoader` (`ObjLoader.dfy`) models the face expansion of `Ball::Load`.
  - A file that has already been split into directive records (`v`, `vt`,
    `vn`, `f`, `mtllib`, other) is folded into three temporary pools and
    three output sequences.
  - Every corner of every face is resolved at once against the pools.
  - The two throws are modelled as `Failure` results, each carrying the
    output as the throw left it: "Failed to read face information" and the
    out-of-range throw of `std::vector::at`.
  - Face indices go through the `unsigned int` wrap-around of
    `index - 1`, as the code computes it.
  - A reference definition (`Expected`, `WellFormed`) says record by record
    what a file describes. Lemmas prove that the fold succeeds exactly on
    well-formed files and yields the reference output.
- `Billiards` (`Billiards.dfy`) models `Ball::IsColliding` and `Ball::Update`.
  - The collision scan is a loop method whose result is proved equal to a
    declarative predicate: another ball within two radii, or a cushion
    crossed.
  - The update moves a ball, turns it, and stops it on a collision.
- `LightToggles` (`Lights.dfy`) models the `Lights` class: four flags that
  start off, and `ToggleLight` on the keys 1 to 4.
- `GlobalLights` (`GlobalLights.dfy`) models the global switches of
  `Light.cpp`: four flags that start on, the key callback
  `HandleKeyboardInput`, and `UpdateLightSources`.
- `CameraInput` (`Camera.dfy`) models the `Camera` constructor and its two
  mouse handlers.
- `TableMesh` (`TableMesh.dfy`) models the table's vertex array and index
  array, and the draw count.
  - Two validator methods check any index array against a bound and
    against the "two triangles per quad" layout.
  - A generic lemma says what any 24-vertex array passing six per-face
    checks satisfies. Applied to the table's literal data, and together
    with the six face normals being different, it proves the table a
    closed box:
    - every normal points outwards;
    - no two faces share a normal, and each of the six axis directions is
      the normal of some face;
    - every vertex is a box corner whose x and z half-extents are the
      collision test's wall limits;
    - all twelve triangles wind counter-clockwise seen from outside.
- `Wrappers` (`Option`/`Result`) and `Vectors` (`Vec2`/`Vec3` over exact
  reals, with `Sub`, `Dot`, `Cross` and the squared distance) are shared
  helpers.

Two points of the code's behaviour deserve a note:

- `Ball::IsColliding` compares strictly (`>` and `<`, Ball.cpp:359-360). A
  ball exactly one radius from a cushion limit therefore does not collide,
  as `Billiards.WallIsStrict` states.
- `Camera::processMouseMovement` only sets the angle while the left button
  is held (Camera.cpp:37-42). It never resets it when the button is
  released, and neither does the model.

## Model

| member | source | states |
|---|---|---|
| ObjLoader.Slot | TP-P3D/Ball.cpp:88-90 | the `.at` position is the index minus one for indices of at least 1; a zero or negative index wraps to 0x7FFF_FFFF or above |
| ObjLoader.At | TP-P3D/Ball.cpp:88-90 | `.at(n - 1)` yields the n-th element (one-based) when it exists; it throws past the end, and also for zero or negative indices when the pool is smaller than the wrap-around |
| ObjLoader.ExpandCorner | TP-P3D/Ball.cpp:88-90 | one corner appends the position, uv and normal `.at` returned for its indices. When all three indices are in range this always succeeds; for pools below 0x7FFF_FFFF elements it succeeds only then. A throw is an out-of-range error: the values of the calls that returned before it (vertex, then uv) are pushed, and the next call's index is out of range |
| ObjLoader.ExpandCorners | TP-P3D/Ball.cpp:86-91 | the corner loop: on success every `.at` of every corner returned, and its value was pushed in corner order. On a throw, the outputs hold exactly the values of the calls before the throw, in vertex, uv, normal order corner after corner, and the next call's index was out of range. All indices in range implies success; for pools below 0x7FFF_FFFF elements the converse holds too |
| ObjLoader.ExpandFace | TP-P3D/Ball.cpp:86-91 | with all nine indices in range, a face appends its three corners in order to each output; for pools below 0x7FFF_FFFF elements it succeeds only then. On a throw, the outputs hold exactly the values of the `.at` calls that returned before it, in vertex, uv, normal order corner after corner, and the next call found its index out of range |
| ObjLoader.Step | TP-P3D/Ball.cpp:52-93 | `v`/`vt`/`vn` push to their own pool only; `mtllib` and unknown headers change nothing; a malformed face throws the face-format error with the outputs unchanged; a successful face leaves the pools alone and appends the three corners' `.at` values to each output; a face that throws leaves the values pushed before the failing `.at` |
| ObjLoader.Run | TP-P3D/Ball.cpp:46-94 | the `while` loop: pools and outputs only ever have values appended; a loop that ends without a throw has added the same number of entries to each output, a multiple of three |
| ObjLoader.Load | TP-P3D/Ball.cpp:32-98 | a successful load gives `vertices`, `uvs` and `normals` of equal length, a multiple of three |
| ObjLoader.RunSnoc | TP-P3D/Ball.cpp:46-94 | reading one more record is one more loop iteration after the records before it, unless a throw already stopped the loop |
| ObjLoader.RunStopsAtThrow | TP-P3D/Ball.cpp:81-91 | after a throw, no later record is read and the result is the throw |
| ObjLoader.RunShape | TP-P3D/Ball.cpp:59-91 | after a successful load, the pools are exactly the `v`, `vt` and `vn` payloads in file order, and each output has three entries per face |
| ObjLoader.LoadLength | TP-P3D/Ball.cpp:86-91 | a successful load gives `vertices`, `uvs` and `normals` all of length three times the number of faces |
| ObjLoader.RunWellFormed | TP-P3D/Ball.cpp:46-94 | a well-formed file, whatever the size of its pools, loads to the reference pools and outputs |
| ObjLoader.RunMatchesExpected | TP-P3D/Ball.cpp:46-94 | for pools below 0x7FFF_FFFF elements, the loop succeeds exactly on well-formed files, and then equals the reference pools and outputs |
| ObjLoader.LoadSucceedsIffWellFormed | TP-P3D/Ball.cpp:32-98 | for pools below 0x7FFF_FFFF elements, `Ball::Load` succeeds exactly when no face is malformed and no face index is zero, negative, forward or past the end; on success each face corner is resolved one-based against the records before it |
| ObjLoader.FirstBadRecordThrows | TP-P3D/Ball.cpp:81-91 | for pools below 0x7FFF_FFFF elements before the bad record, the first bad record decides the error. A malformed face gives the face-format error, with the outputs exactly as the earlier records left them. A bad index gives the out-of-range error, with the outputs as the earlier records left them plus exactly the values of the failing face's `.at` calls that returned before the throw |
| ObjLoader.ForwardReferenceThrows | TP-P3D/Ball.cpp:86-91 | after well-formed records, a face any of whose nine indices lies past the end of its pool (data not read yet) throws the out-of-range error, whatever the size of the pools |
| ObjLoader.NonFacesKeepOutputs | TP-P3D/Ball.cpp:52-75 | appending a record that is not a face leaves the result of the load unchanged |
| Billiards.IsColliding | TP-P3D/Ball.cpp:347-365 | the answer is true exactly when another ball (by index) is within two radii, inclusive, or the ball crosses one of the four cushions at x = ±0.9 or z = ±0.45 |
| Billiards.SquaredComparisonExact | TP-P3D/Ball.cpp:350-352 | comparing the distance with two radii decides the same as comparing its square with four radii squared |
| Billiards.Update | TP-P3D/Ball.cpp:241-258 | a ball at rest is returned unchanged; a moving ball stays moving exactly when it was not colliding |
| Billiards.UpdateMoving | TP-P3D/Ball.cpp:250-256 | a moving ball's x advances by `speed * deltaTime` and its z orientation drops by `deg(distance / radius)`; y, z and the other angles are unchanged |
| Billiards.CollisionStopsAfterAdvancing | TP-P3D/Ball.cpp:245-250 | the collision test uses the position before the step, and the ball still advances on the frame it stops |
| Billiards.UpdateNeverRestarts | TP-P3D/Ball.cpp:243-248 | no update sets a resting ball moving |
| Billiards.UpdateZeroTime | TP-P3D/Ball.cpp:250-256 | with zero elapsed time, position and orientation stay the same |
| Billiards.WallIsStrict | TP-P3D/Ball.cpp:359-362 | a ball exactly one radius inside the x limit does not hit the wall; one further out along x, or below the -z limit, does |
| Billiards.FreeBallNotColliding | TP-P3D/Ball.cpp:347-365 | an in-bounds ball with no other ball within two radii is not colliding |
| Billiards.NearBallsCollide | TP-P3D/Ball.cpp:350-353 | centres (0, 0.1, 0) and (0.05, 0.1, 0) collide |
| Billiards.FarBallsDoNotCollide | TP-P3D/Ball.cpp:350-353 | centres (0, 0.1, 0) and (0.2, 0.1, 0) do not collide |
| Billiards.TouchingIsInclusive | TP-P3D/Ball.cpp:351-352 | centres exactly two radii apart along any axis collide |
| Billiards.LoneBallFree | TP-P3D/Ball.cpp:349 | a ball is never compared with itself: a lone in-bounds ball does not collide |
| Billiards.CushionOvershoot | TP-P3D/Ball.cpp:245-250 | rolling 0.1 per frame from x = 0.86, the ball is still moving at 0.96 and comes to rest at 1.06, past the cushion |
| LightToggles.NewLights | TP-P3D/Lights.cpp:4-8 | a new `Lights` has all four flags off |
| LightToggles.ToggleLight | TP-P3D/Lights.cpp:11-36 | key k in 1..4 flips exactly flag k; any other key changes nothing |
| LightToggles.ToggleTwice | TP-P3D/Lights.cpp:11-36 | pressing the same key twice restores the state |
| LightToggles.ToggleCommutes | TP-P3D/Lights.cpp:11-36 | the order of two presses does not matter |
| LightToggles.ToggleAllParity | TP-P3D/Lights.cpp:11-36 | after any run of presses, a flag differs from its start exactly when its key was pressed an odd number of times |
| LightToggles.FromStartParity | TP-P3D/Lights.cpp:4-36 | from a new `Lights`, a light is on exactly when its key was pressed an odd number of times |
| GlobalLights.ApplyKey | TP-P3D/Light.cpp:13-29 | on a press, keys 1 to 4 flip exactly their flag; any other action, or any other key, changes nothing |
| GlobalLights.HandleKeyboardInput | TP-P3D/Light.cpp:11-31 | the flags after the event are those of the key switch (`ApplyKey`); the ambient record is then lit if the ambient flag is on, and left as it was otherwise |
| GlobalLights.UpdateLightSources | TP-P3D/Light.cpp:33-47 | an active ambient flag sets the record to white at 0.5; an inactive one leaves the record as it was; the flags are untouched |
| GlobalLights.OnlyPressToggles | TP-P3D/Light.cpp:13 | a release or repeat event changes no flag |
| GlobalLights.OtherKeysIgnored | TP-P3D/Light.cpp:14-28 | a key other than the digits 1 to 4 changes no flag, even on a press |
| GlobalLights.PressFlipsOne | TP-P3D/Light.cpp:16-27 | pressing digit i flips flag i and no other |
| GlobalLights.AmbientFollowsFlag | TP-P3D/Light.cpp:30-39 | after at least one event, an active ambient flag comes with the lit record, and the record is either its starting value or the lit one, never switched off |
| GlobalLights.StartUnlit | TP-P3D/Light.cpp:4-9 | all four global flags start on, yet the ambient record starts unlit, zero-initialised until the first event |
| CameraInput.Abs | TP-P3D/Camera.cpp:55 | `fabs` returns the magnitude: non-negative and equal to x or -x |
| CameraInput.NewCamera | TP-P3D/Camera.cpp:3-6 | the constructor stores the given zoom and angle |
| CameraInput.DefaultCamera | TP-P3D/Camera.h:11-17 | the default camera has zoom 12 and angle 0 |
| CameraInput.ProcessMouseMovement | TP-P3D/Camera.cpp:37-42 | with the button held, the angle becomes xoffset / 200; without it, nothing changes; the zoom is never touched |
| CameraInput.ProcessMouseScroll | TP-P3D/Camera.cpp:52-60 | a tick of +1 never lowers the zoom and -1 never raises it; any other offset changes nothing; the angle is untouched |
| CameraInput.ScrollScales | TP-P3D/Camera.cpp:52-60 | each tick multiplies the zoom by 1.1 or 0.9, depending on the tick and the zoom's sign, so the sign is kept and zero stays zero |
| CameraInput.ScrollAllKeepsSign | TP-P3D/Camera.cpp:52-60 | no run of scroll events changes the sign of the zoom, or the angle |
| CameraInput.ZoomOutApproachesZero | TP-P3D/Camera.cpp:58-59 | n zoom-out ticks from a positive zoom multiply it by 0.9^n: it shrinks strictly but stays positive |
| CameraInput.MovementIsAbsolute | TP-P3D/Camera.cpp:39-41 | the angle follows the last cursor position with the button held, not the sum of positions |
| CameraInput.InputsAreIndependent | TP-P3D/Camera.cpp:37-60 | moving and scrolling commute: neither touches the other's field |
| TableMesh.CheckIndices | TP-P3D/Table.cpp:55-79 | the scan accepts exactly the index arrays whose every entry is below the vertex count |
| TableMesh.CheckFaces | TP-P3D/Table.cpp:55-79 | the scan accepts exactly the index arrays of `6 * faces` entries where face f is the triangles (4f, 4f+1, 4f+2) and (4f+2, 4f+3, 4f) |
| TableMesh.TableSizes | TP-P3D/Table.cpp:17-79 | the table has 24 vertices of six floats and 36 indices; 36 is the count drawn at line 184, two triangles for each of 6 faces |
| TableMesh.TableIndicesInBounds | TP-P3D/Table.cpp:55-79 | every table index names one of the 24 vertices |
| TableMesh.TableFaceStructured | TP-P3D/Table.cpp:55-79 | the table's indices are exactly two triangles per quad of four consecutive vertices |
| TableMesh.FaceFromCorners | TP-P3D/Table.cpp:103-106 | read with stride 6, positions at offset 0 and normals at 3, a face passes its checks exactly when its four corners and shared normal do |
| TableMesh.BoxFromFaces | TP-P3D/Table.cpp:17-79 | any 24-vertex array whose six faces pass their checks, drawn with quad-structured indices, has every face's normal pointing outwards, every vertex at a corner of the box, and every drawn triangle facing outwards; it says nothing about which faces are distinct |
| TableMesh.TableIsBox | TP-P3D/Table.cpp:17-79 | the table is a closed box with half-extents 0.9, 0.05 and 0.45 (x and z are the collision walls). Every normal points outwards, every vertex is a box corner, and all 12 drawn triangles wind counter-clockwise from outside. No two faces share a normal, and each of the six axis directions is some face's normal |

## Left out

- All OpenGL and GLFW calls are left out: buffer creation and upload, shaders, textures, draw calls and window callbacks. The model keeps only the data they are given.
- `LoadMTL`, `LoadTexture`, `LoadShaders` and `Utils` are not part of this model. The `mtllib` record is read and ignored.
- Tokenising with `fscanf` is left out: the loader takes records already split by header token. The source reads only what each format asks for, so extra words on a line become headers of their own. A tokeniser would have to produce those as records:
  - An unrecognised header consumes only its own token; the words after it on its line are read as further headers.
  - A face line reads exactly nine integers (Ball.cpp:80). So `f 1/1/1 2/2/2 3/3/3 4/4/4` loads its first triangle without error, and `4/4/4` is then read as an unknown header and ignored. A quad is thus silently truncated, not rejected. The model represents that line as `F(...)` followed by `Other("4/4/4")`, not as `BadF`.
  - Likewise a `vt` line with three components reads two floats (Ball.cpp:67), and its third number becomes an ignored header.
- Opening the file, and the "Impossible to open the file" throw, are I/O and are left out.
- The unused index vectors of `Ball::Load`, and the `Install` and `Render` steps of `Ball` and `Table` (the 0.04 model scale, buffer layout, matrices) are left out.
- The camera's projection and view matrices are left out: they are GLM matrix algebra over floats.
- Console printing in `ToggleLight` is left out.
- Floating point is modelled with exact reals. The constants 0.035, 0.9, 0.45 and 0.05 are their decimal values, not the nearest `float`. `glm::distance` is replaced by an exact comparison of squares, which `Billiards.SquaredComparisonExact` shows decides the same.
- `Billiards.Update` takes `glm::degrees` as the parameter `deg` and the ball speed `SPEED` as the parameter `speed`, because neither is given here as data.
- Billiards.IsColliding: "another ball" is a ball at a different index of the sequence. The source compares addresses, so a ball that is a copy and not an element of the vector would be compared with every element.
- The GLFW constants (`GLFW_PRESS` = 1, `GLFW_RELEASE` = 0, `GLFW_REPEAT` = 2, `GLFW_KEY_1` to `GLFW_KEY_4` = 49 to 52) come from GLFW's public header, which is not part of this model.
- ObjLoader.At: for zero or negative indices, the throw is stated only for pools of fewer than 0x7FFF_FFFF elements. In a larger pool the wrapped position can exist, and the model then returns that element, as `.at` would.
- ObjLoader.LoadSucceedsIffWellFormed: stated under the same bound on pool sizes (`Bounded`), for the same reason.
- ObjLoader.ExpandCorner, ObjLoader.ExpandCorners, ObjLoader.ExpandFace: "succeeds only when all indices are in range" is stated only for pools below that bound (`Small`); the other direction, and the exact pushed values on success and on a throw, hold for any pool size.
- ObjLoader.RunMatchesExpected: the "succeeds only on well-formed files" direction needs the bound (`Bounded`). The other direction is `ObjLoader.RunWellFormed`, which holds for any pool size.
- ObjLoader.FirstBadRecordThrows: needs the bound on the pools before the bad record, since a zero or negative index may otherwise land on an existing element. `ObjLoader.ForwardReferenceThrows` covers indices past the end for any pool size.
- The per-vertex lookup lemmas of `TableMesh` (`Vertex0` to `Vertex23`, and the per-face checks) are proof steps behind `TableMesh.TableIsBox` and get no row of their own.
