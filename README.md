# OpenGL scene viewer: a verified model of its core

This project models an interactive OpenGL viewer in Dafny. The viewer renders a lit 3D
scene with shadow mapping: a ground plane, cubes and spheres. It keeps up to eight
lights (directional, point and spot) in a light manager and sends them to the
lighting shader each frame. A free-flying camera moves with W/A/S/D, Q/E and the
mouse, and TAB switches between camera control and the editing panel. The
editing panel adds lights and edits their parameters.

The model keeps the program's own structure:

- **Value types become datatypes and functions.** Vectors, materials, lights,
  vertices and matrices are values. Floating-point numbers are `real`.
  `normalize`, `glm::lookAt`/`ortho`/`perspective` and the camera's trigonometry
  are uninterpreted: they are function-valued parameters, or terms of a symbolic
  `Mat4` datatype.
- **Objects the program mutates become classes.** These are the light manager,
  camera, mesh, geometry, 3D object, scene, GUI and the application's viewer state.
  Their methods carry `modifies` clauses and state the whole new state.
- **OpenGL is a command log.** Every `glGen*`, draw call, texture bind and uniform
  write appends a command to the `Gpu.Gl` log. The properties about rendering are
  about that log: which uniforms a light writes, in what order, and how many draws
  a frame makes.
- **Loops stay loops.** The sphere, cube and plane generators, the light upload and
  the per-frame scene rendering are methods with `while` loops. Each is proved
  equal to a specification function, and the lemmas about that function give the
  properties: index counts, indices in range, one `.enabled` write per slot.

Wall-clock readings (`glfwGetTime`), key states, mouse positions and the panel's
widget results are parameters of the methods that read them.

Two behaviours of the code are easy to misread:

- The light-space matrix (src/main.cpp:159-170) uses the light in slot 0 only, and
  only if it is directional. It ignores that light's `enabled` flag, places the
  light at `-direction * 5`, and has no fallback up-vector for a direction
  parallel to world-up.
- The directional light's upload writes a `position` member that the light type
  does not declare (src/Light.cpp:12). The model writes an unspecified vector there.

## Model

| member | source | states |
|---|---|---|
| Glm.WithinDistanceIsLength | src/Object3D.cpp:52-55 | The distance test used for picking holds exactly when the Euclidean distance between the points is at most the threshold |
| Gpu.Gl.GenName | src/Geometry.cpp:188-189 | A `glGen*` call returns a name one above every name handed out so far, so no name is reused, and it logs nothing |
| Gpu.Shader.Use | src/Shader.cpp:75-77 | `use()` appends one UseProgram command for this shader's program; no name is allocated |
| Gpu.Shader.SetUniform | src/Shader.cpp:79-125 | `setUniform` appends exactly one uniform write of the given name and value to this shader's program |
| Gpu.NatToString | src/Light.cpp:8 | The decimal rendering of a slot index is nonempty, and is the single digit for indices below ten |
| Gpu.ParseFieldName | src/Light.cpp:10-15 | Each light field's uniform suffix decodes back to that field, so distinct fields have distinct suffixes |
| Gpu.SlotNamesDistinct | src/Light.cpp:8-15 | For slots below ten, two rendered `lights[i].field` strings are equal only when slot and field are both equal |
| Utils.GetDistinctColor | src/Utils.cpp:50-63 | A colour, when there is one, is one of the eight palette entries |
| Utils.CppRem | src/Utils.cpp:62 | C++ `%` on int: the result lies strictly between -b and b, agrees with the mathematical remainder for a nonnegative dividend, and is the negated remainder of -a (so not positive) for a negative one |
| Utils.DistinctColorCycles | src/Utils.cpp:50-63 | For a nonnegative index the colour is palette entry index mod 8, so the colours repeat with period 8 |
| Utils.DistinctColorNegative | src/Utils.cpp:50-63 | A negative index stays inside the palette iff it is a multiple of 8, and then gives entry 0; every other negative index reads out of bounds |
| Utils.RayPlaneIntersection | src/Utils.cpp:33-48 | A hit is reported iff the ray is not parallel to the plane (tolerance 1e-6) and the hit parameter is nonnegative; a miss leaves the output point unchanged; a hit point lies on the ray at a nonnegative parameter and on the plane |
| Utils.PointOnRayOnPlane | src/Utils.cpp:41-46 | The point at the computed parameter satisfies the plane equation |
| Utils.ScreenToNdc | src/Utils.cpp:7-8 | The NDC point solves the affine map back to the pixel: (x + 1) * width = 2 * px and (1 - y) * height = 2 * py |
| Utils.NdcCorners | src/Utils.cpp:7-8 | Screen to NDC sends the top-left pixel to (-1, 1), the bottom-right to (1, -1) and the screen centre to the origin |
| Utils.NdcRoundTrip | src/Utils.cpp:7-8 | The screen-to-NDC step loses nothing: mapping back gives the original pixel |
| Materials.DefaultMaterial | include/Material.hpp:21 | A default material has ambient 0.2, diffuse 0.8, specular 0.5 (grey) and shininess 32 |
| Materials.CreatePlastic | src/Material.cpp:3-11 | Plastic: ambient 0.1 c, diffuse 0.7 c, white specular 0.9, shininess 64 |
| Materials.CreateMetal | src/Material.cpp:13-21 | Metal: ambient 0.05 c, diffuse 0.3 c, specular 1.2 c (tinted by the colour), shininess 128 |
| Materials.CreateRubber | src/Material.cpp:23-31 | Rubber: ambient 0.3 c, diffuse 0.8 c, grey specular 0.1, shininess 8 |
| Materials.CreateWood | src/Material.cpp:33-41 | Wood: ambient 0.2 c, diffuse 0.9 c, grey specular 0.05, shininess 4 |
| Materials.PresetIsFactoryDefault | include/Material.hpp:28-31 | Each named preset is the matching factory applied to that preset's default colour |
| Materials.ShininessOrdered | src/Material.cpp:3-41 | For any colour every factory's shininess is positive, and metal > plastic > rubber > wood |
| Materials.AmbientBelowDiffuse | src/Material.cpp:3-41 | For a colour with nonnegative channels, every factory's ambient term is channel-wise at most its diffuse term, and metal's diffuse is at most its specular |
| Materials.FactoriesScaleWithColor | src/Material.cpp:3-41 | Scaling the colour scales ambient and diffuse by the same factor; specular scales only for metal and is fixed otherwise |
| Lights.TypeCode | include/Light.hpp:12-16 | DIRECTIONAL, POINT and SPOT have the codes 0, 1 and 2, each code belonging to exactly one type |
| Lights.NewLight | include/Light.hpp:31-33 | A new light is enabled, with attenuation (1, 0.09, 0.032) and the given colour and intensity |
| Lights.NewDirectionalLight | include/Light.hpp:46-49 | A directional light has type DIRECTIONAL, stores the normalised direction (not the argument), and has the base defaults |
| Lights.NewPointLight | include/Light.hpp:59-62 | A point light has type POINT, the given position and the base defaults |
| Lights.NewSpotLight | include/Light.hpp:75-82 | A spot light has type SPOT, the given position, the normalised direction and both cut-off angles as given |
| Lights.SpotConstructorDoesNotOrderAngles | include/Light.hpp:75-82 | The constructor keeps an outer cut-off smaller than the inner one (30 and 10) as it is |
| Lights.LightWrites | src/Light.cpp:7-53 | A directional light makes 6 uniform writes, a point light 8 and a spot light 11 |
| Lights.SendToShader | src/Light.cpp:80 | The virtual `sendToShader` call appends exactly the writes of the light's own variant, for the given slot |
| Lights.SendDirectional | src/Light.cpp:7-16 | The directional override appends exactly the directional writes for its slot |
| Lights.SendPoint | src/Light.cpp:19-32 | The point override appends exactly the point writes for its slot, attenuation included |
| Lights.SendSpot | src/Light.cpp:35-53 | The spot override appends exactly the spot writes for its slot, cone included |
| Lights.LightWritesOwnSlot | src/Light.cpp:7-53 | Every write of a light is a uniform write to the given program naming a field of its own slot, and no name is written twice |
| Lights.LightWritesTo | src/Light.cpp:7-53 | A light's writes all go to the program it was given |
| Lights.SpotUploadsCosines | src/Light.cpp:51-52 | The spot's last two writes are `cutOff` and `outerCutOff` as cosines of the angles in radians, not the degree values |
| Lights.LightWritesEnableOnce | src/Light.cpp:7-53 | Each light variant writes its `.enabled` field exactly once |
| Lights.UploadTrace | src/Light.cpp:74-88 | An upload starts with `numLights` set to the number of stored lights |
| Lights.ActiveWritesEnableEach | src/Light.cpp:79-81 | The first loop over n lights writes `.enabled` exactly n times |
| Lights.DisabledWritesAt | src/Light.cpp:84-87 | The second loop from lo to hi makes hi - lo writes, the k-th being `lights[lo + k].enabled = false` |
| Lights.DisabledWritesCount | src/Light.cpp:84-87 | The second loop writes `.enabled` exactly once per unused slot |
| Lights.UploadEnablesEverySlot | src/Light.cpp:74-88 | With at most 8 lights, an upload writes `.enabled` exactly 8 times, once per shader slot |
| Lights.UploadDisablesUnusedSlots | src/Light.cpp:84-87 | Every slot i from the light count up to 7 receives `lights[i].enabled = false`, and these writes close the upload |
| Lights.UploadSlotInOrder | src/Light.cpp:79-81 | Light i's writes appear unchanged in slot i, right after the count and the writes of lights 0 to i-1 |
| Lights.UploadWritesOnlyToShader | src/Light.cpp:74-88 | Every command of an upload is a uniform write to the given program |
| Lights.AddAppendsBelowCap | src/Light.cpp:56-72 | Below 8 lights an add appends the light after the existing ones; at 8 it changes nothing |
| Lights.AddedAllBounded | src/Light.cpp:56-72 | A run of adds keeps the existing lights as a prefix and ends with min(count + adds, 8) lights |
| Lights.LightManager.constructor | include/Light.hpp:89-92 | A new manager holds no lights |
| Lights.LightManager.AddDirectionalLight | src/Light.cpp:56-60 | The light is appended if fewer than 8 are stored, otherwise dropped silently |
| Lights.LightManager.AddPointLight | src/Light.cpp:62-66 | The light is appended if fewer than 8 are stored, otherwise dropped silently |
| Lights.LightManager.AddSpotLight | src/Light.cpp:68-72 | The light is appended if fewer than 8 are stored, otherwise dropped silently |
| Lights.LightManager.GetLightCount | include/Light.hpp:111 | The count is zero iff the list is empty, and never exceeds the slot cap of 8 while the manager is valid |
| Lights.LightManager.Clear | include/Light.hpp:108 | After clearing there are no lights and the count is 0 |
| Lights.LightManager.SendLightsToShader | src/Light.cpp:74-88 | The GL log grows by exactly the upload trace of the stored lights and no name is allocated |
| Lights.LightManager.SendEachLight | src/Light.cpp:79-81 | The first loop appends each stored light's writes, light i in slot i |
| Lights.LightManager.DisableUnusedSlots | src/Light.cpp:84-87 | The second loop appends the disabling writes for slots from the count up to 7 |
| Cameras.Clamp | src/Camera.cpp:66 | `std::clamp`: the result lies in [lo, hi], equals the input iff the input is in range, and is the nearer bound otherwise |
| Cameras.MovementCancels | src/Camera.cpp:30-54 | Each move's opposite moves by the negated offset, so a move then its opposite returns to the start |
| Cameras.VerticalMovement | src/Camera.cpp:47-52 | UP and DOWN move along world-up by plus or minus the velocity, not along the camera's own up vector |
| Cameras.Camera.constructor | src/Camera.cpp:4-10 | A new camera has the given position, world-up, yaw and pitch, speed 5, sensitivity 0.1 and zoom 45, with its basis computed from the angles |
| Cameras.Camera.UpdateCameraVectors | src/Camera.cpp:156-168 | Front, right and up become the orientation of the current yaw, pitch and world-up; nothing else changes |
| Cameras.Camera.GetViewMatrix | src/Camera.cpp:20-23 | The view looks from the position towards position + front, with the camera's up |
| Cameras.Camera.GetProjectionMatrix | src/Camera.cpp:25-28 | The projection has the zoom as field of view, the given aspect ratio, near 0.1 and far 100 |
| Cameras.Camera.ProcessKeyboard | src/Camera.cpp:30-54 | The position moves by speed times dt along front, right or world-up for the key; orientation and settings are unchanged |
| Cameras.Camera.ProcessMouseMovement | src/Camera.cpp:56-71 | Yaw and pitch grow by the offsets times the sensitivity; with the constraint on, pitch is clamped to [-89, 89]; the basis is recomputed; the position is unchanged |
| Cameras.Camera.ProcessMouseScroll | src/Camera.cpp:73-77 | Zoom becomes zoom - offset clamped to [1, 90]; nothing else changes |
| Cameras.Camera.SetPosition | src/Camera.cpp:79-82 | Only the position changes |
| Cameras.Camera.SetMovementSpeed | src/Camera.cpp:95-98 | Only the movement speed changes |
| Cameras.Camera.SetMouseSensitivity | src/Camera.cpp:100-103 | Only the mouse sensitivity changes |
| Cameras.Camera.SetZoom | src/Camera.cpp:105-108 | Zoom becomes the given value clamped to [1, 90]; nothing else changes |
| Cameras.Camera.Reset | src/Camera.cpp:145-154 | Position (0, 0, 3), default yaw, pitch, zoom, speed and sensitivity, and a recomputed basis; world-up is kept |
| Primitives.QuadFaceIndices | src/Geometry.cpp:127-140 | A table of quad faces has six indices per face |
| Primitives.IndexInFace | src/Geometry.cpp:127-140 | Index k of the table is one of the four vertices of face k div 6 |
| Primitives.QuadFaceIndicesInFace | src/Mesh.cpp:101-108 | Every index points into its own face, so no triangle spans two faces and every index is below 4 times the face count |
| Primitives.IndexTablesInRange | src/Geometry.cpp:127-176 | The cube's 36 indices are the six-face table and all lie below 24; the plane's 6 indices are the one-face table and all lie below 4 |
| Primitives.Iterations | src/Geometry.cpp:21 | A loop `for (i = 0; i < n; ++i)` runs n times for n >= 0 and not at all for negative n |
| Primitives.GridRow | src/Geometry.cpp:27-47 | One row of the grid holds exactly one vertex per column |
| Primitives.GridLength | src/Geometry.cpp:21-48 | The grid holds rows times columns vertices |
| Primitives.GridPoint | src/Mesh.cpp:120-134 | Position r times columns plus c of the grid is the vertex of row r and column c |
| Primitives.GridVertexAt | src/Mesh.cpp:120-134 | The grid is laid out row-major: every (row, column) vertex sits at row times columns plus column |
| Meshes.RingIndices | src/Mesh.cpp:137-150 | A ring contributes six indices per quad |
| Meshes.RingIndicesBounded | src/Mesh.cpp:137-150 | The quads of ring i only reference ring i and ring i + 1 |
| Meshes.SphereIndicesInRange | src/Mesh.cpp:137-150 | The sphere has 6 times rings times segments indices, each below (rings + 1)(segments + 1), the vertex count |
| Meshes.SphereVertexList | src/Mesh.cpp:120-134 | The vertex loops build the row-major grid of rings + 1 rows and segments + 1 columns |
| Meshes.SphereIndexList | src/Mesh.cpp:137-150 | The index loops build the ring-by-ring index table |
| Meshes.CubeVertices | src/Mesh.cpp:63-99 | The cube has 24 vertices in six runs of four; the four vertices of each face share one normal |
| Meshes.PlaneVertices | src/Mesh.cpp:156-161 | The plane has 4 vertices |
| Meshes.Mesh.constructor | src/Mesh.cpp:5-8 | A mesh stores its vertices and indices and takes fresh consecutive names for its VAO, VBO and, when there are indices, EBO |
| Meshes.Mesh.Draw | src/Mesh.cpp:50-57 | The draw is indexed iff there are indices, uses this mesh's vertex array, and counts all indices, or all vertices when there are none |
| Meshes.Mesh.Render | src/Mesh.cpp:50-60 | Rendering appends exactly one draw, `Draw()`: an indexed draw of all indices when there are any, otherwise an array draw of all vertices; no name is allocated |
| Meshes.CreateSphere | src/Mesh.cpp:113-153 | A fresh mesh holding the sphere grid and its index table for the given resolution |
| Meshes.CreateCube | src/Mesh.cpp:62-111 | A fresh mesh holding the 24 cube vertices and the 36 cube indices |
| Meshes.CreatePlane | src/Mesh.cpp:155-169 | A fresh mesh holding the 4 plane vertices and the 6 plane indices |
| Meshes.SphereWellFormed | src/Mesh.cpp:113-153 | For any arguments the sphere's vertex and index counts are as the loops say and every index addresses a vertex |
| Meshes.CubeAndPlaneWellFormed | src/Mesh.cpp:62-169 | Every cube and plane index addresses one of that mesh's vertices |
| Geometries.StackIndices | src/Geometry.cpp:55-70 | One stack contributes three indices per triangle, with one or two triangles per quad depending on the pole |
| Geometries.StackIndicesBounded | src/Geometry.cpp:55-70 | The indices of stack i stay below (i + 2)(sectors + 1) |
| Geometries.TrianglesUpToAll | src/Geometry.cpp:57-69 | Over r stacks there are 2r - 1 triangles per sector column, one fewer again once the last stack is included |
| Geometries.SphereIndicesCount | src/Geometry.cpp:51-71 | The index count is three times sectors times the triangles per column |
| Geometries.SphereIndicesBounded | src/Geometry.cpp:51-71 | After r stacks every index is below (r + 1)(sectors + 1) |
| Geometries.CubeVertices | src/Geometry.cpp:83-124 | The cube of any half-size has 24 vertices |
| Geometries.PlaneVertices | src/Geometry.cpp:157-166 | The plane of any size has 4 vertices |
| Geometries.Geometry.constructor | src/Geometry.cpp:5 | A new geometry is empty, uninitialised and holds no GL names |
| Geometries.Geometry.Render | src/Geometry.cpp:221-235 | Nothing before setup; then one indexed draw when there are indices, otherwise one array draw of all vertices |
| Geometries.Geometry.Cleanup | src/Geometry.cpp:237-251 | All GL names are forgotten and the geometry is uninitialised; the vertex and index lists stay |
| Geometries.Geometry.SetupMesh | src/Geometry.cpp:181-219 | With no vertices nothing changes; otherwise fresh consecutive VAO and VBO names, an EBO only when there are indices, and the geometry becomes initialised |
| Geometries.Geometry.PushSphereVertices | src/Geometry.cpp:21-48 | The vertex loops append the row-major grid of stacks + 1 rows and sectors + 1 columns |
| Geometries.Geometry.PushSphereIndices | src/Geometry.cpp:51-71 | The index loops append the stack-by-stack index table |
| Geometries.Geometry.PushQuad | src/Geometry.cpp:57-69 | One inner step appends the quad's triangles, leaving out the degenerate one on each pole stack |
| Geometries.Geometry.PushStack | src/Geometry.cpp:55-70 | One outer step appends all quads of one stack |
| Geometries.Geometry.GenerateSphere | src/Geometry.cpp:11-74 | The lists become the sphere grid and index table, and the geometry is set up with fresh names when it has vertices |
| Geometries.Geometry.LoadTables | src/Geometry.cpp:121-144 | The copy loops make the vertex and index lists equal to the given tables |
| Geometries.Geometry.GenerateCube | src/Geometry.cpp:76-147 | The lists become the 24-vertex cube of half the given size with the cube indices, set up with fresh names |
| Geometries.Geometry.GeneratePlane | src/Geometry.cpp:149-179 | The lists become the 4-vertex plane of half the given extents with the plane indices, set up with fresh names |
| Geometries.SphereIndexCount | src/Geometry.cpp:51-71 | The index count is a whole number of triangles, and 6 times sectors times (stacks - 1) for stacks >= 1 |
| Geometries.SphereIndicesValid | src/Geometry.cpp:21-71 | Whatever the arguments, every sphere index addresses one of its vertices |
| Geometries.CubeAndPlaneWellFormed | src/Geometry.cpp:76-179 | Every cube and plane index addresses one of that geometry's vertices |
| Objects.Object3D.constructor | src/Object3D.cpp:5-7 | The object stores its name and transform, has the plastic preset, no mesh, and is not selected |
| Objects.Object3D.ModelMatrix | src/Object3D.cpp:9-17 | The matrix is translate-then-rotate-then-scale: the last step scales by `scale`, the step before rotates by `rotation.z` about z, and under the rotations lies the translation of the identity by `position` |
| Objects.Object3D.SetPosition | src/Object3D.cpp:19-21 | Only the position changes |
| Objects.Object3D.SetRotation | src/Object3D.cpp:23-25 | Only the rotation changes |
| Objects.Object3D.SetScale | src/Object3D.cpp:27-29 | Only the scale changes |
| Objects.Object3D.Translate | src/Object3D.cpp:31-33 | The position moves by the offset and both bounding-box corners move with it |
| Objects.Object3D.Rotate | src/Object3D.cpp:35-37 | The Euler angles grow by the given angles |
| Objects.Object3D.RenderCommands | src/Object3D.cpp:39-50 | An object issues nothing exactly when it has no mesh |
| Objects.Object3D.Render | src/Object3D.cpp:39-50 | The GL log grows by the object's render commands and no name is allocated |
| Objects.Object3D.IsPointInside | src/Object3D.cpp:52-55 | A point is inside iff the threshold is nonnegative and the squared distance to the position is at most the threshold squared |
| Objects.Object3D.BoundingBoxMin | src/Object3D.cpp:57-59 | The minimum corner lies `scale` below the position on each axis |
| Objects.Object3D.BoundingBoxMax | src/Object3D.cpp:61-63 | The maximum corner lies `scale` above the position on each axis |
| Objects.IsPointInsideIsDistance | src/Object3D.cpp:52-55 | A point is inside iff the threshold is nonnegative and the distance from the position is at most the threshold |
| Objects.BoundingBoxOrdered | src/Object3D.cpp:57-63 | The box's minimum is below its maximum iff the scale is nonnegative, and then the box contains the position |
| Objects.CreateCube | src/Object3D.cpp:65-70 | A fresh object with a fresh cube mesh, the wood preset, unit scale and no rotation |
| Objects.CreateSphere | src/Object3D.cpp:72-77 | A fresh object with a fresh sphere mesh, the metal preset, unit scale and no rotation |
| Objects.CreatePlane | src/Object3D.cpp:79-84 | A fresh object with a fresh plane mesh, the plastic preset, unit scale and no rotation |
| Scenes.BoundLights | src/Scene.cpp:87 | The number of lights bound is min(count, 8) |
| Scenes.LightBinds | src/Scene.cpp:87-88 | The binds are one per slot, slot i binding light i |
| Scenes.Scene.constructor | src/Scene.cpp:6-9 | No objects, no lights, no selection, and a camera at (0, 5, 10) with yaw -90 and pitch -20 |
| Scenes.Scene.AddObject | src/Scene.cpp:11-13 | The object is appended; nothing else changes |
| Scenes.Scene.RemoveObject | src/Scene.cpp:15-23 | The first occurrence is erased and a selection of it is cleared; an absent object changes nothing |
| Scenes.Scene.GetObjectByName | src/Scene.cpp:25-32 | Returns the first object with that name, or null iff no object has it |
| Scenes.Scene.AddLight | src/Scene.cpp:34-36 | The light is appended and a valid light selection stays valid |
| Scenes.Scene.RemoveLight | src/Scene.cpp:38-48 | A valid index erases that light, deselects it if selected and shifts a later selection down; an invalid index changes nothing |
| Scenes.Scene.GetLightByIndex | src/Scene.cpp:50-55 | Returns the light iff the index is valid |
| Scenes.Scene.SelectObject | src/Scene.cpp:57-66 | The object becomes the selection and is flagged, the previous one is unflagged, and the light selection is cleared; only the `isSelected` flag of those two objects may change, so every other field of either object stays |
| Scenes.Scene.SelectLight | src/Scene.cpp:68-74 | The index becomes the light selection, unchecked, and the object selection is cleared and unflagged; only that object's `isSelected` flag may change, so its other fields stay |
| Scenes.Scene.ClearSelection | src/Scene.cpp:76-82 | No object or light stays selected and the previous object is unflagged; only that object's `isSelected` flag may change, so its other fields stay |
| Scenes.Scene.GetObjectAtPosition | src/Scene.cpp:150-157 | Returns the first object whose pick test holds, or null iff none does |
| Scenes.Scene.GetLightAtPosition | src/Scene.cpp:159-166 | Returns the index of the first light within the threshold, or -1 iff none is |
| Scenes.Scene.Render | src/Scene.cpp:84-112 | The GL log grows by the scene's render commands and no name is allocated |
| Scenes.Scene.RenderLights | src/Scene.cpp:86-88 | The loop appends the binds of the first min(count, 8) lights |
| Scenes.Scene.RenderObjects | src/Scene.cpp:109-111 | The loop appends each object's render commands in order |
| Scenes.ObjectCommandsBindNothing | src/Scene.cpp:109-111 | Rendering objects binds no light |
| Scenes.LightBindsCount | src/Scene.cpp:87-88 | The light part of a render binds exactly as many lights as it was asked to |
| Scenes.RenderLightCount | src/Scene.cpp:84-112 | A render starts with the full light count, even past 8, and binds exactly min(count, 8) lights, to slots 0, 1, ... in order |
| Scenes.RemovalKeepsSelectedLight | src/Scene.cpp:38-48 | After a removal the selection is valid, and a selected light other than the removed one is still the selected light |
| Gui.ButtonLights | src/GUI.cpp:87-101 | The three Add buttons create the directional, point and spot light with the panel's fixed parameters |
| Gui.GUI.constructor | src/GUI.cpp:8-24 | The main window is shown and the demo window hidden |
| Gui.GUI.ShowMainWindow | src/GUI.cpp:46-147 | A hidden window changes nothing; a shown one sets the shadow flag, applies the buttons and then every light's panel, sets the wireframe flag when there is one, and the window flags |
| Gui.PressButtons | src/GUI.cpp:87-105 | The manager holds the lights after the three Add buttons, each subject to the cap, and then Clear All |
| Gui.EditLights | src/GUI.cpp:110-124 | Every light is replaced by the result of its own panel |
| Gui.ControlsKeepType | src/GUI.cpp:110-124 | A panel never changes a light's type, and a closed panel changes nothing |
| Gui.SpotAnglesOrdered | src/GUI.cpp:181-210 | After an open spot panel the direction is normalised and the outer angle is at least the inner: the edited value when already so, otherwise the inner angle |
| Gui.DirectionalRenormalised | src/GUI.cpp:149-161 | After an open directional panel the direction is the normalised edit and the attenuation is untouched |
| Gui.EditAllKeepsSlots | src/GUI.cpp:110-124 | The panels keep the light count and each slot's type, leave closed lights as they were, and leave every opened spot light with outer angle at least inner |
| Gui.ButtonsKeepCap | src/GUI.cpp:87-105 | The buttons never push the list past 8, Clear All empties it, and otherwise the old lights stay a prefix |
| App.LightSpaceMatrix | src/main.cpp:159-170 | The identity iff slot 0 does not hold a directional light; otherwise the fixed orthographic box times a view from 5 units back along the direction towards the origin, with up (0, 1, 0) |
| App.LightSpaceReadsSlotZeroOnly | src/main.cpp:159-170 | Two light lists whose slot 0 has the same variant give the same matrix, whatever the other slots, colours and enable flags |
| App.SceneWritesBlocks | src/main.cpp:264-330 | With one draw per geometry the scene's commands come in blocks of six, block k belonging to object k |
| App.SceneDrawsEachObjectOnce | src/main.cpp:264-330 | With one draw per geometry the scene issues one draw per object and otherwise only uniform writes |
| App.PlacementLayout | src/main.cpp:266-276 | One object's block is its model matrix, its four material writes, then one draw |
| App.RenderSceneShape | src/main.cpp:264-330 | renderScene issues 30 commands with 5 draws, for a plane, sphere, cube, sphere and cube, each after its model matrix and material |
| App.UploadHasNoBinds | src/main.cpp:200 | The light upload issues only uniform writes and no draw |
| App.DepthPassIff | src/main.cpp:173-181 | The depth framebuffer is bound in a frame iff shadows are on and there is at least one light |
| App.ShadowMapBoundIff | src/main.cpp:203-206 | The shadow map is bound to unit 1 in a frame iff shadows are on |
| App.FrameDrawCount | src/main.cpp:173-208 | A frame's draws are those of the lit scene plus, when the depth pass runs, those of the depth scene |
| App.LightingUniformsPrecedeUpload | src/main.cpp:184-200 | In the lighting pass the five frame uniforms come first, immediately followed by the whole light upload |
| App.TabStep | src/main.cpp:337-353 | The mode flips iff TAB is down and was not already latched; the latch follows the key; entering UI mode re-arms the first-mouse flag, and nothing else does |
| App.ModeFlipsOncePerPress | src/main.cpp:337-353 | Over any run of frames the mode flips once per press edge, and the latch ends as the last reading |
| App.HeldTabFlipsOnce | src/main.cpp:337-353 | Holding TAB for any number of frames flips the mode exactly once |
| App.HeldPresses | src/main.cpp:337-353 | A key held for n frames is one press edge, or none if it was already latched |
| App.BalancedKeysStayPut | src/main.cpp:356-369 | Holding both keys of each opposite pair leaves the camera where it was |
| App.MouseOffsets | src/main.cpp:380-389 | The first event after re-arming gives zero offsets; otherwise x is the change since the last position and y the reversed change |
| App.InitialSceneCastsShadows | src/main.cpp:247-261 | The start-up lights are directional, point and spot in that order, so the first frame has a light-space matrix other than the identity and a depth pass; the spot's angles are ordered |
| App.InitializeLights | src/main.cpp:247-261 | After start-up the manager holds exactly the three initial lights |
| App.SceneMaterialsAreFactoryMade | src/main.cpp:242-245 | The scene's five materials are the factories applied to the colours the code gives |
| App.Viewer.CurrentDraws | src/Geometry.cpp:221-235 | Once the three shared geometries are set up, each draws with exactly one draw call |
| App.Viewer.constructor | src/main.cpp:84-132 | Start-up state: UI mode, shadows on, wireframe off, cursor at the screen centre, the camera at (0, 3, 8) with default speed and sensitivity and a basis current for its angles, the three initial lights, the sphere's grid and index table for 32 sectors by 16 stacks, the cube and plane tables, all geometries set up, the panel shown, fresh depth framebuffer and texture names, and the shadow sampler set to unit 1 |
| App.Viewer.RenderScene | src/main.cpp:264-330 | The GL log grows by exactly the scene's commands for the shader and the two clock readings |
| App.Viewer.Draw | src/main.cpp:147-208 | The GL log grows by exactly the frame's commands for the current flags, lights and camera |
| App.Viewer.ComputeLightSpaceMatrix | src/main.cpp:159-170 | Returns the light-space matrix of the manager's lights |
| App.Viewer.DepthPassStep | src/main.cpp:173-181 | Appends the depth pass when shadows are on and there are lights, and nothing otherwise |
| App.Viewer.LightingPassStep | src/main.cpp:184-208 | Appends the lighting pass: the frame uniforms, the light upload, the shadow-map bind when shadows are on, and the scene |
| App.Viewer.WriteLightingUniforms | src/main.cpp:189-197 | Appends the projection, view, view position, light-space matrix and shadow flag writes |
| App.Viewer.ProcessInput | src/main.cpp:332-370 | Reports escape, steps the TAB state once, and moves the camera by the held keys only in camera mode; nothing else changes |
| App.Viewer.PollTab | src/main.cpp:337-353 | The TAB state steps once for the reading; nothing else changes |
| App.Viewer.MoveCamera | src/main.cpp:356-369 | The camera moves by the held keys in source order; its orientation and settings are unchanged |
| App.Viewer.PollKey | src/main.cpp:357-368 | A held key moves the camera one step in its direction; a released key leaves it |
| App.Viewer.MouseCallback | src/main.cpp:376-392 | In UI mode nothing changes; in camera mode the cursor is recorded, the camera turns by the offsets with pitch clamped, its basis is recomputed for the new angles, and position, zoom, world-up, speed and sensitivity stay |
| App.Viewer.ScrollCallback | src/main.cpp:394-399 | In UI mode nothing changes; in camera mode the zoom becomes zoom - offset clamped to [1, 90]; position, angles, basis, world-up, speed and sensitivity stay |
| App.Viewer.Frame | src/main.cpp:135-218 | The frame time is updated; the camera moves by the held keys at speed times the new frame time only in camera mode, its angles, basis, zoom and settings unchanged; the frame's commands are issued from the state the frame started with; then the panel's edits, its close box and its demo checkbox apply for the next frame |
| App.Viewer.BeginFrame | src/main.cpp:137-142 | The frame time is the difference from the previous reading, which becomes the new last reading; the camera stays put in UI mode and otherwise moves by the held keys at speed times the new frame time, with its angles, basis, zoom and settings unchanged |
| App.Viewer.ShowPanel | src/main.cpp:211-212 | A shown panel sets the shadow and wireframe flags, applies its buttons and light edits, is hidden by its close box and sets the demo window's flag from its checkbox; a hidden one changes nothing |
| App.CreateGeometries | src/main.cpp:232-240 | Start-up makes a 32 by 16 sphere with its grid and index table, a cube of edge 2 and a 20 by 20 plane, all set up with fresh names |
| App.CreateFlatGeometries | src/main.cpp:236-240 | The cube of edge 2 and the 20 by 20 plane hold their vertex and index tables and are set up with fresh names, after the sphere |
| App.CreateSphereGeometry | src/main.cpp:233-234 | The shared sphere holds the grid and the stack-by-stack index table for 16 stacks and 32 sectors, and is set up |
| App.CreateShadowTarget | src/main.cpp:107-132 | The framebuffer and depth texture take two fresh names, followed by the binds and the shadow sampler set to unit 1 |
| App.DrawPlacement | src/main.cpp:266-276 | One object appends its model matrix, its material and its geometry's draw |
| App.FrameSummary | src/main.cpp:173-208 | From a valid state a frame binds the depth framebuffer iff the depth pass runs, binds the shadow map iff shadows are on, and draws 10 objects with the depth pass and 5 without |

## Left out

- Lights.LightWrites: the directional upload's `position` write (src/Light.cpp:12) names a member the light type does not declare. Its value is an unspecified vector.
- Objects.Object3D.Render: `material.bind` (src/Object3D.cpp:43) is not part of the declared Material API, so it is not modelled.
- Objects.Object3D.constructor: `Material::Plastic()` is undeclared. It is modelled as the plastic factory applied to its default colour.
- Objects.CreateSphere: the sphere resolution is taken as parameters rather than fixed in the factory.
- Scenes.Scene.Render: a light binding is one opaque command. The shadow paths (src/Scene.cpp:91-101 and 114-148) use a light API that is not declared, and are not modelled.
- Scenes.Scene.RemoveLight: the light's `cleanup()` call (src/Scene.cpp:40) is not modelled.
- Scenes.Scene.RemoveObject: as in the code, it does not clear `isSelected` on the removed object.
- Gui.GUI.ShowMainWindow: the demo window's own close button (src/GUI.cpp:144-146) is not modelled. Widget ranges are not enforced: edited values are inputs.
- App.Viewer.ProcessInput: the code reads TAB twice per frame (src/main.cpp:337 and 351); the model takes one reading.
- App.Viewer.Frame: ImGui's new-frame and render calls, buffer swapping and event polling are not modelled. The callbacks are separate methods.
- Cameras.Camera.UpdateCameraVectors: the trigonometry is an uninterpreted orientation function, so properties of the basis (unit length, orthogonality) are not stated.
- Cameras.Camera.GetViewMatrix: matrices are symbolic terms. No matrix algebra is modelled: `getModelMatrix` (Objects.Object3D.ModelMatrix) is the term of its GLM calls, and nothing is stated about the matrix's entries.
- Sphere vertex positions (sin/cos of the grid angles) are an uninterpreted vertex function; only the grid layout and the indices are modelled.
- Camera `setTarget` (src/Camera.cpp:84-93) is not modelled: it needs `atan2`/`asin`. The plain getters read fields and need no model.
- Utils.RayPlaneIntersection: `abs(denom)` (src/Utils.cpp:37) is read as the floating-point absolute value. The call is unqualified in a file that includes only GLM headers, so a C++ library that binds it to the integer `abs` would truncate and treat every |denom| < 1 as parallel; the model does not capture that reading.
- Utils.ScreenToNdc: requires a nonzero width and height. For a zero-sized window the code divides by zero and yields infinities or NaN, which reals cannot express.
- Gpu.Gl.GenName: GL only promises a name not in use. The model hands out consecutive names, so contracts that relate two names (the texture one above the framebuffer, the vertex buffer one above the vertex array) hold in the model only.
- App.Viewer.PollTab: the cursor is shown or captured on each mode switch (`glfwSetInputMode`, src/main.cpp:343 and 347); window input modes are not modelled.
- `screenToWorld`'s matrix inversion and `screenToWorldRay` are not modelled; only the screen-to-NDC step is.
- `Scene::setupDefaultScene` (src/Scene.cpp:168-192) uses an undeclared light API. The scene's lights are opaque values with a position.
- Shader file reading, compilation and linking are not modelled. Neither are the skybox and the image loader.
- GL deletes (the Mesh destructor and the end of the main loop), texture parameters, vertex-attribute setup, VAO binds and buffer data are not modelled.
- GLFW window creation and its failure paths, `framebuffer_size_callback` and ImGui's `WantCapture*` flags are not modelled.
- The geometry generators that are declared but never defined (wire sphere and similar) are not modelled.
- The top-level `main.cpp` outside `src/` is a second entry point. It is not part of this model.
- Integer width is not modelled: loop counters, indices and slot numbers are unbounded naturals, so overflow does not arise.
- Floating-point rounding is not modelled: all floats are reals.
- `src/GUI.hpp` disagrees with `include/GUI.hpp`. The model follows `include/GUI.hpp`, whose optional light-sources argument goes unused by the four-argument call in src/main.cpp:212.
