# Phoenix-Engine rendering core, modelled in Dafny

Phoenix-Engine is a set of real-time rendering demos built on a small shared engine. The demos cover cascaded shadow maps, voxel cone tracing and image-based lighting with spherical harmonics. This project models the CPU side of those demos, which decides what is drawn, in which order and with which parameters:

- **Cascaded shadow maps.** The view range is split into three cascades. The eight frustum corners of each slice are fitted with a light-space bounding box, and the shadow pass renders one depth map per cascade, in order (`CascadedShadows`).
- **Spherical harmonics.** The nine-coefficient container with its in-place `+=`, `*=` and scaled copy (`SphericalHarmonics`). The band-0..2 basis, the cube-face direction table, and the texel walk that weights every texel by its solid angle and normalises the sum (`SHProjection`).
- **Procedural meshes.** The 65 x 65 sphere grid, its 8-float interleaved vertex layout and its serpentine triangle-strip indices (`SphereGrid`). The lazily built sphere and the quad mesh (`EngineUtils`), and the image-based-lighting demo's own copy of them (`ImageBasedLighting`).
- **Model import.** The directory of the model path, the pre-order node walk, face flattening, attribute defaults and the texture cache (`ModelImport`). Sampler naming and unit assignment when a mesh is drawn (`MeshRender`, with `Decimal` for the numerals).
- **Input handling.** The camera's clamps and key moves (`CameraControl`). The shadow demos' light and mode keys (`Shadows`). The voxel cone tracer's keys and callbacks (`ConeTracingApp`). The image-based-lighting keys and skybox choice.
- **Voxel cone tracing.** The pass sequence: voxelize, then either the shaded scene or the front/back-face capture and composite (`VoxelRenderer`). The scene set-up and tear-down (`VoxelScene`), and the shader registry (`ShaderRegistry`).

**How the model is built**

- **OpenGL** is an abstract machine (`Gl`). There is a record of the pipeline state the passes set, a call type, and a context object that records every call in order. Texture bindings are kept per texture unit and per target (GL_TEXTURE_2D, GL_TEXTURE_3D, GL_TEXTURE_CUBE_MAP), so a 2D bind and a 3D bind on the same unit do not overwrite each other. Every pass is specified as the exact trace it issues, and lemmas replay traces through the state machine to state what holds at each draw.
- **Floats** are `real`; rounding is not modelled.
- **glm matrices** are symbolic terms (`Glm.Mat4`). Matrix-vector products, trigonometry, square root and normalisation are fields of a `Numerics` record that callers pass in, and nothing is assumed about them.
- **Keyboard, clock and importer.** The keyboard is the set of keys held in a frame (`Keys`). The clock is a timestamp parameter. The scene importer's output is the input of `ModelImport`.
- **Mutable objects become classes.** The engine's objects (camera, meshes, models, the renderer, the scene, the demos' globals) are classes whose methods change their fields. Each method is proved against a specification function on the old state.

## Model

| member | source | states |
|---|---|---|
| CameraControl.Clamp | engine/camera.cpp:45-52 | the result lies in [lo, hi]; a value inside is kept, one below becomes lo, one above becomes hi |
| CameraControl.ClampedPitch | engine/camera.cpp:45-52 | after a mouse movement the pitch lies in [-MAX_CAMERA_PITCH, MAX_CAMERA_PITCH], and a pitch already inside is kept |
| CameraControl.ScrolledFov | engine/camera.cpp:57-71 | the field of view always ends in [MIN_FOV, MAX_FOV]; from an in-range value it is the old value minus the offset, or MIN_FOV when that falls below the range and MAX_FOV when it rises above; an out-of-range value is only clamped |
| CameraControl.ScrollIgnoredOutOfRange | engine/camera.cpp:59-70 | out of range, any two scroll offsets give the same result: MIN_FOV below the range, MAX_FOV above |
| CameraControl.KeyPressDelta | engine/camera.cpp:17-35 | each direction moves by exactly one of +forward, -forward, -right or +right, times MOVEMENT_SPEED * deltaTime |
| CameraControl.OppositePressesCancel | engine/camera.cpp:19-34 | a press followed by the opposite press with the same time step returns the position to where it started |
| CameraControl.ApplyPressesAppend | engine/camera.cpp:17-35 | applying a+b presses is applying a and then b from the position a leaves |
| CameraControl.Camera.constructor | engine/camera.cpp:7-10 | position, yaw, pitch and field of view start at CAMERA_POS, CAMERA_YAW, CAMERA_PITCH and FOV, and the basis is derived from them |
| CameraControl.Camera.ViewMatrix | engine/camera.cpp:12-15 | the look-at matrix from the position towards position + forward with the up vector |
| CameraControl.Camera.ProcessKeyPress | engine/camera.cpp:17-35 | the new position is the old one plus the KeyPressDelta of the direction; nothing else changes |
| CameraControl.Camera.ProcessMouseMovement | engine/camera.cpp:37-55 | yaw grows by xOffset * MOUSE_SENSITIVITY and is never clamped; pitch becomes the clamped sum; the basis is re-derived |
| CameraControl.Camera.ProcessMouseScroll | engine/camera.cpp:57-71 | the new field of view is ScrolledFov of the old one and the offset |
| CameraControl.Camera.Update | engine/camera.cpp:73-84 | forward, right and up are the normalised heading and the two cross products |
| CascadedShadows.CascadeSlices | cascaded_shadow_mapping/main.cpp:31 | the cascade ends rise strictly, so cascade i is a non-empty slice and ends below every later end |
| CascadedShadows.CascadesCover | cascaded_shadow_mapping/main.cpp:31 | every depth between the near and far planes lies in some slice [ends[i], ends[i+1]] |
| CascadedShadows.FrustumCorners | cascaded_shadow_mapping/main.cpp:252-269 | eight corners; the first four at z = ends[i] and the last four at z = ends[i+1], all with w = 1, each rectangle covering all four sign pairs of (x, y) |
| CascadedShadows.FitEncloses | cascaded_shadow_mapping/main.cpp:288-293 | folding points into the min/max accumulators only widens the start box, and the result encloses every point |
| CascadedShadows.FitAttained | cascaded_shadow_mapping/main.cpp:288-293 | each bound of the folded box is either its start value or a coordinate of some point |
| CascadedShadows.TightBox | cascaded_shadow_mapping/main.cpp:273-301 | from the intended start (FLT_MAX low, lowest float high) a non-empty point set is fitted exactly: the box encloses the points and each face touches one |
| CascadedShadows.AsWrittenHighBounds | cascaded_shadow_mapping/main.cpp:273-301 | with the as-written start the low bounds are the true minima and each high bound is max(FLT_MIN, true maximum) |
| CascadedShadows.AsWrittenBoxLoose | cascaded_shadow_mapping/main.cpp:274-278 | when every x is negative the as-written right bound is FLT_MIN and touches no corner, while the intended bound is negative and touches one |
| CascadedShadows.AsWrittenCornerLoopNeverExits | cascaded_shadow_mapping/main.cpp:280 | the as-written corner loop advances i (mod 2^64) and never j, so after any number of passes j is 0 and the guard j < 8 still holds |
| CascadedShadows.CascadeBoxTight | cascaded_shadow_mapping/main.cpp:241-303 | the intended box of each cascade encloses that cascade's eight light-space corners and each face touches one of them |
| CascadedShadows.FitCascade | cascaded_shadow_mapping/main.cpp:271-301 | the corner loop with j advancing returns the fold of the light-space corners from the intended start box |
| CascadedShadows.IndexedNamesDistinct | cascaded_shadow_mapping/main.cpp:200 | the uniform names base + "[" + i + "]" and base + "[" + j + "]" are equal exactly when i == j |
| CascadedShadows.ClipEndCallsAt | cascaded_shadow_mapping/main.cpp:305-313 | uniform i is gClipSpaceCascadeEnds[i] and carries the clip-space z of the far end ends[i+1] under the projection |
| CascadedShadows.SceneNoAttachments | engine/shadow_common.cpp:112-123 | drawing the shadow scene attaches no depth map, so the cascade passes decide every attachment |
| CascadedShadows.CascadePassesOrder | cascaded_shadow_mapping/main.cpp:213-221 | the first m cascade passes attach shadow maps 0 .. m-1, each once, in order |
| CascadedShadows.ShadowPassOrder | cascaded_shadow_mapping/main.cpp:208-224 | the whole shadow pass renders into the three shadow maps, each once, in cascade order |
| CascadedShadows.ReadingUnits | cascaded_shadow_mapping/main.cpp:321-331 | after the reading binds, units 1, 2 and 3 hold shadow maps 0, 1 and 2, unit 3 is active and no other unit changes |
| CascadedShadows.RenderPassUnits | cascaded_shadow_mapping/main.cpp:226-239 | when the lit pass starts drawing, unit 0 holds the floor texture and units 1 to 3 hold shadow maps 0 to 2, the units the gShadowMap[k] samplers point at |
| CascadedShadows.RenderPassChoice | cascaded_shadow_mapping/main.cpp:119-126 | the scene is rendered exactly when the mode is 0 or above 3; otherwise shadow map mode - 1 is shown, an index below 3 |
| CascadedShadows.ModeKeysDispatch | cascaded_shadow_mapping/main.cpp:119-126 | with the shared key handling, the last mode key held decides: E and 1 to 3 show a shadow map, Q and 4 to 6 render the scene |
| CascadedShadows.CascadeDemo.constructor | cascaded_shadow_mapping/main.cpp:43-45 | stores the framebuffer and the three shadow-map names and allocates the box array |
| CascadedShadows.CascadeDemo.CalcOrthoProjs | cascaded_shadow_mapping/main.cpp:241-303 | every entry of the box array becomes the intended fitted box of its cascade |
| CascadedShadows.CascadeDemo.SetLightSpaceVP | cascaded_shadow_mapping/main.cpp:190-206 | the program is used, then the matrix orthoLH(box) * lookAtLH(light) is set under gLightSpaceVP[i] in the render pass and gLightSpaceVP otherwise |
| CascadedShadows.CascadeDemo.SetClipSpaceCascadeEnds | cascaded_shadow_mapping/main.cpp:305-313 | appends exactly the three cascade-end uniforms, in cascade order |
| CascadedShadows.CascadeDemo.BindZBufferForWriting | cascaded_shadow_mapping/main.cpp:315-319 | binds the shadow framebuffer and attaches the depth map of that cascade |
| CascadedShadows.CascadeDemo.BindZBufferForReading | cascaded_shadow_mapping/main.cpp:321-331 | binds shadow maps 0, 1 and 2 on units 1, 2 and 3 |
| CascadedShadows.CascadeDemo.RenderCascade | cascaded_shadow_mapping/main.cpp:215-220 | one cascade: bind and attach its map, clear depth, set its matrix, then draw the scene |
| CascadedShadows.CascadeDemo.SetRenderPassVPs | cascaded_shadow_mapping/main.cpp:230-233 | one light-space matrix per cascade, in order, each from its fitted box |
| CascadedShadows.CascadeDemo.SetRenderPassUniforms | cascaded_shadow_mapping/main.cpp:228-233 | the shared uniforms, then the three cascade ends, then the three light-space matrices |
| CascadedShadows.CascadeDemo.SetUpRenderPass | cascaded_shadow_mapping/main.cpp:228-236 | those uniforms, then the floor texture on unit 0, then the shadow maps on units 1 to 3 |
| CascadedShadows.CascadeDemo.ExecRenderPass | cascaded_shadow_mapping/main.cpp:226-239 | shared uniforms, cascade ends and light matrices, the floor texture, the shadow-map binds, then the scene |
| CascadedShadows.CascadeDemo.RenderCascades | cascaded_shadow_mapping/main.cpp:213-221 | the three cascade passes, in order |
| CascadedShadows.CascadeDemo.ExecShadowMapPass | cascaded_shadow_mapping/main.cpp:208-224 | the boxes are fitted once; then the shadow-map viewport, the three cascade passes and the default framebuffer |
| GlObjects.ClearRestoresBinding | engine/texture3D.cpp:32-39 | the clear rebinds the 3D texture it read back from GL_TEXTURE_BINDING_3D, so every binding point of every unit, and the active unit, are as before |
| GlObjects.FilledBlack | engine/texture3D.cpp:37 | clearing to (0, 0, 0, 0) leaves all-zero texels |
| GlObjects.Texture3D.constructor | engine/texture3D.cpp:5-23 | a fresh texture name holding the uploaded data; bind, the mipmap build when asked for, unbind |
| GlObjects.Texture3D.Bind | engine/texture3D.cpp:25-30 | selects the unit, binds the texture and points the sampler at the unit |
| GlObjects.TwoDBindKeeps3D | engine/texture3D.cpp:35 | a bind on GL_TEXTURE_2D, as engine/framebuffer.cpp:10 issues, leaves what GL_TEXTURE_BINDING_3D reads back on the active unit unchanged |
| GlObjects.Texture3D.Clear | engine/texture3D.cpp:32-39 | every texel becomes the clear colour; the trace binds the texture on GL_TEXTURE_3D, clears it and rebinds the 3D texture that was on the active unit before |
| GlObjects.FramebufferSetupRestores | engine/framebuffer.cpp:28-34 | building a framebuffer leaves the framebuffer bound before still bound |
| GlObjects.Framebuffer.constructor | engine/framebuffer.cpp:48-53 | a fresh colour texture and framebuffer of the given size; the framebuffer bound before is bound again |
| GlObjects.Framebuffer.BindColorTexture | engine/framebuffer.cpp:55-60 | selects the unit, binds the colour texture and points the sampler at the unit |
| Shadows.ShadowMode | engine/shadow_common.cpp:58-90 | the mode stays within 0..6 when it starts there, and a changed mode is one of the values the mode keys select |
| Shadows.ShadowModeLastWins | engine/shadow_common.cpp:58-90 | the held mode key polled last in the order Q, E, 1..6 decides the mode (Q gives 0, E and 1 give 1, k gives k) |
| Shadows.ShadowModeKept | engine/shadow_common.cpp:58-90 | with no mode key held the render mode is unchanged |
| Shadows.VerticalPair | engine/shadow_common.cpp:33-40 | I and K change only y, by +MOVEMENT_SPEED * deltaTime and -MOVEMENT_SPEED * deltaTime |
| Shadows.XPair | engine/shadow_common.cpp:41-48 | J and L change only x, by -dir and +dir times MOVEMENT_SPEED * deltaTime |
| Shadows.ZPair | engine/shadow_common.cpp:49-56 | Y and H change only z, by -dir and +dir times MOVEMENT_SPEED * deltaTime |
| Shadows.LightHandedness | engine/shadow_common.cpp:32-56 | the y move is the same in both handednesses; the x and z moves are negated when not right-handed |
| Shadows.LightKeysCancel | engine/shadow_common.cpp:33-56 | opposite light keys held together cancel on their axis, and with no light key held the light stays put |
| Shadows.LightProjection | engine/shadow_common.cpp:218 | the light's orthographic box is symmetric: left = -right and bottom = -top, half-width ORTHO_PROJ_HALF_WIDTH, from NEAR_PLANE to FAR_PLANE |
| Shadows.ObjectKeepsTexture | engine/shadow_common.cpp:99-110 | drawing one object binds no texture, so every one of its mesh draws sees the unit-0 texture bound before it |
| Shadows.TexturedObject | engine/shadow_common.cpp:93-110 | after changeColorTexture(t) every draw of the next object samples t |
| Shadows.TexturedPair | engine/shadow_common.cpp:115-117 | after one texture change, both following objects draw all their meshes with that texture |
| Shadows.SceneTextures | engine/shadow_common.cpp:115-122 | the five objects are drawn with the object, object, alternative, alternative and object textures, in that order |
| Shadows.ShadowCommon.constructor | engine/shadow_common.h:30-36 | the light starts at the given position; time step, render mode and the three textures start at 0 |
| Shadows.ShadowCommon.ProcessInput | engine/shadow_common.cpp:8-91 | close is requested exactly when Escape is held; the camera moves by the W/S/A/D presses (W/S swapped when not right-handed); the light and the mode follow LightMoved and ShadowMode |
| Shadows.ShadowCommon.SelectRenderMode | engine/shadow_common.cpp:58-90 | the mode becomes ShadowMode of the held keys and the old mode |
| Shadows.ShadowCommon.MoveLight | engine/shadow_common.cpp:32-56 | the light moves to LightMoved of the held keys, handedness and time step |
| Shadows.ShadowCommon.MoveLightAlong | engine/shadow_common.cpp:33-40 | one key pair: each held key moves the light by its offset times MOVEMENT_SPEED * deltaTime |
| Shadows.ShadowCommon.ChangeColorTexture | engine/shadow_common.cpp:93-97 | selects unit 0 and binds the texture |
| Shadows.ShadowCommon.RenderObject | engine/shadow_common.cpp:99-110 | uses the program, sets the WVP, world and normal matrices of translate * scale(OBJ_SCALE) * rotate, then draws the model's meshes |
| Shadows.ShadowCommon.RenderScene | engine/shadow_common.cpp:112-123 | the plane, then the object at its five fixed placements under the object and alternative textures |
| Shadows.ShadowCommon.SetUniforms | engine/shadow_common.cpp:125-131 | uses the program and sets the camera position, light position and render mode |
| Shadows.ShadowCommon.SetLightSpaceVP | engine/shadow_common.cpp:214-222 | uses the program and sets the symmetric orthographic box times the view from the light |
| EngineUtils.WDirection | engine/utils.cpp:341-344 | W moves FORWARD exactly when the scene is right-handed and BACKWARD exactly when it is not |
| EngineUtils.SDirection | engine/utils.cpp:345-348 | S always moves opposite to W: BACKWARD exactly when right-handed |
| EngineUtils.Pressed | engine/utils.cpp:341-356 | one more press moves the position by exactly that press's displacement |
| EngineUtils.ForwardNet | engine/utils.cpp:341-348 | W and S move along forward with the handedness sign and cancel when both are held |
| EngineUtils.StrafeNet | engine/utils.cpp:349-356 | A and D move along right whatever the handedness and cancel when both are held |
| EngineUtils.MoveNet | engine/utils.cpp:341-356 | the net move of a frame: handedness-signed W/S along forward plus unsigned D/A along right |
| EngineUtils.QuadTriangles | engine/utils.cpp:284 | six indices, all below 4, forming two triangles that share the corners 0 and 2 |
| EngineUtils.QuadFacing | engine/utils.cpp:264-284 | both quad triangles wind counter-clockwise seen from the side the vertex normals point to |
| EngineUtils.MoveCamera | engine/utils.cpp:341-356 | the camera ends where the W, S, A, D presses, applied in that order with the handedness mapping, take it |
| EngineUtils.Utils.constructor | engine/utils.h:12-21 | time step and last timestamp start at 0, the sphere has NUM_SEGMENTS = 64 segments each way, and no plane or sphere exists yet |
| EngineUtils.Utils.RenderPlane | engine/utils.cpp:10-52 | the plane's vertex array is created on the first call only; every call uses the program, sets the three matrices and draws six vertices |
| EngineUtils.Utils.RenderSphere | engine/utils.cpp:94-185 | the first call builds the sphere into a fresh vertex array; later calls keep the array, buffers and index count; every call draws one strip of numIndices indices |
| EngineUtils.Utils.CreateSphere | engine/utils.cpp:96-181 | the first-call branch: a new vertex array name, the (segments + 1) x (segments + 1) grid of 8-float vertices, its serpentine strip and that strip's length as the index count, with no draw call |
| EngineUtils.Utils.ProcessInput | engine/utils.cpp:334-357 | close is requested exactly when Escape is held, and the camera moves as MoveCamera states |
| EngineUtils.CreateQuad | engine/utils.cpp:259-287 | a new mesh with the four quad vertices, indices 0, 1, 2, 0, 2, 3, six indices and no textures |
| SphereGrid.GridVertexAt | engine/utils.cpp:110-121 | row j, column i of the grid is vertex j(N+1)+i, with texture coordinate (i/N, j/N) |
| SphereGrid.GridUVInUnitSquare | engine/utils.cpp:114-115 | every texture coordinate of the grid lies in [0, 1] x [0, 1] |
| SphereGrid.BuildGrid | engine/utils.cpp:110-124 | (N+1)^2 positions, coordinates and normals; vertex k has coordinate GridUV(N, k) and the sphere point at it, and each normal equals its position |
| SphereGrid.InterleavedLayout | engine/utils.cpp:126-142 | with all three attributes present each vertex takes 8 floats, in the order x y z u v nx ny nz |
| SphereGrid.Interleave | engine/utils.cpp:126-142 | the buffer is the records of all vertices in order; uv and normal floats appear only when those lists are non-empty |
| SphereGrid.EvenRowAt | engine/utils.cpp:147-154 | an even row emits 2m indices: (top, bottom) of column i at positions 2i and 2i+1, column ascending |
| SphereGrid.OddRowAt | engine/utils.cpp:155-162 | an odd row emits 2m indices: (bottom, top) of column N-i at positions 2i and 2i+1, column descending |
| SphereGrid.RowPair | engine/utils.cpp:144-164 | the serpentine order: each row has 2(N+1) indices, even rows ascending (top, bottom), odd rows descending (bottom, top) |
| SphereGrid.StripLength | engine/utils.cpp:144-165 | m rows give m * 2(N+1) indices, so the stored index count is N * 2(N+1) |
| SphereGrid.StripPrefix | engine/utils.cpp:145-164 | the indices of fewer rows are a prefix of those of more rows |
| SphereGrid.StripRow | engine/utils.cpp:145-164 | row j occupies positions [2(N+1)j, 2(N+1)(j+1)) of the strip |
| SphereGrid.TopBottomBound | engine/utils.cpp:151-152 | for j < N the top and bottom vertices of a column are distinct and below (N+1)^2 |
| SphereGrid.RowBound | engine/utils.cpp:149-161 | every index a row j < N emits is below (N+1)^2 |
| SphereGrid.StripBound | engine/utils.cpp:144-164 | every index of the first m <= N rows names a grid vertex |
| SphereGrid.BuildStripIndices | engine/utils.cpp:144-164 | the oddRow loop emits exactly the serpentine strip over N rows: N * 2(N+1) indices, all below (N+1)^2 |
| SphereGrid.BuildSphere | engine/utils.cpp:103-165 | 8(N+1)^2 floats, vertex k's record being its sphere point, (u, v) and normal, and the serpentine strip indices; image_based_lighting/main.cpp builds the same sphere |
| ImageBasedLighting.RoughnessLevels | image_based_lighting/main.cpp:216-218 | the five prefilter levels take roughness 0, 0.25, 0.5, 0.75 and 1: strictly increasing in [0, 1], in steps of 1/4 |
| ImageBasedLighting.MipResolutions | image_based_lighting/main.cpp:216-219 | the prefilter levels are captured at 128, 64, 32, 16 and 8 texels per side (the constants of lines 40-41), each level half the previous one |
| ImageBasedLighting.FacesCallsAt | image_based_lighting/main.cpp:755-762 | face i of the face loop occupies calls 4i to 4i+3: attach face i, clear, set the face's view-projection, draw the cube |
| ImageBasedLighting.FaceAttaches | image_based_lighting/main.cpp:757-761 | drawing one face attaches that face and no other |
| ImageBasedLighting.AttachedFacesOfFaces | image_based_lighting/main.cpp:755-762 | the first m iterations of the face loop attach faces 0 to m-1, in order |
| ImageBasedLighting.CubemapFacesOnce | image_based_lighting/main.cpp:751-764 | a capture attaches each of the six cube-map faces exactly once, in the order +x, -x, +y, -y, +z, -z |
| ImageBasedLighting.FacesKeepTarget | image_based_lighting/main.cpp:755-762 | the face loop never rebinds the framebuffer or changes the viewport |
| ImageBasedLighting.CubemapFaceDraw | image_based_lighting/main.cpp:751-764 | with the depth storage of lines 677-682, face i is attached at the requested mip level, drawn with projection times view i, into the capture framebuffer at a viewport of the capture's resolution |
| ImageBasedLighting.PrefilterLevel | image_based_lighting/main.cpp:216-220 | level i of the prefilter pass sets roughness i/4 and then captures mip i at 128 * 0.5^i texels |
| ImageBasedLighting.SkyboxTexture | image_based_lighting/main.cpp:386-397 | mode 0 samples the environment map, mode 1 the irradiance map, any other mode the prefiltered map |
| ImageBasedLighting.Demo.constructor | image_based_lighting/main.cpp:55-62 | no sphere or cube created yet, 64 sphere segments each way (the count of line 501), render mode 0, BRDF overlay off |
| ImageBasedLighting.Demo.RenderSphere | image_based_lighting/main.cpp:486-577 | the first call builds the 64-segment sphere into a fresh vertex array; later calls keep it; every call appends one strip draw of numIndices indices |
| ImageBasedLighting.Demo.CreateSphere | image_based_lighting/main.cpp:488-573 | the first-call branch: a new vertex array name, the (segments + 1) x (segments + 1) grid of 8-float vertices, its serpentine strip and that strip's length as the index count, with no draw call |
| ImageBasedLighting.Demo.RenderCube | image_based_lighting/main.cpp:579-649 | the cube is created once and kept; every call appends one draw of 36 vertices |
| ImageBasedLighting.Demo.RenderToCubemap | image_based_lighting/main.cpp:751-764 | the trace is the capture: framebuffer, depth storage and viewport (lines 677-682), six face draws, then the default framebuffer |
| ImageBasedLighting.Demo.PrefilterEnvMap | image_based_lighting/main.cpp:216-220 | the trace is the five prefilter levels in order, each its roughness uniform and its capture |
| ImageBasedLighting.Demo.RenderSkybox | image_based_lighting/main.cpp:385-398 | unit 0 is activated, the map the render mode selects is bound, and the cube is drawn |
| ImageBasedLighting.Demo.ProcessInput | image_based_lighting/main.cpp:414-456 | close iff Escape; the camera takes the W/S/A/D presses; the mode is 2 if key 2 is held, else 1 if key 1, else 0 if Q, else unchanged; the BRDF overlay is on iff E is held or it was on and Q is not held |
| Decimal.ToDecimal | engine/mesh.cpp:56-68 | the numeral std::to_string gives: non-empty, all digits, one digit exactly for values below 10 |
| Decimal.FromToDecimal | engine/mesh.cpp:56-68 | reading the numeral back gives the number, so the numeral names it |
| Decimal.ToDecimalInjective | engine/mesh.cpp:56-68 | two counters give the same numeral iff they are equal |
| Materials.Material.constructor | engine/material.h:8-12 | both colours start as the given colour; specular reflectivity 0.5, diffuse reflectivity 1, emissivity 0, aperture 1.57 |
| Materials.Material.SetUniforms | engine/material.cpp:5-16 | the program is selected, then the six material uniforms are set from the fields, colours first |
| Materials.PointLight.constructor | engine/light.h:8-18 | white colour, intensity 1, at the origin, attenuation (1, 0, 1) |
| Materials.PointLight.SetUniforms | engine/light.cpp:5-13 | position, colour, intensity and the three attenuation terms go to the program in use, in that order |
| ShaderRegistry.MaterialStore.constructor | engine/material_store.cpp:6-12 | exactly the names voxelize, world_position_output, visualize_voxels and render are registered, each to a distinct freshly created program |
| ShaderRegistry.MaterialStore.GetMaterial | engine/material_store.cpp:20-28 | a registered name yields its program; any other name yields nothing; the map is left as it was |
| ShaderRegistry.StoreInstance.GetInstance | engine/material_store.cpp:14-18 | the first call builds the store; every later call returns that same store and touches nothing |
| ShaderRegistry.SameInstance | engine/material_store.cpp:14-18 | two calls of getInstance return one and the same store |
| MeshRender.CountStep | engine/mesh.cpp:53-70 | a texture raises the counter of its own type by one and leaves the other counters alone |
| MeshRender.CountsPartition | engine/mesh.cpp:43-70 | every texture counts under exactly one type |
| MeshRender.CountersBound | engine/mesh.cpp:43-70 | the five counters add up to the number of textures that are not NONE |
| MeshRender.CountGrows | engine/mesh.cpp:53-70 | a texture of type t raises the count of t in every longer prefix |
| MeshRender.SplitUnique | engine/mesh.cpp:56-68 | a prefix that does not end in a digit followed by a numeral splits in exactly one way |
| MeshRender.UniformNamesDistinct | engine/mesh.cpp:48-74 | with well-formed prefixes, two different typed textures of one mesh are bound under different sampler names |
| MeshRender.BindCallsLength | engine/mesh.cpp:48-74 | the texture loop issues three calls per texture |
| MeshRender.BindCallsAt | engine/mesh.cpp:50-73 | texture i selects unit i, points its sampler name at unit i, then binds its id |
| MeshRender.BindCallsUnits | engine/mesh.cpp:48-74 | after the loop unit i holds texture i, the last unit is active, and program and framebuffer are unchanged |
| MeshRender.Mesh.constructor | engine/mesh.cpp:7-32 | the mesh keeps the index count and textures and names a fresh vertex array; transform defaults, no material |
| MeshRender.Mesh.Render | engine/mesh.cpp:34-39 | one draw of all the indices as triangles |
| MeshRender.Mesh.RenderWith | engine/mesh.cpp:41-77 | the binding calls for every texture in order, then the draw |
| ModelImport.LastIndexOf | engine/model.cpp:21 | find_last_of: the position of the last occurrence of the character, none exactly when it does not occur |
| ModelImport.Directory | engine/model.cpp:21 | the directory is a prefix of the path ending right before its last '/', and the whole path when it has no '/' |
| ModelImport.DirectoryOfJoin | engine/model.cpp:21 | the directory of directory + "/" + a plain file name, the path built at line 148, is that directory again |
| ModelImport.FlattenTriangles | engine/model.cpp:104-111 | with triangulated faces, face i's three indices fill positions 3i to 3i+2 of the index list |
| ModelImport.Lookup | engine/model.cpp:136-145 | the scan finds a cache entry with the key, and finds none exactly when no entry has it |
| ModelImport.FetchHit | engine/model.cpp:137-144 | a cached path yields the cached entry, with its original type, and leaves the cache alone |
| ModelImport.FetchMiss | engine/model.cpp:146-150 | an uncached path appends exactly one entry, loaded from directory/path, keyed by the path and typed as requested, and yields it |
| ModelImport.FetchKeepsCache | engine/model.cpp:136-150 | the cache only grows, by at most one entry, keeps its keys distinct, and holds the texture returned under the path |
| ModelImport.FetchAllKeepsCache | engine/model.cpp:129-153 | one texture per listed path, in order, each the cache's entry for its path; the cache only grows and keeps its keys distinct |
| ModelImport.KeysAt | engine/model.cpp:148 | the keys of a texture list, position by position |
| ModelImport.FetchTypesKeepsCache | engine/model.cpp:115-124 | the textures of the listed types carry exactly those types' paths, type after type, and each is in the cache |
| ModelImport.MeshTexturesOrder | engine/model.cpp:115-124 | a mesh's texture list carries its material's diffuse, specular, ambient, height and opacity paths in that order, each shared through the cache |
| ModelImport.AllPathsInOrder | engine/model.cpp:115-124 | the five texture types are collected in the order diffuse, specular, ambient, height, opacity |
| ModelImport.PreOrderValid | engine/model.cpp:42-54 | every mesh the traversal reaches exists in the scene |
| ModelImport.PreOrderChildrenValid | engine/model.cpp:50-53 | every mesh the first i children's subtrees reach exists in the scene |
| ModelImport.AllImportedGrow | engine/model.cpp:136-150 | the cache only grows, so meshes already imported keep textures that are cache entries |
| ModelImport.AllImportedAppend | engine/model.cpp:44-53 | meshes imported for two traversal pieces, concatenated, are the import of the concatenated pieces |
| ModelImport.MeshDrawsAt | engine/model.cpp:26-32 | draw i of Model::render is mesh i's draw of its indices |
| ModelImport.MeshDrawsKeepState | engine/model.cpp:26-32 | drawing a model changes no pipeline state, and every draw sees the same unit-0 texture |
| ModelImport.Model.constructor | engine/model.cpp:10-24 | a missing or incomplete scene, or one without a root node, leaves the model empty; otherwise the directory is that of the path and the meshes are those of the node tree in pre-order, each with its scene mesh's vertex attributes or their defaults, its flattened faces and its material's textures |
| ModelImport.Model.Render | engine/model.cpp:26-32 | every mesh is drawn once, in list order |
| ModelImport.Model.RenderWith | engine/model.cpp:34-40 | every mesh, in list order, binds its textures under their sampler names and is drawn |
| ModelImport.Model.ProcessNode | engine/model.cpp:42-54 | the meshes so far are kept and followed by one mesh per scene mesh of the subtree, in pre-order |
| ModelImport.Model.ProcessNodeMesh | engine/model.cpp:46-47 | one imported mesh is appended and the earlier ones are kept |
| ModelImport.Model.ProcessNodeMeshes | engine/model.cpp:44-48 | one mesh per scene mesh the node lists, in order, is appended |
| ModelImport.Model.ProcessMesh | engine/model.cpp:56-127 | the engine mesh has one vertex per scene vertex, each with its position and its normal, texture coordinate, tangent and bitangent or their defaults; its faces' indices in order; and the textures its material lists through the cache |
| ModelImport.Model.LoadMaterialTextures | engine/model.cpp:113-124 | the five typed lists through the cache, concatenated in type order |
| ModelImport.Model.LoadTextures | engine/model.cpp:129-153 | each path of the type, in material order, through the cache |
| ModelImport.Model.FetchTexture | engine/model.cpp:134-150 | the first cached entry with the path on a hit; on a miss a texture loaded from directory/path, appended to the cache |
| ModelImport.Model.BuildVertices | engine/model.cpp:62-102 | one vertex per scene vertex: its position, and its normal, texture coordinate, tangent and bitangent when present, else the position, (0, 0), zero and zero |
| ModelImport.Model.BuildIndices | engine/model.cpp:104-111 | the faces' indices concatenated in face order |
| VoxelRenderer.VoxelData | engine/renderer.cpp:58 | the grid's initial data is 4 * res^3 floats, all zero, with res = 64 as engine/renderer.h declares it |
| VoxelRenderer.MeshesCallsSnoc | engine/renderer.cpp:180-195 | one more mesh appends exactly that mesh's uniforms and draw |
| VoxelRenderer.MeshCallsShaderOnly | engine/renderer.cpp:182-194 | a mesh's calls only set uniforms of the program in use and draw |
| VoxelRenderer.MeshesCallsShaderOnly | engine/renderer.cpp:178-196 | renderMeshes only sets uniforms of the program in use and draws |
| VoxelRenderer.MeshCallsDraws | engine/renderer.cpp:182-194 | each mesh is drawn exactly once, with its own vertex array and index count |
| VoxelRenderer.MeshesDraws | engine/renderer.cpp:178-196 | renderMeshes draws every mesh once, in list order |
| VoxelRenderer.MaterialSentIff | engine/renderer.cpp:189-192 | the material uniforms are sent iff the mesh has a material, and then right after the two matrices with the material's colour |
| VoxelRenderer.CameraProjection | engine/renderer.cpp:172-176 | the view-projection is perspective(fov, 16/9, 0.1, 100) times the camera's look-at view |
| VoxelRenderer.CameraUniformsOnly | engine/renderer.cpp:172-176 | setCameraUniforms only sets uniforms |
| VoxelRenderer.LightUniformsOnly | engine/renderer.cpp:80 | the point light's uniforms, sent here and at line 50, only set uniforms |
| VoxelRenderer.SamplerState | engine/renderer.cpp:139-141 | here and at line 77, binding a sampler makes its unit active and puts the texture on that unit's binding point for the target, and draws nothing |
| VoxelRenderer.ScenePassSetupState | engine/renderer.cpp:35-46 | whatever came before, the scene set-up binds the screen, the render program and the full-screen viewport, with colour writes, depth test, back-face culling and blending on, and leaves the texture units alone |
| VoxelRenderer.ScenePassSetupDraws | engine/renderer.cpp:35-46 | the scene set-up draws nothing |
| VoxelRenderer.CaptureState | engine/renderer.cpp:110-124 | a capture culls the given faces, binds the face buffer and sets the viewport to its size |
| VoxelRenderer.CaptureDraws | engine/renderer.cpp:110-124 | a capture's set-up draws nothing |
| VoxelRenderer.Renderer.constructor | engine/renderer.cpp:10-16 | multisampling on first; then the two init functions (lines 55-60 and 88-96): the four programs are the store's render, voxelize, world_position_output and visualize_voxels; a 64^3 grid of zeros; two distinct face buffers of SCREEN_HEIGHT by SCREEN_WIDTH; the cube model and a six-index quad |
| VoxelRenderer.InitVoxelization | engine/renderer.cpp:55-60 | the voxelize program from the store and a fresh 64^3 texture of zeros |
| VoxelRenderer.InitVoxelVisualization | engine/renderer.cpp:88-96 | the world-position and visualization programs from the store, two distinct face buffers of SCREEN_HEIGHT by SCREEN_WIDTH, the cube model and a six-index quad without material |
| VoxelRenderer.Renderer.VoxelizeTargetState | engine/renderer.cpp:67-75 | voxelize targets the screen framebuffer with the voxelize program and a res x res viewport, with colour writes, culling, depth test and blending off |
| VoxelRenderer.Renderer.VoxelizeSetupState | engine/renderer.cpp:64-78 | after the set-up no colour is written and culling, depth test and blending are off, the viewport is the grid and the voxel texture is on the GL_TEXTURE_3D binding of the active unit 0 |
| VoxelRenderer.Renderer.VoxelizeSetupDraws | engine/renderer.cpp:64-78 | the set-up draws nothing |
| VoxelRenderer.Renderer.VoxelizeMeshState | engine/renderer.cpp:80-82 | every call of the light and mesh segment, every draw among them, is issued in the state the set-up established |
| VoxelRenderer.Renderer.VoxelizeDraws | engine/renderer.cpp:62-86 | the voxelization pass draws every scene mesh once, in list order, and nothing else |
| VoxelRenderer.Renderer.VoxelizeFinish | engine/renderer.cpp:83-85 | the mipmaps are built for the texture on the active unit, which is the voxel texture, and colour writes are on again at the end |
| VoxelRenderer.Renderer.RenderMesh | engine/renderer.cpp:182-194 | world matrix, normal matrix, the material's uniforms when it has one, then the mesh's draw |
| VoxelRenderer.Renderer.RenderMeshes | engine/renderer.cpp:178-196 | the calls of every mesh, in list order |
| VoxelRenderer.Renderer.PrepareVoxelization | engine/renderer.cpp:64-78 | the grid is cleared to zeros and the set-up calls are issued |
| VoxelRenderer.Renderer.Voxelize | engine/renderer.cpp:62-86 | the grid is cleared to zeros; the trace is clear, set-up, light, meshes, mipmaps, colour mask |
| VoxelRenderer.Renderer.SceneMeshState | engine/renderer.cpp:49-52 | every call after the scene set-up is issued in the state the set-up established |
| VoxelRenderer.Renderer.SceneDraws | engine/renderer.cpp:33-53 | the scene pass draws every mesh once, in list order, and nothing else |
| VoxelRenderer.Renderer.SceneDrawState | engine/renderer.cpp:33-53 | every draw of the scene pass goes to the screen with the render program, the full viewport, colour writes, depth test, back-face culling and blending |
| VoxelRenderer.Renderer.SetCameraUniforms | engine/renderer.cpp:172-176 | the view-projection under the renderer's uniform name, then the eye position |
| VoxelRenderer.Renderer.SetUpScenePass | engine/renderer.cpp:35-46 | the scene set-up calls |
| VoxelRenderer.Renderer.RenderScene | engine/renderer.cpp:33-53 | set-up, camera uniforms, light uniforms, then the meshes |
| VoxelRenderer.Renderer.WorldPositionHeadState | engine/renderer.cpp:103-108 | the world-position head selects that program and turns culling and depth testing on |
| VoxelRenderer.Renderer.BackfacePassState | engine/renderer.cpp:103-118 | before the first cube draw: world-position program, back-face buffer and its viewport, front faces culled, depth test on |
| VoxelRenderer.Renderer.BackfacePassDraws | engine/renderer.cpp:103-118 | the back-face set-up draws nothing |
| VoxelRenderer.Renderer.CompositeHeadState | engine/renderer.cpp:128-134 | the composite head binds the screen and the visualization program, depth test off, culling on |
| VoxelRenderer.Renderer.CompositeSamplersState | engine/renderer.cpp:139-141 | units 0, 1 and 2 hold the back-face, front-face and voxel textures, unit 2 active |
| VoxelRenderer.Renderer.CompositePassState | engine/renderer.cpp:128-144 | whatever came before, the composite leaves the screen, the visualization program, the full viewport, depth test off and the three textures on units 0-2 |
| VoxelRenderer.Renderer.CompositePassDraws | engine/renderer.cpp:128-144 | the composite set-up draws nothing |
| VoxelRenderer.Renderer.VisualizeBackState | engine/renderer.cpp:119 | the back-face capture's draws are all issued in the state its set-up established |
| VoxelRenderer.Renderer.VisualizeFrontState | engine/renderer.cpp:121-125 | the front-face capture's draws are issued after the back-face pass and the capture's own set-up |
| VoxelRenderer.Renderer.VisualizeCompositeState | engine/renderer.cpp:143-145 | the last call is the quad's draw, issued in the state the composite set up |
| VoxelRenderer.Renderer.CapturesDraws | engine/renderer.cpp:103-125 | the two captures draw the cube once each |
| VoxelRenderer.Renderer.VisualizeDraws | engine/renderer.cpp:98-146 | the voxel view draws the cube twice and then the quad, and nothing else |
| VoxelRenderer.Renderer.VisualizeDrawState | engine/renderer.cpp:98-146 | the cube goes into the back-face buffer with front faces culled, then into the front-face buffer with back faces culled, both with depth test on; the quad goes to the screen without depth test, sampling both buffers and the voxel texture |
| VoxelRenderer.Renderer.CaptureBackfaces | engine/renderer.cpp:103-119 | world-position head, back-face capture, the last cube mesh's world matrix, the cube's draws |
| VoxelRenderer.Renderer.CaptureFrontfaces | engine/renderer.cpp:121-125 | front-face capture, then the cube's draws |
| VoxelRenderer.Renderer.CompositeVoxels | engine/renderer.cpp:128-145 | composite head, the three samplers, the screen clear, the quad's draw |
| VoxelRenderer.Renderer.RenderVoxelVisualization | engine/renderer.cpp:98-146 | the two captures, then the composite |
| VoxelRenderer.Renderer.Render | engine/renderer.cpp:18-31 | voxelize, then the voxel view in VOXEL mode and the shaded scene in DEFAULT mode |
| SphericalHarmonics.ScaledSum | engine/sh.h:17-33 | scaling a sum of coefficient sets equals summing the scaled sets |
| SphericalHarmonics.ScaledTwice | engine/sh.h:26-33 | scaling by s and then by t is scaling by s * t |
| SphericalHarmonics.SumZeros | engine/sh.h:17-24 | adding a set to the zero set gives the set |
| SphericalHarmonics.SH.constructor | engine/sh.h:10 | nine coefficients, each at the zero of its type |
| SphericalHarmonics.SH.Set | engine/sh.h:12-15 | writing entry idx replaces that entry and no other |
| SphericalHarmonics.SH.AddAssign | engine/sh.h:17-24 | every coefficient becomes the sum of its old value and the other set's, the other set possibly being the receiver; the receiver is returned |
| SphericalHarmonics.SH.ScaleAssign | engine/sh.h:26-33 | every coefficient is multiplied by the factor in place; the receiver is returned |
| SphericalHarmonics.SH.ScaledCopy | engine/sh.h:35-43 | a fresh set holding every coefficient times the factor; the receiver is unchanged |
| SHProjection.MapUVSToN | engine/sh.cpp:9-36 | the normalised direction of the face table; a face index of 6 or more gives the zero vector |
| SHProjection.FaceDirectionAxis | engine/sh.cpp:13-33 | face s has exactly +1 or -1 on its own axis (x, x, y, y, z, z with signs +, -, +, -, +, -), so the direction is never zero |
| SHProjection.FaceDirectionSelectsFace | engine/sh.cpp:13-33 | for texel coordinates strictly inside (-1, 1), the direction of face s selects face s under the cube-map selection rule |
| SHProjection.BasisBandZeroConstant | engine/sh.cpp:42-43 | band 0 is the constant 0.282095 for every direction |
| SHProjection.BasisParity | engine/sh.cpp:45-55 | reversing the direction negates band 1 and leaves bands 0 and 2 unchanged |
| SHProjection.BasisBandOneLinear | engine/sh.cpp:45-48 | band 1 is linear in the direction |
| SHProjection.LightingLinear | engine/sh.cpp:61-70 | the coefficients of a sum of radiances are the sum of their coefficients |
| SHProjection.LightingOfBlack | engine/sh.cpp:61-70 | black radiance gives zero coefficients |
| SHProjection.GenLightingCoefficientsForNormal | engine/sh.cpp:61-70 | the loop fills a fresh set with the radiance times each basis value |
| SHProjection.TexelIndexInBounds | engine/sh.cpp:93-95 | the three floats read for texel (x, y) lie inside the 3 * resolution^2 floats of the face image |
| SHProjection.TexelCoordInside | engine/sh.cpp:97-100 | texel centres map strictly inside (-1, 1) |
| SHProjection.SolidAngleWeight | engine/sh.cpp:102-103 | the solid-angle weight 4 / (sqrt(t) * t) is positive |
| SHProjection.ContributionsTabulate | engine/sh.cpp:93-106 | the table of texel contributions holds, for every texel, its weighted coefficients |
| SHProjection.WeightsTabulate | engine/sh.cpp:97-103 | the table of texel weights holds every texel's solid-angle weight, all positive |
| SHProjection.RowWeightGrows | engine/sh.cpp:91-107 | a non-empty row strictly raises the weight sum |
| SHProjection.FaceWeightGrows | engine/sh.cpp:89-109 | a non-empty face strictly raises the weight sum |
| SHProjection.CubeWeightPositive | engine/sh.cpp:86-110 | the weight sum is zero exactly when the resolution is zero, and positive otherwise |
| SHProjection.AccumulateTexel | engine/sh.cpp:93-107 | one texel adds its weighted coefficients to the result and its weight to the sum |
| SHProjection.AccumulateRow | engine/sh.cpp:91-108 | a row adds each of its texels once, in column order |
| SHProjection.AccumulateFace | engine/sh.cpp:89-109 | a face adds each of its rows once, in row order |
| SHProjection.AccumulateCube | engine/sh.cpp:86-110 | starting from zero, the six faces are walked in order and the sums are those of all texels |
| SHProjection.GenLightingCoefficients | engine/sh.cpp:72-115 | the result is the normalised projection; with resolution 0 the weight sum is zero, the division is reported as degenerate and the coefficients stay zero |
| SHProjection.ResetToZero | engine/sh.cpp:74-78 | every coefficient is set to the zero vector |
| SHProjection.EmptyWalk | engine/sh.cpp:86-110 | with resolution 0 the walk adds nothing |
| SHProjection.BlackProjection | engine/sh.cpp:72-115 | an all-black environment projects to zero coefficients |
| SHProjection.BlackTexel | engine/sh.cpp:93-106 | a black texel contributes zero |
| SHProjection.BlackCube | engine/sh.cpp:86-110 | when every texel contributes zero, so does the whole walk |
| SHProjection.BlackFace | engine/sh.cpp:89-109 | when every texel contributes zero, so does a face |
| SHProjection.BlackRow | engine/sh.cpp:91-108 | when every texel contributes zero, so does a row |
| VoxelScene.PaintCornell | engine/voxel_cone_tracing_scene.cpp:12-18 | Cornell meshes 0 .. 6 each get a fresh material of their own, red, white, white, blue, white, white, white |
| VoxelScene.DressLightSphere | engine/voxel_cone_tracing_scene.cpp:21-26 | the light sphere's last mesh is scaled to 0.05 and gets a fresh white, half-emissive material that reflects nothing |
| VoxelScene.DressSuzanne | engine/voxel_cone_tracing_scene.cpp:34-42 | Suzanne's first mesh gets its translation, 45-degree rotation, 0.25 scale and a fresh pale-blue material with reflectivity 0.8 and aperture 0.21 |
| VoxelScene.DressBuddha | engine/voxel_cone_tracing_scene.cpp:46-52 | the Buddha's first mesh gets its translation, 135-degree rotation, 1.3 scale and a fresh green material |
| VoxelScene.DressScene | engine/voxel_cone_tracing_scene.cpp:12-53 | Cornell meshes 0 .. 6 carry their colours; the light sphere, Suzanne and the Buddha are each dressed exactly as the three rows above state (placement, rotation, scale, material colours, Suzanne's reflectivity and aperture, the sphere's emissivity and zero reflectivities); a fresh point light sits at the light sphere's position in its diffuse colour |
| VoxelScene.VoxelConeTracingScene.constructor | engine/voxel_cone_tracing_scene.cpp:5-56 | the mesh list is the Cornell meshes, the light sphere's last mesh, Suzanne's and the Buddha's first; the Cornell meshes carry their colours, and the three meshes after them are dressed as the light sphere, Suzanne and the Buddha; the light follows the sphere in its colour; the camera starts at its default pose |
| VoxelScene.MeshReleaseCount | engine/voxel_cone_tracing_scene.cpp:64-70 | deleting the mesh list releases each mesh exactly as often as the list holds it, each with the material the mesh destructor deletes |
| VoxelScene.MeshReleaseKinds | engine/voxel_cone_tracing_scene.cpp:64-70 | deleting the mesh list releases only meshes and the materials the mesh destructor deletes |
| VoxelScene.VoxelConeTracingScene.ReleaseMesh | engine/mesh.cpp:79-86 | deleting one mesh releases the mesh and then its material when it has one |
| VoxelScene.VoxelConeTracingScene.ReleaseMeshes | engine/voxel_cone_tracing_scene.cpp:64-70 | the loop releases every listed mesh, in list order, each followed by its material |
| VoxelScene.VoxelConeTracingScene.Release | engine/voxel_cone_tracing_scene.cpp:58-79 | the destructor releases the camera, the meshes, the point light and the light-sphere model in that order, skipping null pointers |
| VoxelScene.SceneReleaseCount | engine/voxel_cone_tracing_scene.cpp:58-79 | the destructor releases each mesh as often as the list holds it, never through the camera, the light or the model |
| VoxelScene.ReleaseOnce | engine/voxel_cone_tracing_scene.cpp:58-79 | with the list free of repeats, every mesh is released exactly once, so the light-sphere mesh that line 27 shares with its model is not deleted twice |
| VoxelScene.WrappersKept | engine/voxel_cone_tracing_scene.cpp:58-79 | the Cornell, Suzanne and Buddha models, allocated at lines 7, 33 and 45, are never released by the destructor |
| ConeTracingApp.FramebufferSizeCallback | engine/voxel_cone_tracing.cpp:15-18 | a resize issues exactly one viewport of the new size and creates no object |
| ConeTracingApp.CursorOffsets | engine/voxel_cone_tracing.cpp:22-30 | the first event after calibration gives a zero offset; later ones give the x step and the reversed y step |
| ConeTracingApp.Cursor.constructor | engine/voxel_cone_tracing.cpp:8-11 | the cursor starts uncalibrated at the centre of the screen |
| ConeTracingApp.Cursor.CursorPosCallback | engine/voxel_cone_tracing.cpp:20-39 | the event stores the position, calibrates the cursor and turns the scene camera by the offsets when there is one |
| ConeTracingApp.OffsetsTelescope | engine/voxel_cone_tracing.cpp:22-33 | the offsets of two events add up to the movement between the first reference point and the last position |
| ConeTracingApp.ScrollCallback | engine/voxel_cone_tracing.cpp:41-47 | a scroll zooms the scene camera by the vertical offset when there is one |
| ConeTracingApp.SelectedMode | engine/voxel_cone_tracing.cpp:173-189 | the mode is VOXEL exactly when 2 is held, or E without 1, or it was VOXEL and none of Q, 1 is held; with no mode key held it is unchanged |
| ConeTracingApp.SelectedModeIdempotent | engine/voxel_cone_tracing.cpp:173-189 | applying the same keys twice chooses the same mode as once |
| ConeTracingApp.NoMovePresses | engine/voxel_cone_tracing.cpp:127-142 | without W, A, S or D held the camera receives no key press |
| ConeTracingApp.VoxelConeTracing.constructor | engine/voxel_cone_tracing.cpp:51-88 | the application keeps the scene, renderer and utilities it set up and starts in the default mode with the window open |
| ConeTracingApp.VoxelConeTracing.CloseOnEscape | engine/voxel_cone_tracing.cpp:122-125 | Escape asks the window to close; nothing else changes the close flag |
| ConeTracingApp.VoxelConeTracing.MoveSceneCamera | engine/voxel_cone_tracing.cpp:127-142 | the camera moves by the held W, S, A, D presses in that order, each scaled by the frame time |
| ConeTracingApp.MoveSphere | engine/voxel_cone_tracing.cpp:146-169 | the light sphere moves along y for I/K, x for J/L and z for Y/H, each by MOVEMENT_SPEED times the frame time |
| ConeTracingApp.VoxelConeTracing.FollowLightSphere | engine/voxel_cone_tracing.cpp:144-171 | with a light sphere, its last mesh moves by the held keys and the point light takes its new position; without one nothing moves |
| ConeTracingApp.VoxelConeTracing.MoveCameraAndLight | engine/voxel_cone_tracing.cpp:127-171 | the camera moves by its keys, then the light sphere and the light by theirs |
| ConeTracingApp.VoxelConeTracing.SelectRenderMode | engine/voxel_cone_tracing.cpp:173-189 | the new render mode is the one the held keys select from the old |
| ConeTracingApp.VoxelConeTracing.ProcessInput | engine/voxel_cone_tracing.cpp:120-190 | Escape closes, the camera and light sphere move by their keys, the light follows the sphere, and the mode is the one the keys select |
| ConeTracingApp.VoxelConeTracing.Update | engine/voxel_cone_tracing.cpp:95-102 | the projection follows the camera's field of view, the view is the camera's view before the input, the frame time is the clock step, then the input is applied |
| ConeTracingApp.VoxelConeTracing.Step | engine/voxel_cone_tracing.cpp:95-104 | one pass updates the frame and input, then renders in the chosen mode |
| ConeTracingApp.RenderedFrames | engine/voxel_cone_tracing.cpp:93-108 | the loop renders every frame up to and including the first one with Escape held, and none once the window is closed |
| ConeTracingApp.VoxelConeTracing.Run | engine/voxel_cone_tracing.cpp:90-111 | run renders exactly that many frames, ends with the close flag set when it stops early, in the mode the rendered frames chose, with the last rendered frame's time |

## Left out

- Window and context set-up, and GLFW polling. Keys reach the model as the set held in a frame (`Keys.Key`, `ConeTracingApp.FrameInput`) and the clock as a timestamp parameter, because they are I/O.
- The other demo mains (variance shadow maps, volumetric lighting, screen-space reflections, tiled deferred shading, percentage-closer soft shadows, skin and hair rendering). They are pass glue like the modelled ones, and some use `rand`.
- The mouse calibration of the demos' own cursor and scroll callbacks (cascaded_shadow_mapping/main.cpp:137-163, image_based_lighting/main.cpp:458-484), because it is window plumbing. The voxel cone tracer's callbacks are modelled.
- Shader file reading, compiling and linking (engine/shader.cpp). A program is an opaque name from `Gl.Context.CreateProgram`.
- Texture image uploads and texture and sampler parameters. The renderbuffer bind at engine/renderer.cpp:129 and the image-unit format arguments of glBindImageTexture are also left out. Only calls that change the modelled pipeline state appear in traces.
- Clear colours and the blend function (engine/renderer.cpp:39, 47, 106), because the pipeline state record holds no colour values.
- Destructors that only free GPU objects: `Mesh` vertex arrays, `Texture3D`, `Framebuffer`, `Renderer`, and the `VoxelConeTracing` destructor (engine/voxel_cone_tracing.cpp:113-118). `VoxelScene` models the scene destructor, because it decides ownership.
- Image writes, `loadTexture` and `loadHDRTexture`, because they are file I/O through an image library.
- `Utils::renderQuad` and `Utils::renderCube` (engine/utils.cpp:54-92, 187-257). They are vertex uploads with no indexing logic; the demos that call them are outside the model.
- Of image_based_lighting/main.cpp: `generateCubemapTexture`, `integrateBRDF`, the framebuffer helpers and `main`'s one-off pass set-up. They are texture allocation and single-draw glue. The capture, prefilter, skybox, sphere, cube and input code is modelled.
- `ShadowCommon::renderDebugLines` (engine/shadow_common.cpp:133-212). It is a debug overlay that uploads line vertices.
- The indexed `PointLight::setUniforms(shader, index)` and `DirectLight::setUniforms` (engine/light.cpp:15-30), because nothing in the modelled core calls them.
- The `Importer::ReadFile` call itself. Its scene tree, meshes, faces and materials are the model's input (`ModelImport.AiScene`), including its incomplete flag and missing root.
- Multisample anti-aliasing as rendering. Only the enable flag is part of the state.
- The sampler prefixes `G_DIFFUSE_MAP` to `G_OPACITY_MAP` are used at engine/mesh.cpp:56-68, and the uniform names `G_VP` and `G_TEXTURE_3D` at engine/renderer.cpp:174 and 77. None of them is among the definitions in engine/strings.h, and their definitions are not part of this model. `MeshRender.Prefixes` is therefore a parameter, constrained only by the well-formedness predicate the distinctness lemma needs. The renderer's `vpName` and `texture3DName` are constructor parameters.
- glm numerics: look-at, perspective and orthographic matrices, the inverse, matrix times vector, `sqrt`, `normalize`, trigonometry. They are uninterpreted, so no claim is made about rounding or about the values they produce. This also rules out the spatial-extent comparison between cascades and the uniform-environment result of spherical-harmonic projection (only coefficient 0 non-zero), because both depend on those values.
- SHProjection.GenLightingCoefficients: with resolution 0 the weight sum is 0 and the source divides by zero. The model reports this as a `degenerate` flag and computes no quotient.
- SHProjection.GenLightingCoefficients: a negative resolution (an `int` compared with `size_t` loop counters) is not modelled; the resolution is a `nat`.
- ModelImport.Model.constructor requires well-formed importer output: attribute arrays as long as the vertex list, and mesh and material indices in range. Assimp guarantees this for a scene it returns, and the source indexes without checks.
- SHProjection.GenLightingCoefficients requires the texture read to return six faces of 3 * resolution^2 floats each, the size of the buffer the source allocates. It also requires the uninterpreted `sqrt` to be positive on positive arguments, the one property of it the weight lemmas use.
- CascadedShadows.TightBox requires the corner coordinates to be within the float range [-FLT_MAX, FLT_MAX], because nothing outside it can be stored in a float.
- The renderer and application methods require the scene's camera and point light to be non-null, because the source dereferences them without a check. The mouse callbacks, which do check, are modelled with their null guards.
- `delete img` on an array allocated with `new[]` (engine/sh.cpp:111), because it is memory misuse outside a value model.
- SphericalHarmonics.SH.constructor: it starts every coefficient at the arithmetic's zero. For `SH9` the source leaves the floats indeterminate, and `genLightingCoefficients` zeroes them explicitly before use.
- VoxelRenderer.Renderer.RenderVoxelVisualization requires the cube model to have at least one mesh, because `_meshes.back()` on an empty list is undefined behaviour. ConeTracingApp.VoxelConeTracing.Step and Run carry the same requirement, and a similar one for the light sphere's last mesh.
- VoxelScene.VoxelConeTracingScene.constructor requires at least seven Cornell meshes, because the source indexes meshes 0 to 6 without a check.
- VoxelScene.VoxelConeTracingScene.constructor also requires the light sphere, Suzanne and Buddha models to have a mesh each, because the source reads `_meshes.back()` and `_meshes[0]` of them unchecked.
- VoxelScene.VoxelConeTracingScene.constructor requires the scene's meshes to be distinct objects, as the meshes of freshly imported models are. Otherwise one material assignment could overwrite another, and the model does not describe that aliasing.
- ConeTracingApp.VoxelConeTracing.Step: its contract states the close flag, the render mode and the timestamp, not the render trace. The trace is stated by `VoxelRenderer.Renderer.Render`, which Step calls.
- The segment count of the two lazily built spheres is a constant field equal to `NUM_SEGMENTS` (`EngineUtils.Utils.segments`, `ImageBasedLighting.Demo.segments`), rather than a local of the render function. Its value is the same.
- Cursor offsets are `real`. The source's double-to-float conversion of cursor positions is not modelled.

## Findings

| source | as written | input that shows it | evidently intended | confidence | as-written member | corrected member |
|---|---|---|---|---|---|---|
| cascaded_shadow_mapping/main.cpp:274-278 | the max accumulators `_r`, `_t`, `_f` start at `numeric_limits<float>::min()`, the smallest positive float | a cascade whose eight light-space corners all have negative x: the right bound stays at FLT_MIN, above every corner | start the max accumulators at the lowest float (`numeric_limits<float>::lowest()`, i.e. -FLT_MAX), so each bound touches a corner | not executed | CascadedShadows.AsWrittenBoxLoose | CascadedShadows.TightBox |
| cascaded_shadow_mapping/main.cpp:280 | the corner loop `for (size_t j = 0; j < NUM_FRUSTUM_CORNERS; ++i)` increments the cascade index `i` instead of `j` | any call of calcOrthoProjs: `j` stays 0, so the guard `j < 8` always holds and corner 0 is folded forever | increment `j`, so each of the eight corners is folded once | not executed | CascadedShadows.AsWrittenCornerLoopNeverExits | CascadedShadows.FitCascade |
