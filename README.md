# webgl-raytracer frame controller, modelled in Dafny

This project models the host side of the WebGL 2 path tracer in `src/index.js`.
The shading happens on the GPU. The JavaScript decides, frame by frame:

- whether temporal anti-aliasing (TAA) blends the new frame into the running average or restarts it;
- which framebuffer is written and which history texture is read;
- which sub-pixel jitter from the Halton table is applied;
- whether the frame is presented and whether the next one waits for vsync;
- when the next frame may start, through a ring of five GPU fences.

It also keeps the scene (planes, lights, spheres) and the rendering settings.
Each change through the updaters and input handlers is uploaded again and raises `resetTAA`, so the average restarts.
The exception is `updateSpherePosition`, which moves sphere 0 and raises nothing. Its only call, in `render`, is commented out (`src/index.js:169`).

Modules, one per concern; each file holds one module:

- `Halton` (`halton.dfy`): `CreateHaltonSequence` and the 36-entry jitter table.
  The radical inverse is defined independently as a fraction, Num / Den. Num is the digits of the index reversed; Den is the base raised to their count.
  The do-while loop is a method proved equal to that fraction.
- `Settings` (`settings.dfy`): the shadow-sample grid (integer square root) and the uniforms `updateRenderingSettings` uploads.
- `Scene` (`scene.dfy`): planes, lights and spheres; the enabled-only compaction; light uniforms; the sphere-0 bounce. The `World` class holds `WorldState` and is updated in place.
- `FenceSync` (`fence_sync.dfy`): `syncFrame` as a pure step `Poll` on a ring value. The class `FenceRing` updates `syncs` and `sync_i` in place.
- `Accumulator` (`accumulator.dfy`): one call of `render` as a pure function `RenderStep` on the variables it reads and writes, plus lemmas over many frames and the key handler.
- `Renderer` (`renderer.dfy`): the module-level variables as fields of one class.
  `Render` is proved against `RenderStep` and `Poll`. The updaters and input handlers change the fields, the world and the ring.

Inputs the program reads from its environment are parameters:

- the frame rate held by the FPS meter (`fps`);
- what `gl.getSyncParameter` reports (`signalled`);
- the fence `gl.fenceSync` creates (`fence`);
- the sphere animation's `delta`;
- whether the pointer is locked on the canvas;
- slider and checkbox values.

GL uploads are returned as values.

## Model

| member | source | states |
|---|---|---|
| Halton.Num | src/index.js:10-21 | the reversed-digit numerator is below the denominator, and positive for a positive index |
| Halton.RadicalInverse | src/index.js:10-21 | the radical inverse lies in [0, 1), and is positive for every index >= 1 |
| Halton.LoopStep | src/index.js:15-19 | one pass of the do-while loop keeps f = 1/p and r = a/p, where a/p is the fraction of the digits consumed so far |
| Halton.CreateHaltonSequence | src/index.js:10-21 | the loop returns exactly the radical inverse of `index` in base `base`, so the result is in [0, 1) |
| Halton.BuildHaltonTable | src/index.js:22-24 | the table has 36 entries; entry i is (H(i+1, 2), H(i+1, 3)) and every coordinate is in [0, 1) |
| Halton.DigitsRepresent | src/index.js:17-18 | the digits produced by `% base` and `floor(/ base)` spell out the index in base `base` |
| Halton.RadicalInverseIsDigitReversal | src/index.js:10-21 | the result is the base-b digit string of the index, reversed, over base^(number of digits) |
| Halton.RadicalInverseStep | src/index.js:16-18 | the radical inverse of n is its lowest digit plus the radical inverse of floor(n / b), shifted one place behind the point |
| Halton.RadicalInverseInjective | src/index.js:10-21 | different indices never share a radical inverse |
| Halton.HaltonTableDistinct | src/index.js:22-24 | the 36 jitter entries of one cycle have pairwise different x coordinates |
| Settings.FloorSqrt | src/index.js:416 | shadowDim = floor(sqrt(n)) satisfies dim^2 <= n < (dim+1)^2 |
| Settings.FloorSqrtUnique | src/index.js:416 | only one k satisfies k^2 <= n < (k+1)^2, so the bound pins shadowDim down |
| Settings.FloorSqrtOfSquare | src/index.js:573 | for the stored v * v the grid side is v again |
| Settings.ShadowGrid | src/index.js:416-418 | the uploaded sample count is shadowDim squared, at most the request, and the next square exceeds the request |
| Settings.ShadowGridLargestSquare | src/index.js:416-418 | no larger perfect square fits below the requested sample count |
| Settings.Reciprocal | src/index.js:420 | for n > 0 the value times n is 1; for n = 0 it is the division by zero (None) |
| Settings.Uniforms | src/index.js:410-421 | ambient 0.01, flags passed through, the square shadow grid, the indirect count and its reciprocal, the bounce count |
| Scene.Filter | src/index.js:314-319 | the compacted list is no longer than the original, and every entry in it passes the test |
| Scene.KeptIndices | src/index.js:314-319 | the kept positions are increasing, in range and pass the test; every passing position is among them |
| Scene.FilterIsKeptEntriesInOrder | src/index.js:314-319 | slot k of the compacted list is entry KeptIndices[k]: exactly the enabled entries, in order |
| Scene.FilterKeepsAll | src/index.js:656-658 | when every entry is enabled, compaction returns the list unchanged |
| Scene.CompactPlanes | src/index.js:315-318 | the push loop of updatePlanes computes exactly Filter(planes, enabled) |
| Scene.LightUniforms | src/index.js:372-387 | one uniform per enabled light, in order, with emission r*brightness etc.; size (0, 0) when area lights are off |
| Scene.SphereStep | src/index.js:358-367 | past +3 the sphere restarts at 3 moving down, past -3 at -3 moving up; in between the direction is kept, stays +-1, and x stays within 3 + delta |
| Scene.World.SetLightEnabled | src/index.js:592 | only the enabled flag of light i changes |
| Scene.World.SetPlaneEnabled | src/index.js:640 | only the enabled flag of plane i changes |
| Scene.World.EnableAllPlanes | src/index.js:656-658 | every plane is enabled and nothing else about it changes |
| Scene.World.MoveFirstSphere | src/index.js:368 | only sphere 0's x changes |
| FenceSync.NextSlot | src/index.js:119 | the next index is always a slot of the ring |
| FenceSync.Poll | src/index.js:118-133 | a frame starts iff the next slot is empty or signalled; then the index advances mod 5, only that slot changes and holds the new fence, and the schedule matches vsync; a retry changes nothing |
| FenceSync.StartAll | src/index.js:118-127 | a run of successful syncFrame calls (Poll with the slot free), after which the ring is still a valid ring |
| FenceSync.StartAllFillsSlots | src/index.js:115-127 | after up to five starts the index has moved on by their number, and each slot holds the fence of the start that reached it or, if none did, its old content; a fence is overwritten only by the fifth start after it |
| FenceSync.Settle | src/index.js:118-133 | the chain of syncFrame attempts ending a frame: the result is none, the first call's schedule or a retry's; the first call's schedule, when it differs from a retry's, means the first attempt found its slot free; an empty slot lets the first attempt through |
| FenceSync.SettleAsWritten | src/index.js:118-133 | the chain as written, retries without vsync: a vsynced start happens only if vsync was asked and the first attempt found its slot free |
| FenceSync.FullRingReachable | src/index.js:115-127 | five starts from the empty initial ring fill every slot and bring the index back to 0 |
| FenceSync.SettleAsWrittenDropsVsync | src/index.js:132 | on the full ring reached after five starts, a frame that asked for vsync and stalled once is started through a promise (no vsync) |
| FenceSync.SettleCorrectedKeepsVsync | src/index.js:118-132 | with vsync passed along on retry, a frame is scheduled exactly as asked, and it starts iff the slot is empty or some status reports signalled |
| FenceSync.FenceRing.constructor | src/index.js:115-116 | the ring starts with five empty slots and index 0 |
| FenceSync.FenceRing.SyncFrame | src/index.js:118-133 | the in-place update of syncs and sync_i is exactly Poll on the old ring |
| FenceSync.FenceRing.SyncUntilStarted | src/index.js:118-133 | the retry chain, with vsync passed on, schedules as SettleCorrected says; the ring is unchanged until the start, then holds the new fence in the next slot |
| Accumulator.PresentPeriod | src/index.js:199 | the period max(1, floor(fps/30)) is >= 1, is 1 below 60 fps, and is the whole number of 30-frame steps in fps |
| Accumulator.JitterOffset | src/index.js:269-270 | h*2-1 maps each Halton coordinate in [0, 1) into [-1, 1), invertibly |
| Accumulator.NextJitter | src/index.js:156-161 | incrementing and wrapping at 36 is the step (j + 1) mod 36 |
| Accumulator.RenderStep | src/index.js:137-228 | frameNumberTAA stays >= 1 and jitterSampleIdx stays below 36 |
| Accumulator.RenderStepSpec | src/index.js:142-214 | the reset rule, the jitter walk, one flip of usingA per TAA frame, target and history always opposite, blend factor 1/frame (1 right after a reset), vsync iff not accumulating, presentation on the period |
| Accumulator.Frames | src/index.js:137-228 | any number of frames keeps the frame counter >= 1 and the jitter index in range |
| Accumulator.SteadyAccumulation | src/index.js:148-214 | n undisturbed TAA frames all accumulate, alternate the target, grow the average by one each, and use jitter entry (j + n) mod 36 |
| Accumulator.ResetThenAccumulate | src/index.js:148-153 | after a reset the k-th frame blends with weight 1/(k+1) and runs TAA iff k > 0: the running mean |
| Accumulator.HistoryIsPreviousTarget | src/index.js:177-183 | in consecutive TAA frames the history read is the texture the previous frame wrote |
| Accumulator.PressKey | src/index.js:511-526 | KeyW/A/S/D set their flag to the event's state; any other code changes nothing |
| Accumulator.PressThenRelease | src/index.js:546-547 | keydown then keyup of a key leaves it released |
| Accumulator.ReleaseAllStops | src/index.js:142 | with all movement keys released and no rotation pending the camera is not moving |
| Renderer.Renderer.constructor | src/index.js:29-43 | the initial values of the variables, an empty fence ring and the Halton table |
| Renderer.Renderer.Start | src/index.js:451-455 | after start-up, resetTAA is set, frameNumberTAA is 1 and the uploads are the compacted scene and the settings' uniforms |
| Renderer.Renderer.Render | src/index.js:137-228 | the new variables and the frame report are RenderStep of the old ones, the jitter is that of the current table entry, and the ring moves as Poll says |
| Renderer.Renderer.StartFrame | src/index.js:142-153 | camera motion raises and a TAA reset consumes resetTAA; runTAA and frameNumberTAA as the reset rule says |
| Renderer.Renderer.AdvanceJitter | src/index.js:155-161 | a TAA frame uses entry j and moves to (j + 1) mod 36; other frames go back to 0 |
| Renderer.Renderer.DrawScene | src/index.js:171-212 | with TAA on, the current framebuffer is drawn with the other's texture as history, the blend factor is 1/frameNumberTAA, and usingA flips |
| Renderer.Renderer.UpdateCamera | src/index.js:276-312 | the camera change raises resetTAA |
| Renderer.Renderer.UpdatePlanes | src/index.js:314-335 | uploads the enabled planes in order and raises resetTAA |
| Renderer.Renderer.UpdateSpheres | src/index.js:337-356 | uploads every sphere and raises resetTAA |
| Renderer.Renderer.UpdateLights | src/index.js:372-390 | uploads the enabled lights' uniforms and raises resetTAA |
| Renderer.Renderer.UpdateRenderingSettings | src/index.js:410-424 | uploads the uniforms of the current settings and raises resetTAA |
| Renderer.Renderer.UpdateSpherePosition | src/index.js:358-370 | (xmove, moveinv) make the SphereStep, and sphere 0 of the world moves to the new xmove |
| Renderer.Renderer.ResizeCanvas | src/index.js:426-449 | resetTAA is raised and frameNumberTAA is 1 |
| Renderer.Renderer.HandleKeys | src/index.js:511-526 | the key flags become PressKey of the old ones |
| Renderer.Renderer.MouseMove | src/index.js:539-545 | a move with the pointer locked on the canvas requests a camera rotation |
| Renderer.Renderer.SetEnableTAA | src/index.js:554-557 | TAA is switched and the textures are cleared: reset pending, frame counter 1 |
| Renderer.Renderer.SetEnableGI | src/index.js:558-561 | the flag is stored and uploaded, and the average restarts; the whole upload is Uniforms of the settings after the change |
| Renderer.Renderer.SetEnableRefGI | src/index.js:562-565 | the flag is stored and uploaded, and the average restarts; the whole upload is Uniforms of the settings after the change |
| Renderer.Renderer.SetIndirectSamples | src/index.js:567-571 | the count and its reciprocal are uploaded, and the average restarts; the whole upload is Uniforms of the settings after the change |
| Renderer.Renderer.SetDirectSamples | src/index.js:572-575 | the slider value v gives shadowSamples = v*v, and the uploaded grid side is v with v*v samples; the whole upload is Uniforms of the settings after the change |
| Renderer.Renderer.SetReflectionBounces | src/index.js:576-579 | the bounce count is stored and uploaded, and the average restarts; the whole upload is Uniforms of the settings after the change |
| Renderer.Renderer.SetFov | src/index.js:580-583 | a field-of-view change restarts the average |
| Renderer.Renderer.SetAreaLights | src/index.js:586-589 | the light uniforms are recomputed with the new area-light setting |
| Renderer.Renderer.SetLightEnabled | src/index.js:590-595 | only light i's flag changes, and the enabled lights are uploaded again |
| Renderer.Renderer.SetPlaneEnabled | src/index.js:638-643 | only plane i's flag changes, and the enabled planes are uploaded again |
| Renderer.Renderer.SetPlaneBacksides | src/index.js:644-647 | the flag is stored and uploaded, and the average restarts; the whole upload is Uniforms of the settings after the change |
| Renderer.Renderer.SetMirrorWorld | src/index.js:650-672 | checked or not: every plane is enabled and uploaded, backsides and reflection GI are off, five bounces, mirrors follow the box; the whole upload is Uniforms of the settings after the change |

## Left out

- The vertex and fragment shaders are not part of this model. They are imported but not shown. The model therefore covers ray tracing and lighting only through the uniforms, and the GPU blend only through its factor 1/frameNumberTAA.
- Renderer.Renderer.UpdateCamera: the camera matrices and key-driven movement (trigonometry through gl-matrix, floating point) are not modelled; only the raising of resetTAA is.
- updateLightRotation (`src/index.js:392-408`) is not modelled. It is floating-point rotation, and its calls in render are commented out.
- Every WebGL call (uploads, framebuffer and texture set-up, blits, texImage2D) is left out. Uploads are returned as values; draws are the `Draw` value of a frame.
- Time is left out. `performance.now`, deltaTime and the FPS meter's update of `fps` are not modelled; `fps` and `delta` are inputs.
- Scheduling is left out: requestAnimationFrame, Promise.resolve and setTimeout. A frame start is the `Schedule` value; a stall is `Retry` (one attempt) or `Settle` (a chain of attempts).
- `Math.random()` for the per-frame noise seed is not modelled; it only feeds the shader.
- The DOM and UI are not modelled: HTML generation for the controls, the UI toggle, the increased-limits box, pointer-lock requests on mouse down, and slider labels.
- The light brightness, spot size, spot intensity, colour and size sliders are not modelled (`src/index.js:596-635`). Each sets one field of a light and calls updateLights, which is modelled. Brightness also goes through `Math.pow(10, v)`.
- The unused `present()` function (`src/index.js:230-236`) is not modelled.
- Accumulator.JitterOffset: the scaling by 1 / canvas width and height (the canvas size is not modelled) and the jitter matrix are not modelled.
- JavaScript numbers are modelled as exact reals. Slider values, which arrive as strings, are modelled as natural numbers.
- raytracer.js, webgl-utils.js, src/webgl-utils.js and webpack.config.js are not part of this model. The scene is read from `./world-state.json` (`src/index.js:5`), which is not part of this model. world-state.js is an older version of that scene, without the plane and sphere roughness and specular colour or the light spot fields. The Plane, Light and Sphere fields are taken from what `src/index.js:322-331`, `src/index.js:341-352` and `src/index.js:376-386` upload.

## Findings

| source | as written | input that shows it | evidently intended | confidence | as-written member | corrected member |
|---|---|---|---|---|---|---|
| src/index.js:132 | `setTimeout(syncFrame, 0)` calls syncFrame again with no argument, so every retry treats vsync as false and starts the frame through a promise | the ring after five starts from the empty ring (every slot full, index 0), `syncFrame(true)`, first status unsignalled, then signalled | the retry passes on the vsync request it was given | not executed | FenceSync.SettleAsWritten (FenceSync.SettleAsWrittenDropsVsync) | FenceSync.SettleCorrected (FenceSync.SettleCorrectedKeepsVsync; run by FenceSync.FenceRing.SyncUntilStarted) |
