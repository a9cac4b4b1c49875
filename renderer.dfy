/**
  The frame controller: the module-level variables of the application as
  the fields of one object, the render loop body, the scene and settings
  updaters and the input handlers that change them. Every updater raises
  resetTAA, so the next frame restarts the temporal average. GL uploads are
  returned as values.
*/
module Renderer {
  import opened Wrappers
  import opened Halton
  import opened Settings
  import opened Scene
  import opened FenceSync
  import opened Accumulator

  class Renderer {
    var usingA: bool
    var enableTAA: bool
    var resetTAA: bool
    var rotatingCamera: bool
    var keyDownW: bool
    var keyDownA: bool
    var keyDownS: bool
    var keyDownD: bool
    var frameNumberTAA: nat
    var jitterSampleIdx: nat

    var enableGI: bool
    var enableRefGI: bool
    var indirectSamples: nat
    var reflectionBounces: nat
    var enableAreaLights: bool
    var shadowSamples: nat
    var enablePlaneBacksides: bool
    var enablePlaneMirrors: bool

    // the sphere-0 animation
    var xmove: real
    var moveinv: real

    /** The scene description, shared with the UI handlers. */
    const world: World
    /** The fence ring of syncFrame. */
    const ring: FenceRing
    /** haltonSequence, built once at start-up. */
    const halton: seq<(real, real)>

    ghost predicate Valid()
      reads this, ring
    {
      && Invariant(State())
      && (moveinv == 1.0 || moveinv == -1.0)
      && IsHaltonTable(halton)
      && ring.Valid()
    }

    /** The part of the state render works on. */
    function State(): FrameState
      reads this
    {
      FrameState(usingA, enableTAA, resetTAA, rotatingCamera, KeyState(), frameNumberTAA, jitterSampleIdx)
    }

    function KeyState(): Keys
      reads this
    {
      Keys(keyDownW, keyDownA, keyDownS, keyDownD)
    }

    /** Start-up: the initial values of the variables, the Halton table and an
        empty fence ring. */
    constructor (world: World)
      ensures Valid() && this.world == world && fresh(ring)
      ensures usingA && enableTAA && !resetTAA && !rotatingCamera
      ensures !keyDownW && !keyDownA && !keyDownS && !keyDownD
      ensures frameNumberTAA == 1 && jitterSampleIdx == 0
      ensures enableGI && enableRefGI && indirectSamples == 10 && reflectionBounces == 1
      ensures enableAreaLights && shadowSamples == 4 && enablePlaneBacksides && !enablePlaneMirrors
      ensures xmove == 0.0 && moveinv == 1.0
      ensures ring.syncs == [None, None, None, None, None] && ring.syncIndex == 0
    {
      this.world := world;
      var table := BuildHaltonTable();
      halton := table;
      ring := new FenceRing();
      usingA := true;
      enableTAA := true;
      resetTAA := false;
      rotatingCamera := false;
      keyDownW, keyDownA, keyDownS, keyDownD := false, false, false, false;
      frameNumberTAA := 1;
      jitterSampleIdx := 0;
      enableGI := true;
      enableRefGI := true;
      indirectSamples := 10;
      reflectionBounces := 1;
      enableAreaLights := true;
      shadowSamples := 4;
      enablePlaneBacksides := true;
      enablePlaneMirrors := false;
      xmove := 0.0;
      moveinv := 1.0;
    }

    /** The start-up sequence run once after the variables are initialised:
        resizeCanvas, then every updater uploads the scene and the settings.
        The first render call follows. */
    method Start() returns (renderPlanes: seq<Plane>, spheres: seq<Sphere>,
                            lights: seq<LightUniform>, uniforms: RenderingUniforms)
      requires Valid()
      modifies this`resetTAA, this`frameNumberTAA
      ensures Valid() && resetTAA && frameNumberTAA == 1
      ensures renderPlanes == Filter(world.planes, PlaneEnabled)
      ensures spheres == world.spheres
      ensures lights == LightUniforms(world.lights, enableAreaLights)
      ensures uniforms == Uniforms(enableGI, enableRefGI, enablePlaneBacksides, enablePlaneMirrors,
                                   shadowSamples, indirectSamples, reflectionBounces)
    {
      ResizeCanvas();
      renderPlanes := UpdatePlanes();
      spheres := UpdateSpheres();
      lights := UpdateLights();
      uniforms := UpdateRenderingSettings();
    }

    /** render: one frame, then syncFrame with the vsync choice. `fps` is the
        value the FPS meter holds; `signalled` and `fence` stand for the GPU's
        answers to getSyncParameter and fenceSync. `jitter` is the sub-pixel
        offset updateJitterTAA applies, in pixels. */
    method Render(fps: real, signalled: bool, fence: Fence)
      returns (report: FrameReport, jitter: Option<(real, real)>, outcome: SyncOutcome)
      requires Valid()
      modifies this`usingA, this`resetTAA, this`rotatingCamera, this`frameNumberTAA,
               this`jitterSampleIdx, ring`syncs, ring`syncIndex
      ensures Valid()
      ensures (State(), report) == RenderStep(old(State()), fps)
      ensures jitter == (if report.runTAA then Some(JitterOffset(halton[old(jitterSampleIdx)])) else None)
      ensures (ring.State(), outcome) == Poll(old(ring.State()), report.vsync, signalled, fence)
    {
      ghost var expected := RenderStep(State(), fps);
      NextJitter(jitterSampleIdx);
      var moving, runTAA := StartFrame();
      var used;
      used, jitter := AdvanceJitter(runTAA);
      // accumulating frames run without vsync
      var accumulationRender := !moving && runTAA;
      var draw := DrawScene(accumulationRender, fps);
      frameNumberTAA := frameNumberTAA + 1;
      report := FrameReport(moving, runTAA, used, draw, !accumulationRender);
      assert State() == expected.0;
      outcome := ring.SyncFrame(!accumulationRender, signalled, fence);
    }

    /** The start of render: camera motion is applied (and raises resetTAA),
        and a pending reset is carried out if TAA is on. */
    method StartFrame() returns (moving: bool, runTAA: bool)
      requires Valid()
      modifies this`resetTAA, this`rotatingCamera, this`frameNumberTAA
      ensures Valid()
      ensures moving == Moving(old(State()))
      ensures var resetNow := (old(resetTAA) || moving) && enableTAA;
        && runTAA == (enableTAA && !resetNow)
        && resetTAA == ((old(resetTAA) || moving) && !resetNow)
        && !rotatingCamera
        && frameNumberTAA == (if resetNow then 1 else old(frameNumberTAA))
    {
      moving := rotatingCamera || keyDownW || keyDownA || keyDownS || keyDownD;
      if moving {
        UpdateCamera();
        rotatingCamera := false;
      }
      runTAA := enableTAA;
      if resetTAA && enableTAA {
        resetTAA := false;
        runTAA := false;
        frameNumberTAA := 1;
      }
    }

    /** The jitter step of render: a TAA frame uses the current Halton entry
        (updateJitterTAA) and moves to the next one, cyclically; any other
        frame goes back to entry 0. */
    method AdvanceJitter(runTAA: bool) returns (used: Option<nat>, jitter: Option<(real, real)>)
      requires Valid()
      modifies this`jitterSampleIdx
      ensures Valid()
      ensures used == (if runTAA then Some(old(jitterSampleIdx)) else None)
      ensures jitter == (if runTAA then Some(JitterOffset(halton[old(jitterSampleIdx)])) else None)
      ensures jitterSampleIdx == (if runTAA then (old(jitterSampleIdx) + 1) % HaltonSamples else 0)
    {
      used := None;
      jitter := None;
      NextJitter(jitterSampleIdx);
      if runTAA {
        used := Some(jitterSampleIdx);
        jitter := Some(JitterOffset(halton[jitterSampleIdx]));
        jitterSampleIdx := jitterSampleIdx + 1;
      }
      if !runTAA || jitterSampleIdx >= HaltonSamples {
        jitterSampleIdx := 0;
      }
    }

    /** The drawing step of render: with TAA on, draw into the current
        framebuffer reading the other one's texture, present if not
        accumulating or on the presentation period, and swap. */
    method DrawScene(accumulationRender: bool, fps: real) returns (draw: Draw)
      requires Valid()
      modifies this`usingA
      ensures Valid()
      ensures usingA == (old(usingA) != enableTAA)
      ensures draw == (if enableTAA then
                         Accumulate(if old(usingA) then FramebufferA else FramebufferB,
                                    if old(usingA) then TextureB else TextureA,
                                    BlendFactor(frameNumberTAA),
                                    Presents(accumulationRender, frameNumberTAA, fps))
                       else DirectToCanvas)
    {
      if enableTAA {
        var fb := if usingA then FramebufferA else FramebufferB;
        var history := if usingA then TextureB else TextureA;
        var present := !accumulationRender || frameNumberTAA % PresentPeriod(fps) == 0;
        draw := Accumulate(fb, history, 1.0 / frameNumberTAA as real, present);
        usingA := !usingA;
      } else {
        draw := DirectToCanvas;
      }
    }

    /** updateCamera: the camera matrices are not modelled; what remains is
        that the accumulated image becomes stale. */
    method UpdateCamera()
      requires Valid()
      modifies this`resetTAA
      ensures Valid() && resetTAA
    {
      resetTAA := true;
    }

    /** updatePlanes: uploads the enabled planes, in order. */
    method UpdatePlanes() returns (renderPlanes: seq<Plane>)
      requires Valid()
      modifies this`resetTAA
      ensures Valid() && resetTAA
      ensures renderPlanes == Filter(world.planes, PlaneEnabled)
    {
      renderPlanes := CompactPlanes(world.planes);
      resetTAA := true;
    }

    /** updateSpheres: uploads every sphere. */
    method UpdateSpheres() returns (spheres: seq<Sphere>)
      requires Valid()
      modifies this`resetTAA
      ensures Valid() && resetTAA
      ensures spheres == world.spheres
    {
      spheres := world.spheres;
      resetTAA := true;
    }

    /** updateLights: uploads the enabled lights, in order. */
    method UpdateLights() returns (uniforms: seq<LightUniform>)
      requires Valid()
      modifies this`resetTAA
      ensures Valid() && resetTAA
      ensures uniforms == LightUniforms(world.lights, enableAreaLights)
    {
      uniforms := LightUniforms(world.lights, enableAreaLights);
      resetTAA := true;
    }

    /** updateRenderingSettings. */
    method UpdateRenderingSettings() returns (uniforms: RenderingUniforms)
      requires Valid()
      modifies this`resetTAA
      ensures Valid() && resetTAA
      ensures uniforms == Uniforms(enableGI, enableRefGI, enablePlaneBacksides, enablePlaneMirrors,
                                   shadowSamples, indirectSamples, reflectionBounces)
    {
      uniforms := Uniforms(enableGI, enableRefGI, enablePlaneBacksides, enablePlaneMirrors,
                           shadowSamples, indirectSamples, reflectionBounces);
      resetTAA := true;
    }

    /** updateSpherePosition: sphere 0 bounces between x = -3 and x = 3. */
    method UpdateSpherePosition(delta: real)
      requires Valid() && |world.spheres| > 0
      modifies this`xmove, this`moveinv, world`spheres
      ensures Valid()
      ensures (xmove, moveinv) == SphereStep(old(xmove), old(moveinv), delta)
      ensures world.spheres == old(world.spheres)[0 := old(world.spheres)[0].(x := xmove)]
    {
      if xmove > SphereTravel {
        xmove := SphereTravel;
        moveinv := -1.0;
      } else if xmove < -SphereTravel {
        xmove := -SphereTravel;
        moveinv := 1.0;
      }
      xmove := xmove + moveinv * delta;
      world.MoveFirstSphere(xmove);
    }

    /** resizeCanvas: the history textures are reallocated (black), so the next
        frame must not blend with them. */
    method ResizeCanvas()
      requires Valid()
      modifies this`resetTAA, this`frameNumberTAA
      ensures Valid() && resetTAA && frameNumberTAA == 1
    {
      UpdateCamera();
      frameNumberTAA := 1;
    }

    // ----- Input handlers -----

    /** handleKeys, for keydown (down) and keyup (not down). */
    method HandleKeys(code: string, down: bool)
      modifies this`keyDownW, this`keyDownA, this`keyDownS, this`keyDownD
      ensures KeyState() == PressKey(old(KeyState()), code, down)
    {
      match code
      case "KeyW" => keyDownW := down;
      case "KeyS" => keyDownS := down;
      case "KeyA" => keyDownA := down;
      case "KeyD" => keyDownD := down;
      case _ =>
    }

    /** mousemove: with the pointer locked on the canvas, the camera turns. */
    method MouseMove(lockedOnCanvas: bool)
      modifies this`rotatingCamera
      ensures rotatingCamera == (old(rotatingCamera) || lockedOnCanvas)
    {
      if lockedOnCanvas {
        rotatingCamera := true;
      }
    }

    /** The TAA checkbox; resizing clears the history textures. */
    method SetEnableTAA(checked: bool)
      requires Valid()
      modifies this`enableTAA, this`resetTAA, this`frameNumberTAA
      ensures Valid() && enableTAA == checked && resetTAA && frameNumberTAA == 1
    {
      enableTAA := checked;
      ResizeCanvas();
    }

    method SetEnableGI(checked: bool) returns (uniforms: RenderingUniforms)
      requires Valid()
      modifies this`enableGI, this`resetTAA
      ensures Valid() && enableGI == checked && resetTAA
      ensures uniforms.enableGI == checked
      ensures uniforms == Uniforms(enableGI, enableRefGI, enablePlaneBacksides, enablePlaneMirrors,
                                   shadowSamples, indirectSamples, reflectionBounces)
    {
      enableGI := checked;
      uniforms := UpdateRenderingSettings();
    }

    method SetEnableRefGI(checked: bool) returns (uniforms: RenderingUniforms)
      requires Valid()
      modifies this`enableRefGI, this`resetTAA
      ensures Valid() && enableRefGI == checked && resetTAA
      ensures uniforms.enableRefGI == checked
      ensures uniforms == Uniforms(enableGI, enableRefGI, enablePlaneBacksides, enablePlaneMirrors,
                                   shadowSamples, indirectSamples, reflectionBounces)
    {
      enableRefGI := checked;
      uniforms := UpdateRenderingSettings();
    }

    method SetIndirectSamples(value: nat) returns (uniforms: RenderingUniforms)
      requires Valid()
      modifies this`indirectSamples, this`resetTAA
      ensures Valid() && indirectSamples == value && resetTAA
      ensures uniforms.indirectSamples == value && uniforms.rcpIndirectSamples == Reciprocal(value)
      ensures uniforms == Uniforms(enableGI, enableRefGI, enablePlaneBacksides, enablePlaneMirrors,
                                   shadowSamples, indirectSamples, reflectionBounces)
    {
      indirectSamples := value;
      uniforms := UpdateRenderingSettings();
    }

    /** The direct-samples slider gives the grid side v and stores v * v, so
        the shader gets a v x v shadow grid. */
    method SetDirectSamples(value: nat) returns (uniforms: RenderingUniforms)
      requires Valid()
      modifies this`shadowSamples, this`resetTAA
      ensures Valid() && shadowSamples == value * value && resetTAA
      ensures uniforms.directSamplesSqrt == value && uniforms.directSamples == value * value
      ensures uniforms == Uniforms(enableGI, enableRefGI, enablePlaneBacksides, enablePlaneMirrors,
                                   shadowSamples, indirectSamples, reflectionBounces)
    {
      shadowSamples := value * value;
      uniforms := UpdateRenderingSettings();
      FloorSqrtOfSquare(value);
    }

    method SetReflectionBounces(value: nat) returns (uniforms: RenderingUniforms)
      requires Valid()
      modifies this`reflectionBounces, this`resetTAA
      ensures Valid() && reflectionBounces == value && resetTAA
      ensures uniforms.reflectionBounces == value
      ensures uniforms == Uniforms(enableGI, enableRefGI, enablePlaneBacksides, enablePlaneMirrors,
                                   shadowSamples, indirectSamples, reflectionBounces)
    {
      reflectionBounces := value;
      uniforms := UpdateRenderingSettings();
    }

    /** The field-of-view slider; the angle itself belongs to the camera. */
    method SetFov()
      requires Valid()
      modifies this`resetTAA
      ensures Valid() && resetTAA
    {
      UpdateCamera();
    }

    method SetAreaLights(checked: bool) returns (uniforms: seq<LightUniform>)
      requires Valid()
      modifies this`enableAreaLights, this`resetTAA
      ensures Valid() && enableAreaLights == checked && resetTAA
      ensures uniforms == LightUniforms(world.lights, checked)
    {
      enableAreaLights := checked;
      uniforms := UpdateLights();
    }

    method SetLightEnabled(i: nat, on: bool) returns (uniforms: seq<LightUniform>)
      requires Valid() && i < |world.lights|
      modifies world`lights, this`resetTAA
      ensures Valid() && resetTAA
      ensures world.lights == old(world.lights)[i := old(world.lights)[i].(enabled := on)]
      ensures uniforms == LightUniforms(world.lights, enableAreaLights)
    {
      world.SetLightEnabled(i, on);
      uniforms := UpdateLights();
    }

    method SetPlaneEnabled(i: nat, on: bool) returns (renderPlanes: seq<Plane>)
      requires Valid() && i < |world.planes|
      modifies world`planes, this`resetTAA
      ensures Valid() && resetTAA
      ensures world.planes == old(world.planes)[i := old(world.planes)[i].(enabled := on)]
      ensures renderPlanes == Filter(world.planes, PlaneEnabled)
    {
      world.SetPlaneEnabled(i, on);
      renderPlanes := UpdatePlanes();
    }

    method SetPlaneBacksides(checked: bool) returns (uniforms: RenderingUniforms)
      requires Valid()
      modifies this`enablePlaneBacksides, this`resetTAA
      ensures Valid() && enablePlaneBacksides == checked && resetTAA
      ensures uniforms.enablePlaneBacksides == checked
      ensures uniforms == Uniforms(enableGI, enableRefGI, enablePlaneBacksides, enablePlaneMirrors,
                                   shadowSamples, indirectSamples, reflectionBounces)
    {
      enablePlaneBacksides := checked;
      uniforms := UpdateRenderingSettings();
    }

    /** The mirror-world preset: whatever the checkbox says, every plane is
        switched on and uploaded, plane backsides and reflection GI are off
        and five reflection bounces are traced. */
    method SetMirrorWorld(checked: bool) returns (renderPlanes: seq<Plane>, uniforms: RenderingUniforms)
      requires Valid()
      modifies this`enablePlaneMirrors, this`enablePlaneBacksides, this`enableRefGI,
               this`reflectionBounces, this`resetTAA, world`planes
      ensures Valid() && resetTAA
      ensures enablePlaneMirrors == checked && !enablePlaneBacksides && !enableRefGI && reflectionBounces == 5
      ensures |world.planes| == |old(world.planes)|
      ensures forall i :: 0 <= i < |world.planes| ==> world.planes[i] == old(world.planes)[i].(enabled := true)
      ensures renderPlanes == world.planes
      ensures uniforms.enablePlaneMirrors == checked && !uniforms.enablePlaneBacksides
      ensures !uniforms.enableRefGI && uniforms.reflectionBounces == 5
      ensures uniforms == Uniforms(enableGI, enableRefGI, enablePlaneBacksides, enablePlaneMirrors,
                                   shadowSamples, indirectSamples, reflectionBounces)
    {
      enablePlaneMirrors := checked;
      enablePlaneBacksides := false;
      world.EnableAllPlanes();
      enableRefGI := false;
      reflectionBounces := 5;
      renderPlanes := UpdatePlanes();
      FilterKeepsAll(world.planes, PlaneEnabled);
      uniforms := UpdateRenderingSettings();
    }
  }
}
