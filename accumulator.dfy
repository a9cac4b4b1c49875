/**
  The temporal anti-aliasing (TAA) frame step of the render loop as a
  function of the controller state. Each frame either restarts the running
  average (after any change to the scene, the settings or the camera) or blends
  one more jittered sample into it with weight 1 / frameNumberTAA. Two
  framebuffers alternate as target and history.
*/
module Accumulator {
  import opened Wrappers
  import opened Halton

  /** Which movement keys are held down. */
  datatype Keys = Keys(w: bool, a: bool, s: bool, d: bool)

  /** The module-level variables that render reads and writes. */
  datatype FrameState = FrameState(
    usingA: bool,
    enableTAA: bool,
    resetTAA: bool,
    rotatingCamera: bool,
    keys: Keys,
    frameNumberTAA: nat,
    jitterSampleIdx: nat)

  /** The state every frame starts from: the averaging counter is a valid
      divisor and the jitter index is a valid index into the Halton table. */
  predicate Invariant(s: FrameState)
  {
    s.frameNumberTAA >= 1 && s.jitterSampleIdx < HaltonSamples
  }

  datatype Framebuffer = FramebufferA | FramebufferB

  /** The history textures (colour attachment 1 of each framebuffer). */
  datatype Texture = TextureA | TextureB

  /** framebufferA carries textureA, framebufferB carries textureB. */
  function AttachedTexture(fb: Framebuffer): Texture
  {
    if fb == FramebufferA then TextureA else TextureB
  }

  function OtherFramebuffer(fb: Framebuffer): Framebuffer
  {
    if fb == FramebufferA then FramebufferB else FramebufferA
  }

  /** What a frame draws: straight to the canvas (TAA off), or into `target`
      while reading the previous result from `history`, blending with
      `blendFactor` and copying to the canvas only when `present` holds. */
  datatype Draw =
    | DirectToCanvas
    | Accumulate(target: Framebuffer, history: Texture, blendFactor: real, present: bool)

  /** What one frame does, besides its new state. `jitterIndex` is the Halton
      entry used for the sub-pixel jitter, if any; `vsync` is the argument
      handed to syncFrame. */
  datatype FrameReport = FrameReport(
    moving: bool,
    runTAA: bool,
    jitterIndex: Option<nat>,
    draw: Draw,
    vsync: bool)

  /** The camera moves this frame: a mouse rotation is pending or a movement
      key is held. */
  predicate Moving(s: FrameState)
  {
    s.rotatingCamera || s.keys.w || s.keys.a || s.keys.s || s.keys.d
  }

  /** While accumulating, only every p-th frame is shown, p = max(1, floor(fps / 30)),
      so the canvas is updated about 30 times a second. */
  function PresentPeriod(fps: real): (p: nat)
    ensures p >= 1
    ensures fps < 60.0 ==> p == 1
    ensures fps >= 30.0 ==> (p as real) * 30.0 <= fps < (p as real + 1.0) * 30.0
  {
    var q := (fps / 30.0).Floor;
    if q < 1 then 1 else q
  }

  /** The jitter of one Halton pair in pixels: each coordinate moved from
      [0, 1) to [-1, 1). */
  function JitterOffset(h: (real, real)): (o: (real, real))
    requires 0.0 <= h.0 < 1.0 && 0.0 <= h.1 < 1.0
    ensures -1.0 <= o.0 < 1.0 && -1.0 <= o.1 < 1.0
    ensures (o.0 + 1.0) / 2.0 == h.0 && (o.1 + 1.0) / 2.0 == h.1
  {
    (h.0 * 2.0 - 1.0, h.1 * 2.0 - 1.0)
  }

  /** The weight of the new frame in the running mean of `frame` frames. */
  function BlendFactor(frame: nat): real
    requires frame >= 1
  {
    1.0 / frame as real
  }

  /** Whether a frame drawn into the accumulation buffer is also copied to
      the canvas: always unless accumulating, else on the presentation period. */
  predicate Presents(accumulationRender: bool, frame: nat, fps: real)
  {
    !accumulationRender || frame % PresentPeriod(fps) == 0
  }

  /** Stepping the jitter index: the next entry, or 0 past the end. */
  lemma NextJitter(j: nat)
    requires j < HaltonSamples
    ensures (j + 1) % HaltonSamples == (if j + 1 >= HaltonSamples then 0 else j + 1)
  {
  }

  /** One call of render, given the frame rate the FPS meter last measured. */
  function RenderStep(s: FrameState, fps: real): (res: (FrameState, FrameReport))
    requires Invariant(s)
    ensures Invariant(res.0)
  {
    var moving := Moving(s);
    // updateCamera raises resetTAA; the rotation request is consumed
    var resetPending := s.resetTAA || moving;
    var resetNow := resetPending && s.enableTAA;
    var runTAA := s.enableTAA && !resetNow;
    var frame := if resetNow then 1 else s.frameNumberTAA;
    var advanced := if runTAA then s.jitterSampleIdx + 1 else s.jitterSampleIdx;
    var jitter := if !runTAA || advanced >= HaltonSamples then 0 else advanced;
    var accumulationRender := !moving && runTAA;
    var draw :=
      if s.enableTAA then
        var fb := if s.usingA then FramebufferA else FramebufferB;
        Accumulate(fb, if s.usingA then TextureB else TextureA, BlendFactor(frame),
                   Presents(accumulationRender, frame, fps))
      else DirectToCanvas;
    var next := FrameState(
      if s.enableTAA then !s.usingA else s.usingA,
      s.enableTAA,
      resetPending && !resetNow,
      false,
      s.keys,
      frame + 1,
      jitter);
    (next, FrameReport(moving, runTAA, if runTAA then Some(s.jitterSampleIdx) else None,
                       draw, !accumulationRender))
  }

  /** What one frame does: the reset rule, the jitter walk, the ping-pong of
      the framebuffers, the blend factor, vsync and presentation. */
  lemma RenderStepSpec(s: FrameState, fps: real, next: FrameState, report: FrameReport)
    requires Invariant(s) && (next, report) == RenderStep(s, fps)
    ensures report.moving == Moving(s)
    // the reset rule: a pending reset (or camera motion) restarts the average
    // when TAA is on, and stays pending when it is off
    ensures report.runTAA <==> s.enableTAA && !s.resetTAA && !Moving(s)
    ensures next.resetTAA <==> !s.enableTAA && (s.resetTAA || Moving(s))
    ensures next.frameNumberTAA ==
      (if s.enableTAA && (s.resetTAA || Moving(s)) then 2 else s.frameNumberTAA + 1)
    ensures !next.rotatingCamera && next.keys == s.keys && next.enableTAA == s.enableTAA
    // jitter: one step along the table per TAA frame, back to 0 otherwise
    ensures report.jitterIndex == (if report.runTAA then Some(s.jitterSampleIdx) else None)
    ensures next.jitterSampleIdx ==
      (if report.runTAA then (s.jitterSampleIdx + 1) % HaltonSamples else 0)
    // ping-pong: the target alternates exactly when TAA is on, and the history
    // texture is always the other framebuffer's
    ensures next.usingA == (s.usingA != s.enableTAA)
    ensures report.draw.Accumulate? <==> s.enableTAA
    ensures report.draw.Accumulate? ==>
      && report.draw.target == (if s.usingA then FramebufferA else FramebufferB)
      && report.draw.history == AttachedTexture(OtherFramebuffer(report.draw.target))
      && report.draw.history != AttachedTexture(report.draw.target)
    // the blend factor is 1 / (frames in the average), 1 right after a reset
    ensures report.draw.Accumulate? ==>
      && 0.0 < report.draw.blendFactor <= 1.0
      && report.draw.blendFactor * (next.frameNumberTAA - 1) as real == 1.0
      && (!report.runTAA ==> report.draw.blendFactor == 1.0)
    // vsync and presentation
    ensures report.vsync <==> !report.runTAA
    ensures report.draw.Accumulate? ==>
      (report.draw.present <==>
        !report.runTAA || (next.frameNumberTAA - 1) % PresentPeriod(fps) == 0)
  {
  }

  /** The state after n frames at a steady frame rate with no input. */
  function Frames(s: FrameState, fps: real, n: nat): (t: FrameState)
    requires Invariant(s)
    ensures Invariant(t)
    decreases n
  {
    if n == 0 then s else Frames(RenderStep(s, fps).0, fps, n - 1)
  }

  predicate NoKeys(s: FrameState)
  {
    !s.keys.w && !s.keys.a && !s.keys.s && !s.keys.d
  }

  /** n undisturbed TAA frames: every one accumulates, the target alternates,
      the average grows by one frame each time and the jitter walks the table
      cyclically, so frame n uses entry (j + n) mod 36. */
  lemma {:induction false} SteadyAccumulation(s: FrameState, fps: real, n: nat)
    requires Invariant(s) && s.enableTAA && !s.resetTAA && !Moving(s)
    ensures var t := Frames(s, fps, n);
      && t.enableTAA && !t.resetTAA && !Moving(t)
      && t.usingA == (s.usingA != (n % 2 == 1))
      && t.frameNumberTAA == s.frameNumberTAA + n
      && t.jitterSampleIdx == (s.jitterSampleIdx + n) % HaltonSamples
      && RenderStep(t, fps).1.runTAA
      && RenderStep(t, fps).1.jitterIndex == Some((s.jitterSampleIdx + n) % HaltonSamples)
    decreases n
  {
    if n > 0 {
      var s1 := RenderStep(s, fps).0;
      RenderStepSpec(s, fps, s1, RenderStep(s, fps).1);
      assert s1.enableTAA && !s1.resetTAA && !Moving(s1);
      assert s1.usingA == !s.usingA && s1.frameNumberTAA == s.frameNumberTAA + 1;
      assert s1.jitterSampleIdx == (s.jitterSampleIdx + 1) % HaltonSamples;
      SteadyAccumulation(s1, fps, n - 1);
      assert Frames(s, fps, n) == Frames(s1, fps, n - 1);
      CountOn(s.jitterSampleIdx, n);
    } else {
      RenderStepSpec(s, fps, RenderStep(s, fps).0, RenderStep(s, fps).1);
    }
  }

  lemma CountOn(j: nat, n: nat)
    requires n > 0
    ensures ((j + 1) % HaltonSamples + (n - 1)) % HaltonSamples == (j + n) % HaltonSamples
    ensures ((n - 1) % 2 == 1) == !(n % 2 == 1)
  {
  }

  /** After a pending reset with no movement key held, the k-th frame blends
      with weight 1 / (k + 1): the first frame replaces the history (weight 1,
      no TAA) and the later ones form the running mean of all frames since the
      reset. */
  lemma {:induction false} ResetThenAccumulate(s: FrameState, fps: real, k: nat)
    requires Invariant(s) && s.enableTAA && NoKeys(s) && (s.resetTAA || s.rotatingCamera)
    ensures var r := RenderStep(Frames(s, fps, k), fps).1;
      && r.draw.Accumulate?
      && r.draw.blendFactor == 1.0 / (k + 1) as real
      && (r.runTAA <==> k > 0)
  {
    if k > 0 {
      var s1 := RenderStep(s, fps).0;
      RenderStepSpec(s, fps, s1, RenderStep(s, fps).1);
      assert s1.frameNumberTAA == 2 && s1.enableTAA && !s1.resetTAA && !Moving(s1);
      SteadyAccumulation(s1, fps, k - 1);
      assert Frames(s, fps, k) == Frames(s1, fps, k - 1);
    }
  }

  /** With TAA on in two consecutive frames, the second reads as history the
      very texture the first one wrote. */
  lemma HistoryIsPreviousTarget(s: FrameState, fps: real)
    requires Invariant(s) && s.enableTAA
    ensures var (s1, r1) := RenderStep(s, fps);
      RenderStep(s1, fps).1.draw.history == AttachedTexture(r1.draw.target)
  {
  }

  // ----- Keyboard -----

  /** handleKeys: a key event for W, A, S or D sets that flag; any other code
      leaves all flags alone. */
  function PressKey(k: Keys, code: string, down: bool): (r: Keys)
    ensures code == "KeyW" ==> r == k.(w := down)
    ensures code == "KeyA" ==> r == k.(a := down)
    ensures code == "KeyS" ==> r == k.(s := down)
    ensures code == "KeyD" ==> r == k.(d := down)
    ensures code !in {"KeyW", "KeyA", "KeyS", "KeyD"} ==> r == k
  {
    match code
    case "KeyW" => k.(w := down)
    case "KeyS" => k.(s := down)
    case "KeyA" => k.(a := down)
    case "KeyD" => k.(d := down)
    case _ => k
  }

  /** Releasing a key undoes pressing it: the flag ends as it would without
      the press, whatever it was before. */
  lemma PressThenRelease(k: Keys, code: string)
    ensures PressKey(PressKey(k, code, true), code, false) == PressKey(k, code, false)
  {
  }

  /** Releasing every movement key with no rotation pending stops the camera,
      so the next frame may accumulate. */
  lemma ReleaseAllStops(s: FrameState)
    requires !s.rotatingCamera
    ensures var k := PressKey(PressKey(PressKey(PressKey(s.keys, "KeyW", false), "KeyA", false), "KeyS", false), "KeyD", false);
      !Moving(s.(keys := k))
  {
  }
}
