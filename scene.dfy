/**
  The world state: planes, lights and spheres as loaded from the scene
  description, and the derivations the updaters make from it before
  uploading: only enabled planes and lights reach the shader, in their
  original order.
*/
module Scene {

  /** A plane n . p = offset with its material; disabled planes stay stored. */
  datatype Plane = Plane(
    x: real, y: real, z: real,
    r: real, g: real, b: real,
    offset: real,
    specular: real, roughness: real,
    enabled: bool,
    desc: string)

  datatype Light = Light(
    x: real, y: real, z: real,
    r: real, g: real, b: real,
    sizeX: real, sizeY: real,
    brightness: real,
    spotSize: real, spotIntensity: real,
    rotate: bool,
    enabled: bool)

  datatype Sphere = Sphere(
    x: real, y: real, z: real,
    r: real, g: real, b: real,
    rr: real, rg: real, rb: real,
    sr: real, sg: real, sb: real,
    roughness: real)

  function PlaneEnabled(p: Plane): bool { p.enabled }

  function LightEnabled(l: Light): bool { l.enabled }

  // ----- Compaction: the entries that pass `keep`, in order -----

  function Filter<T>(s: seq<T>, keep: T -> bool): (r: seq<T>)
    ensures |r| <= |s|
    ensures forall k :: 0 <= k < |r| ==> keep(r[k])
    decreases |s|
  {
    if s == [] then []
    else Filter(s[..|s| - 1], keep) + (if keep(s[|s| - 1]) then [s[|s| - 1]] else [])
  }

  /** Positions, in increasing order, of the entries of `s` that pass `keep`. */
  function KeptIndices<T>(s: seq<T>, keep: T -> bool): (ix: seq<nat>)
    ensures forall k :: 0 <= k < |ix| ==> ix[k] < |s| && keep(s[ix[k]])
    ensures forall k, m :: 0 <= k < m < |ix| ==> ix[k] < ix[m]
    ensures forall j :: 0 <= j < |s| && keep(s[j]) ==> j in ix
    decreases |s|
  {
    if s == [] then []
    else
      var front := KeptIndices(s[..|s| - 1], keep);
      assert forall j :: 0 <= j < |s| - 1 ==> s[..|s| - 1][j] == s[j];
      front + (if keep(s[|s| - 1]) then [|s| - 1] else [])
  }

  /** Slot k of the compacted list holds entry KeptIndices[k] of the world:
      exactly the kept entries, each once, in their original order. */
  lemma {:induction false} FilterIsKeptEntriesInOrder<T>(s: seq<T>, keep: T -> bool)
    ensures |Filter(s, keep)| == |KeptIndices(s, keep)|
    ensures forall k :: 0 <= k < |Filter(s, keep)| ==> Filter(s, keep)[k] == s[KeptIndices(s, keep)[k]]
    decreases |s|
  {
    if s != [] {
      var init := s[..|s| - 1];
      FilterIsKeptEntriesInOrder(init, keep);
      assert forall j :: 0 <= j < |init| ==> init[j] == s[j];
    }
  }

  /** When every entry is kept, compaction changes nothing. */
  lemma {:induction false} FilterKeepsAll<T>(s: seq<T>, keep: T -> bool)
    requires forall k :: 0 <= k < |s| ==> keep(s[k])
    ensures Filter(s, keep) == s
    decreases |s|
  {
    if s != [] {
      var init := s[..|s| - 1];
      FilterKeepsAll(init, keep);
      assert init + [s[|s| - 1]] == s;
    }
  }

  /** The loop of updatePlanes that pushes every enabled plane into renderPlanes. */
  method CompactPlanes(planes: seq<Plane>) returns (renderPlanes: seq<Plane>)
    ensures renderPlanes == Filter(planes, PlaneEnabled)
  {
    renderPlanes := [];
    for i := 0 to |planes|
      invariant renderPlanes == Filter(planes[..i], PlaneEnabled)
    {
      assert planes[..i + 1][..i] == planes[..i];
      if planes[i].enabled {
        renderPlanes := renderPlanes + [planes[i]];
      }
    }
    assert planes[..|planes|] == planes;
  }

  // ----- Light uniforms -----

  /** What updateLights uploads for one light. */
  datatype LightUniform = LightUniform(
    pos: (real, real, real),
    size: (real, real),
    emission: (real, real, real),
    spot: (real, real))

  function UniformOf(l: Light, enableAreaLights: bool): LightUniform
  {
    LightUniform(
      (l.x, l.y, l.z),
      if enableAreaLights then (l.sizeX, l.sizeY) else (0.0, 0.0),
      (l.r * l.brightness, l.g * l.brightness, l.b * l.brightness),
      (l.spotSize, l.spotIntensity))
  }

  /** updateLights: the enabled lights in order, each turned into its uniforms;
      with area lights off every light is a point light. */
  function LightUniforms(lights: seq<Light>, enableAreaLights: bool): (u: seq<LightUniform>)
    ensures |u| == |Filter(lights, LightEnabled)|
    ensures forall k :: 0 <= k < |u| ==> u[k] == UniformOf(Filter(lights, LightEnabled)[k], enableAreaLights)
    ensures !enableAreaLights ==> forall k :: 0 <= k < |u| ==> u[k].size == (0.0, 0.0)
  {
    var renderLights := Filter(lights, LightEnabled);
    seq(|renderLights|, k requires 0 <= k < |renderLights| => UniformOf(renderLights[k], enableAreaLights))
  }

  // ----- The sphere-0 animation -----

  /** How far sphere 0 travels along x each way. */
  const SphereTravel: real := 3.0

  /** updateSpherePosition on (xmove, moveinv): clamp at the ends, turn round,
      then advance by moveinv * delta. */
  function SphereStep(xmove: real, moveinv: real, delta: real): (next: (real, real))
    requires moveinv == 1.0 || moveinv == -1.0
    ensures next.1 == 1.0 || next.1 == -1.0
    ensures delta >= 0.0 ==> -SphereTravel - delta <= next.0 <= SphereTravel + delta
    ensures xmove > SphereTravel ==> next == (SphereTravel - delta, -1.0)
    ensures xmove < -SphereTravel ==> next == (-SphereTravel + delta, 1.0)
    ensures -SphereTravel <= xmove <= SphereTravel ==> next.1 == moveinv
  {
    var (x, m) :=
      if xmove > SphereTravel then (SphereTravel, -1.0)
      else if xmove < -SphereTravel then (-SphereTravel, 1.0)
      else (xmove, moveinv);
    (x + m * delta, m)
  }

  /** The scene description, shared and updated in place by the UI handlers
      and the animation. */
  class World {
    var planes: seq<Plane>
    var lights: seq<Light>
    var spheres: seq<Sphere>

    constructor (planes: seq<Plane>, lights: seq<Light>, spheres: seq<Sphere>)
      ensures this.planes == planes && this.lights == lights && this.spheres == spheres
    {
      this.planes := planes;
      this.lights := lights;
      this.spheres := spheres;
    }

    /** The light-enable checkbox: only that light's flag changes, so switching
        a light off and on again restores it exactly. */
    method SetLightEnabled(i: nat, on: bool)
      requires i < |lights|
      modifies this`lights
      ensures lights == old(lights)[i := old(lights)[i].(enabled := on)]
    {
      lights := lights[i := lights[i].(enabled := on)];
    }

    /** The plane-enable checkbox. */
    method SetPlaneEnabled(i: nat, on: bool)
      requires i < |planes|
      modifies this`planes
      ensures planes == old(planes)[i := old(planes)[i].(enabled := on)]
    {
      planes := planes[i := planes[i].(enabled := on)];
    }

    /** The loop of the mirror-world handler that enables every plane. */
    method EnableAllPlanes()
      modifies this`planes
      ensures |planes| == |old(planes)|
      ensures forall i :: 0 <= i < |planes| ==> planes[i] == old(planes)[i].(enabled := true)
    {
      for i := 0 to |planes|
        invariant |planes| == |old(planes)|
        invariant forall k :: 0 <= k < i ==> planes[k] == old(planes)[k].(enabled := true)
        invariant forall k :: i <= k < |planes| ==> planes[k] == old(planes)[k]
      {
        planes := planes[i := planes[i].(enabled := true)];
      }
    }

    /** WorldState.spheres[0].x = xmove. */
    method MoveFirstSphere(x: real)
      requires |spheres| > 0
      modifies this`spheres
      ensures spheres == old(spheres)[0 := old(spheres)[0].(x := x)]
    {
      spheres := spheres[0 := spheres[0].(x := x)];
    }
  }
}
