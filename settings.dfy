/**
  Derivations of the rendering settings: the shadow-sample grid (the
  requested sample count is cut down to a perfect square, laid out as a
  dim x dim stratified grid) and the uniform values updateRenderingSettings
  uploads.
*/
module Settings {
  import opened Wrappers

  /** Math.floor(Math.sqrt(n)) on a whole number. */
  function FloorSqrt(n: nat): (r: nat)
    ensures r * r <= n < (r + 1) * (r + 1)
  {
    if n == 0 then 0
    else
      var s := FloorSqrt(n - 1);
      if (s + 1) * (s + 1) <= n then s + 1 else s
  }

  lemma SquareMonotone(a: nat, b: nat)
    requires a <= b
    ensures a * a <= b * b
  {
    assert a * a <= a * b <= b * b;
  }

  /** The integer square root is the only k with k^2 <= n < (k+1)^2. */
  lemma FloorSqrtUnique(n: nat, k: nat)
    requires k * k <= n < (k + 1) * (k + 1)
    ensures FloorSqrt(n) == k
  {
    var r := FloorSqrt(n);
    if r < k {
      SquareMonotone(r + 1, k);
    } else if k < r {
      SquareMonotone(k + 1, r);
    }
  }

  /** The directsamples slider stores v * v, so the grid dimension is v again. */
  lemma FloorSqrtOfSquare(v: nat)
    ensures FloorSqrt(v * v) == v
  {
    assert v * v < (v + 1) * (v + 1);
    FloorSqrtUnique(v * v, v);
  }

  /** shadowDim and the sample count uploaded for it (shadowDim squared). */
  function ShadowGrid(shadowSamples: nat): (g: (nat, nat))
    ensures g.1 == g.0 * g.0
    ensures g.1 <= shadowSamples < (g.0 + 1) * (g.0 + 1)
  {
    var dim := FloorSqrt(shadowSamples);
    (dim, dim * dim)
  }

  /** The uploaded count is the largest perfect square not above the request. */
  lemma ShadowGridLargestSquare(shadowSamples: nat, k: nat)
    requires k * k <= shadowSamples
    ensures k * k <= ShadowGrid(shadowSamples).1
  {
    var dim := ShadowGrid(shadowSamples).0;
    if k > dim {
      SquareMonotone(dim + 1, k);
    }
    SquareMonotone(k, dim);
  }

  /** Values updateRenderingSettings uploads as shader uniforms. */
  datatype RenderingUniforms = RenderingUniforms(
    ambientLight: real,
    enableGI: bool,
    enableRefGI: bool,
    enablePlaneBacksides: bool,
    enablePlaneMirrors: bool,
    directSamplesSqrt: nat,
    directSamples: nat,
    indirectSamples: nat,
    rcpIndirectSamples: Option<real>,  // None stands for JavaScript's Infinity (1.0 / 0)
    reflectionBounces: nat)

  /** Grey ambient term, uploaded as (0.01, 0.01, 0.01). */
  const AmbientLight: real := 0.01

  function Reciprocal(n: nat): (r: Option<real>)
    ensures n > 0 ==> r.Some? && r.value * n as real == 1.0
    ensures n == 0 ==> r.None?
  {
    if n == 0 then None else Some(1.0 / n as real)
  }

  /** The uniforms updateRenderingSettings uploads for the current settings:
      the shadow samples reduced to the largest square grid that fits, and
      the reciprocal of the indirect sample count. */
  function Uniforms(enableGI: bool, enableRefGI: bool, enablePlaneBacksides: bool,
                    enablePlaneMirrors: bool, shadowSamples: nat, indirectSamples: nat,
                    reflectionBounces: nat): (u: RenderingUniforms)
    ensures u.ambientLight == AmbientLight
    ensures u.enableGI == enableGI && u.enableRefGI == enableRefGI
    ensures u.enablePlaneBacksides == enablePlaneBacksides && u.enablePlaneMirrors == enablePlaneMirrors
    ensures u.directSamples == u.directSamplesSqrt * u.directSamplesSqrt
    ensures u.directSamples <= shadowSamples < (u.directSamplesSqrt + 1) * (u.directSamplesSqrt + 1)
    ensures u.indirectSamples == indirectSamples
    ensures indirectSamples > 0 ==> u.rcpIndirectSamples.Some? && u.rcpIndirectSamples.value * indirectSamples as real == 1.0
    ensures indirectSamples == 0 ==> u.rcpIndirectSamples.None?
    ensures u.reflectionBounces == reflectionBounces
  {
    var grid := ShadowGrid(shadowSamples);
    RenderingUniforms(AmbientLight, enableGI, enableRefGI, enablePlaneBacksides, enablePlaneMirrors,
                      grid.0, grid.1, indirectSamples, Reciprocal(indirectSamples), reflectionBounces)
  }
}
