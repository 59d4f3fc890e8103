/**
 * The pass schedules of the IBL utility as functions: which passes each operation
 * runs, in which order, reading and writing which cube-map faces and mip levels.
 * The methods of module IBLUtility are proved to append exactly these passes to the
 * device's trace; the lemmas here state what the schedules guarantee.
 */
module IBLSchedule {
  import opened Gpu
  import opened IBLMath

  // ---------------------------------------------------------------------------
  // The passes the materials' execute calls issue

  /** ReflectionCubeImportanceSampleMat::execute: the shader's level count is the source's. */
  function ImportanceSamplePass(source: Texture, face: nat, mip: nat, target: Surface): (p: Pass)
    ensures p.ImportanceSample? && p.srcTex == source.id && p.face == face && p.mip == mip && p.target == target
    ensures forall m: nat {:trigger HasLevel(source.desc, m)} :: HasLevel(source.desc, m) <==> m < p.numMips
  {
    ImportanceSample(source.id, face, mip, source.desc.numMips + 1, target)
  }

  /** IrradianceComputeSHMat::execute on a square face: the dispatch covers the face with no spare tile row. */
  function ComputeSHPass(order: ShOrder, source: Texture, face: nat, output: nat): (p: Pass)
    requires source.desc.width == source.desc.height
    ensures p.ComputeSH? && p.order == order && p.srcTex == source.id && p.face == face && p.output == output
    ensures p.faceSize == source.desc.width == source.desc.height
    ensures p.dispatchX * (TileWidth * PixelsPerThread) >= p.faceSize > (p.dispatchX - 1) * (TileWidth * PixelsPerThread)
    ensures p.dispatchY * (TileHeight * PixelsPerThread) >= p.faceSize > (p.dispatchY - 1) * (TileHeight * PixelsPerThread)
  {
    var d := DispatchSize(source.desc.width);
    ComputeSH(order, source.id, face, source.desc.width, d.x, d.y, output)
  }

  // ---------------------------------------------------------------------------
  // Loops over the six faces

  /** The body of one of the `for (face = 0; face < 6; face++)` loops, as the pass it issues for a face. */
  datatype FaceLoop =
    | CopyLoop(src: nat, srcMip: nat, dst: nat, dstMip: nat)
    | DownsampleLoop(src: nat, srcMip: nat, dst: nat, dstMip: nat)
    | ImportanceLoop(source: Texture, dst: nat, dstMip: nat)
    | ComputeLoop(order: ShOrder, source: Texture, output: nat)
    | ProjectLoop(input: nat, dst: nat, dstMip: nat)

  predicate LoopOk(loop: FaceLoop)
  {
    loop.ComputeLoop? ==> loop.source.desc.width == loop.source.desc.height
  }

  function PassFor(loop: FaceLoop, face: nat): Pass
    requires LoopOk(loop)
  {
    match loop
    case CopyLoop(src, srcMip, dst, dstMip) => CopyFace(Surface(src, face, srcMip), Surface(dst, face, dstMip))
    case DownsampleLoop(src, srcMip, dst, dstMip) => Downsample(src, srcMip, face, Surface(dst, face, dstMip))
    case ImportanceLoop(source, dst, dstMip) => ImportanceSamplePass(source, face, dstMip, Surface(dst, face, dstMip))
    case ComputeLoop(order, source, output) => ComputeSHPass(order, source, face, output)
    case ProjectLoop(input, dst, dstMip) => ProjectSH(input, face, Surface(dst, face, dstMip))
  }

  /** The passes of the first `n` iterations of a face loop. */
  function FacePasses(loop: FaceLoop, n: nat): seq<Pass>
    requires LoopOk(loop)
  {
    if n == 0 then [] else FacePasses(loop, n - 1) + [PassFor(loop, n - 1)]
  }

  /** All six iterations. */
  function CubePasses(loop: FaceLoop): seq<Pass>
    requires LoopOk(loop)
  {
    FacePasses(loop, CubeFaces)
  }

  // ---------------------------------------------------------------------------
  // The schedules

  /** downsampleCubemap: six passes, face f of dst level dstMip from the six faces of src level srcMip. */
  function DownsampleCubemapPasses(src: nat, srcMip: nat, dst: nat, dstMip: nat): seq<Pass>
  {
    CubePasses(DownsampleLoop(src, srcMip, dst, dstMip))
  }

  /** Downsamples level i of `tex` into level i + 1, for i = 0 .. count - 1 in increasing order. */
  function MipChain(tex: nat, count: nat): seq<Pass>
  {
    if count == 0 then [] else MipChain(tex, count - 1) + DownsampleCubemapPasses(tex, count - 1, tex, count)
  }

  /** Importance-samples `source` into every face of levels 1 .. count of `dst`, level by level. */
  function ImportanceLevels(source: Texture, dst: nat, count: nat): seq<Pass>
  {
    if count == 0 then [] else ImportanceLevels(source, dst, count - 1) + CubePasses(ImportanceLoop(source, dst, count))
  }

  /** Iterations of `for (mip = 1; mip < numMips; mip++)`. */
  function ChainLength(numMips: nat): nat
  {
    if numMips == 0 then 0 else numMips - 1
  }

  /**
   * filterCubemapForSpecular: copy level 0 into the scratch cube map, box-filter the
   * scratch levels, importance-sample the scratch into the levels of the cube map,
   * then unbind the render target.
   */
  function SpecularPasses(cubemap: Texture, scratch: Texture): seq<Pass>
  {
    var n := ChainLength(cubemap.desc.numMips);
    SpecularPrefilter(cubemap, scratch) + ImportanceLevels(scratch, cubemap.id, n) + [UnbindRenderTarget]
  }

  /** The box-filter phase of filterCubemapForSpecular. */
  function SpecularPrefilter(cubemap: Texture, scratch: Texture): seq<Pass>
  {
    CubePasses(CopyLoop(cubemap.id, 0, scratch.id, 0)) + MipChain(scratch.id, ChainLength(cubemap.desc.numMips))
  }

  /**
   * filterCubemapForIrradiance into a texture: six SH compute passes into the
   * coefficient-set buffer, one reduce into entry 0 of the coefficient buffer, six
   * projections into level 0 of `output`.
   */
  function IrradiancePasses(cubemap: Texture, coeffSets: nat, coeffs: nat, output: nat): seq<Pass>
    requires cubemap.desc.width == cubemap.desc.height
  {
    CubePasses(ComputeLoop(Order5, cubemap, coeffSets))
      + [ReduceSH(Order5, coeffSets, CoeffSetCount(cubemap.desc.width), coeffs, 0)]
      + CubePasses(ProjectLoop(coeffs, output, 0))
  }

  /** filterCubemapForIrradiance into a buffer: six order-3 compute passes, one reduce into `output` at `outputIdx`. */
  function IrradianceToBufferPasses(cubemap: Texture, coeffSets: nat, output: nat, outputIdx: nat): seq<Pass>
    requires cubemap.desc.width == cubemap.desc.height
  {
    CubePasses(ComputeLoop(Order3, cubemap, coeffSets))
      + [ReduceSH(Order3, coeffSets, CoeffSetCount(cubemap.desc.width), output, outputIdx)]
  }

  /** log2(src width) - log2(dst width). */
  function ScaleLog2Diff(src: TextureDesc, dst: TextureDesc): int
    requires src.width >= 1 && dst.width >= 1
  {
    Log2Floor(src.width) - Log2Floor(dst.width)
  }

  /** The scratch cube map scaleCubemap creates when it shrinks by more than one level. */
  function ScaleScratchDesc(src: TextureDesc, dst: TextureDesc): TextureDesc
    requires src.width >= 1 && dst.width >= 1
    requires ScaleLog2Diff(src, dst) > 1
  {
    var mipSize := Pow2(Log2Floor(src.width) - 1);
    var numDownsamples := ScaleLog2Diff(src, dst) - 1;
    TextureDesc(mipSize, mipSize, numDownsamples - 1)
  }

  /** scaleCubemap, with `scratch` the id the scratch cube map gets when one is created. */
  function ScalePasses(src: Texture, srcMip: nat, dst: Texture, dstMip: nat, scratch: nat): seq<Pass>
    requires src.desc.width >= 1 && dst.desc.width >= 1
  {
    var diff := ScaleLog2Diff(src.desc, dst.desc);
    if diff > 1 then
      var chain := ScaleScratchDesc(src.desc, dst.desc).numMips;
      DownsampleCubemapPasses(src.id, srcMip, scratch, 0)
        + MipChain(scratch, chain)
        + DownsampleCubemapPasses(scratch, chain, dst.id, dstMip)
    else if diff == 0 then
      CubePasses(CopyLoop(src.id, srcMip, dst.id, dstMip))
    else
      DownsampleCubemapPasses(src.id, srcMip, dst.id, dstMip)
  }

  // ---------------------------------------------------------------------------
  // Properties of traces

  /** Every surface some pass of `t` writes. */
  function WrittenBy(t: seq<Pass>): set<Surface>
  {
    if t == [] then {} else WrittenBy(t[..|t| - 1]) + Writes(t[|t| - 1])
  }

  /** Each pass of `t` reads only surfaces in `ready` or written by an earlier pass. */
  predicate ReadsReady(ready: set<Surface>, t: seq<Pass>)
  {
    t == [] || (ReadsReady(ready, t[..|t| - 1]) && SurfaceReads(t[|t| - 1]) <= ready + WrittenBy(t[..|t| - 1]))
  }

  /** How many importance-sample passes of `t` render into `s`. */
  function ImportanceCount(t: seq<Pass>, s: Surface): nat
  {
    if t == [] then 0
    else ImportanceCount(t[..|t| - 1], s) + (if t[|t| - 1].ImportanceSample? && t[|t| - 1].target == s then 1 else 0)
  }

  /** Thread groups dispatched by the SH compute passes of `t`. */
  function GroupsDispatched(t: seq<Pass>): nat
  {
    if t == [] then 0
    else GroupsDispatched(t[..|t| - 1]) + (if t[|t| - 1].ComputeSH? then t[|t| - 1].dispatchX * t[|t| - 1].dispatchY else 0)
  }

  /** The six faces of levels lo .. hi of `tex`. */
  function CubeLevels(tex: nat, lo: nat, hi: nat): (levels: set<Surface>)
    ensures forall s :: s in levels <==> s.tex == tex && s.face < CubeFaces && lo <= s.mip <= hi
  {
    var levels := set f: nat, m: nat | f < CubeFaces && lo <= m <= hi :: Surface(tex, f, m);
    assert forall s: Surface :: s.tex == tex && s.face < CubeFaces && lo <= s.mip <= hi ==> s in levels by {
      forall s: Surface | s.tex == tex && s.face < CubeFaces && lo <= s.mip <= hi
        ensures s in levels
      {
        assert s == Surface(tex, s.face, s.mip);
      }
    }
    levels
  }

  // ---------------------------------------------------------------------------
  // Lemmas about concatenation

  lemma {:induction false} SnocSplit(a: seq<Pass>, b: seq<Pass>)
    requires b != []
    ensures (a + b)[..|a + b| - 1] == a + b[..|b| - 1]
    ensures (a + b)[|a + b| - 1] == b[|b| - 1]
  {
  }

  lemma {:induction false} WrittenByAppend(a: seq<Pass>, b: seq<Pass>)
    ensures WrittenBy(a + b) == WrittenBy(a) + WrittenBy(b)
    decreases |b|
  {
    if b == [] {
      assert a + b == a;
    } else {
      SnocSplit(a, b);
      WrittenByAppend(a, b[..|b| - 1]);
    }
  }

  lemma {:induction false} ReadsReadyAppend(ready: set<Surface>, a: seq<Pass>, b: seq<Pass>)
    ensures ReadsReady(ready, a + b) <==> ReadsReady(ready, a) && ReadsReady(ready + WrittenBy(a), b)
    decreases |b|
  {
    if b == [] {
      assert a + b == a;
    } else {
      SnocSplit(a, b);
      ReadsReadyAppend(ready, a, b[..|b| - 1]);
      WrittenByAppend(a, b[..|b| - 1]);
    }
  }

  lemma {:induction false} ImportanceCountAppend(a: seq<Pass>, b: seq<Pass>, s: Surface)
    ensures ImportanceCount(a + b, s) == ImportanceCount(a, s) + ImportanceCount(b, s)
    decreases |b|
  {
    if b == [] {
      assert a + b == a;
    } else {
      SnocSplit(a, b);
      ImportanceCountAppend(a, b[..|b| - 1], s);
    }
  }

  lemma {:induction false} GroupsDispatchedAppend(a: seq<Pass>, b: seq<Pass>)
    ensures GroupsDispatched(a + b) == GroupsDispatched(a) + GroupsDispatched(b)
    decreases |b|
  {
    if b == [] {
      assert a + b == a;
    } else {
      SnocSplit(a, b);
      GroupsDispatchedAppend(a, b[..|b| - 1]);
    }
  }

  // ---------------------------------------------------------------------------
  // Face loops

  /** Iteration k of a face loop issues the loop's pass for face k. */
  lemma {:induction false} FacePassesAt(loop: FaceLoop, n: nat)
    requires LoopOk(loop)
    ensures |FacePasses(loop, n)| == n
    ensures forall k :: 0 <= k < n ==> FacePasses(loop, n)[k] == PassFor(loop, k)
  {
    if n > 0 {
      FacePassesAt(loop, n - 1);
    }
  }

  /** A face loop that renders writes face f of its target level for each of its iterations, and nothing else. */
  lemma {:induction false} FacePassesWritten(loop: FaceLoop, n: nat)
    requires LoopOk(loop) && !loop.ComputeLoop?
    ensures forall s :: s in WrittenBy(FacePasses(loop, n)) <==> s.tex == loop.dst && s.face < n && s.mip == loop.dstMip
  {
    if n > 0 {
      FacePassesWritten(loop, n - 1);
      var t := FacePasses(loop, n);
      assert t[..|t| - 1] == FacePasses(loop, n - 1);
    }
  }

  /** A face loop whose passes all read from `ready` reads only ready surfaces. */
  lemma {:induction false} FacePassesReady(ready: set<Surface>, loop: FaceLoop, n: nat)
    requires LoopOk(loop)
    requires forall k: nat :: k < n ==> SurfaceReads(PassFor(loop, k)) <= ready
    ensures ReadsReady(ready, FacePasses(loop, n))
  {
    if n > 0 {
      FacePassesReady(ready, loop, n - 1);
      var t := FacePasses(loop, n);
      assert t[..|t| - 1] == FacePasses(loop, n - 1);
    }
  }

  lemma {:induction false} FacePassesImportanceCount(loop: FaceLoop, n: nat, s: Surface)
    requires LoopOk(loop)
    ensures ImportanceCount(FacePasses(loop, n), s)
              == if loop.ImportanceLoop? && s.tex == loop.dst && s.mip == loop.dstMip && s.face < n then 1 else 0
  {
    if n > 0 {
      FacePassesImportanceCount(loop, n - 1, s);
      var t := FacePasses(loop, n);
      assert t[..|t| - 1] == FacePasses(loop, n - 1);
    }
  }

  lemma {:induction false} FacePassesGroups(loop: FaceLoop, n: nat)
    requires LoopOk(loop) && loop.ComputeLoop?
    ensures GroupsDispatched(FacePasses(loop, n))
              == n * (DispatchSize(loop.source.desc.width).x * DispatchSize(loop.source.desc.width).y)
  {
    var d := DispatchSize(loop.source.desc.width);
    var groups := d.x * d.y;
    if n > 0 {
      FacePassesGroups(loop, n - 1);
      var t := FacePasses(loop, n);
      assert t[..|t| - 1] == FacePasses(loop, n - 1);
      var last := PassFor(loop, n - 1);
      assert last.dispatchX * last.dispatchY == groups;
      assert GroupsDispatched(t) == (n - 1) * groups + groups;
    }
  }

  // ---------------------------------------------------------------------------
  // downsampleCubemap

  /** Exactly six passes; pass f renders face f of dst level dstMip from all six faces of src level srcMip. */
  lemma DownsampleCubemapShape(src: nat, srcMip: nat, dst: nat, dstMip: nat)
    ensures |DownsampleCubemapPasses(src, srcMip, dst, dstMip)| == CubeFaces
    ensures forall f :: 0 <= f < CubeFaces ==>
              var p := DownsampleCubemapPasses(src, srcMip, dst, dstMip)[f];
              p.Downsample? && p.face == f && SurfaceReads(p) == CubeLevel(src, srcMip) && Writes(p) == {Surface(dst, f, dstMip)}
  {
    FacePassesAt(DownsampleLoop(src, srcMip, dst, dstMip), CubeFaces);
  }

  // ---------------------------------------------------------------------------
  // Mip chains

  /** Pass k of a chain renders face k % 6 of level k / 6 + 1 from level k / 6: levels are filled in increasing order. */
  lemma {:induction false} MipChainShape(tex: nat, count: nat)
    ensures |MipChain(tex, count)| == CubeFaces * count
    ensures forall k :: 0 <= k < CubeFaces * count ==>
              MipChain(tex, count)[k]
                == Downsample(tex, k / CubeFaces, k % CubeFaces, Surface(tex, k % CubeFaces, k / CubeFaces + 1))
  {
    if count > 0 {
      MipChainShape(tex, count - 1);
      var loop := DownsampleLoop(tex, count - 1, tex, count);
      FacePassesAt(loop, CubeFaces);
      var prefix := MipChain(tex, count - 1);
      var t := MipChain(tex, count);
      forall k | CubeFaces * (count - 1) <= k < CubeFaces * count
        ensures t[k] == Downsample(tex, k / CubeFaces, k % CubeFaces, Surface(tex, k % CubeFaces, k / CubeFaces + 1))
      {
        var j := k - CubeFaces * (count - 1);
        assert k / CubeFaces == count - 1 && k % CubeFaces == j;
        assert t[k] == CubePasses(loop)[j];
      }
    }
  }

  /** A chain of `count` steps writes every face of levels 1 .. count and nothing else. */
  lemma {:induction false} MipChainWritten(tex: nat, count: nat)
    ensures WrittenBy(MipChain(tex, count)) == CubeLevels(tex, 1, count)
  {
    if count > 0 {
      MipChainWritten(tex, count - 1);
      FacePassesWritten(DownsampleLoop(tex, count - 1, tex, count), CubeFaces);
      WrittenByAppend(MipChain(tex, count - 1), DownsampleCubemapPasses(tex, count - 1, tex, count));
    }
  }

  /** Once level 0 is in place, every step of a chain reads a level already written. */
  lemma {:induction false} MipChainReady(ready: set<Surface>, tex: nat, count: nat)
    requires CubeLevel(tex, 0) <= ready
    ensures ReadsReady(ready, MipChain(tex, count))
  {
    if count > 0 {
      var prefix := MipChain(tex, count - 1);
      MipChainReady(ready, tex, count - 1);
      MipChainWritten(tex, count - 1);
      var loop := DownsampleLoop(tex, count - 1, tex, count);
      FacePassesReady(ready + WrittenBy(prefix), loop, CubeFaces);
      ReadsReadyAppend(ready, prefix, CubePasses(loop));
    }
  }

  lemma {:induction false} MipChainImportanceCount(tex: nat, count: nat, s: Surface)
    ensures ImportanceCount(MipChain(tex, count), s) == 0
  {
    if count > 0 {
      MipChainImportanceCount(tex, count - 1, s);
      FacePassesImportanceCount(DownsampleLoop(tex, count - 1, tex, count), CubeFaces, s);
      ImportanceCountAppend(MipChain(tex, count - 1), DownsampleCubemapPasses(tex, count - 1, tex, count), s);
    }
  }

  // ---------------------------------------------------------------------------
  // Importance sampling of levels 1 .. count

  /** Pass k renders face k % 6 of level k / 6 + 1, telling the shader the source's level count. */
  lemma {:induction false} ImportanceLevelsShape(source: Texture, dst: nat, count: nat)
    ensures |ImportanceLevels(source, dst, count)| == CubeFaces * count
    ensures forall k :: 0 <= k < CubeFaces * count ==>
              ImportanceLevels(source, dst, count)[k]
                == ImportanceSample(source.id, k % CubeFaces, k / CubeFaces + 1, source.desc.numMips + 1,
                                    Surface(dst, k % CubeFaces, k / CubeFaces + 1))
  {
    if count > 0 {
      ImportanceLevelsShape(source, dst, count - 1);
      var loop := ImportanceLoop(source, dst, count);
      FacePassesAt(loop, CubeFaces);
      var t := ImportanceLevels(source, dst, count);
      forall k | CubeFaces * (count - 1) <= k < CubeFaces * count
        ensures t[k] == ImportanceSample(source.id, k % CubeFaces, k / CubeFaces + 1, source.desc.numMips + 1,
                                         Surface(dst, k % CubeFaces, k / CubeFaces + 1))
      {
        var j := k - CubeFaces * (count - 1);
        assert k / CubeFaces == count - 1 && k % CubeFaces == j;
        assert t[k] == CubePasses(loop)[j];
      }
    }
  }

  lemma {:induction false} ImportanceLevelsWritten(source: Texture, dst: nat, count: nat)
    ensures WrittenBy(ImportanceLevels(source, dst, count)) == CubeLevels(dst, 1, count)
  {
    if count > 0 {
      ImportanceLevelsWritten(source, dst, count - 1);
      FacePassesWritten(ImportanceLoop(source, dst, count), CubeFaces);
      WrittenByAppend(ImportanceLevels(source, dst, count - 1), CubePasses(ImportanceLoop(source, dst, count)));
    }
  }

  /** Each face of each level 1 .. count of `dst` is importance-sampled exactly once; nothing else is. */
  lemma {:induction false} ImportanceLevelsCount(source: Texture, dst: nat, count: nat, s: Surface)
    ensures ImportanceCount(ImportanceLevels(source, dst, count), s)
              == if s.tex == dst && s.face < CubeFaces && 1 <= s.mip <= count then 1 else 0
  {
    if count > 0 {
      ImportanceLevelsCount(source, dst, count - 1, s);
      FacePassesImportanceCount(ImportanceLoop(source, dst, count), CubeFaces, s);
      ImportanceCountAppend(ImportanceLevels(source, dst, count - 1), CubePasses(ImportanceLoop(source, dst, count)), s);
    }
  }

  lemma {:induction false} ImportanceLevelsReady(ready: set<Surface>, source: Texture, dst: nat, count: nat)
    ensures ReadsReady(ready, ImportanceLevels(source, dst, count))
  {
    if count > 0 {
      ImportanceLevelsReady(ready, source, dst, count - 1);
      var prefix := ImportanceLevels(source, dst, count - 1);
      FacePassesReady(ready + WrittenBy(prefix), ImportanceLoop(source, dst, count), CubeFaces);
      ReadsReadyAppend(ready, prefix, CubePasses(ImportanceLoop(source, dst, count)));
    }
  }

  // ---------------------------------------------------------------------------
  // filterCubemapForSpecular

  /**
   * Starting from level 0 of the cube map, every copy and downsample reads a surface
   * that is an input or was written before it.
   */
  lemma SpecularReadsReady(cubemap: Texture, scratch: Texture)
    ensures ReadsReady(CubeLevel(cubemap.id, 0), SpecularPasses(cubemap, scratch))
  {
    var ready := CubeLevel(cubemap.id, 0);
    var n := ChainLength(cubemap.desc.numMips);
    var copies := CubePasses(CopyLoop(cubemap.id, 0, scratch.id, 0));
    var chain := MipChain(scratch.id, n);
    var importance := ImportanceLevels(scratch, cubemap.id, n);
    FacePassesReady(ready, CopyLoop(cubemap.id, 0, scratch.id, 0), CubeFaces);
    FacePassesWritten(CopyLoop(cubemap.id, 0, scratch.id, 0), CubeFaces);
    MipChainReady(ready + WrittenBy(copies), scratch.id, n);
    ReadsReadyAppend(ready, copies, chain);
    ImportanceLevelsReady(ready + WrittenBy(copies + chain), scratch, cubemap.id, n);
    ReadsReadyAppend(ready, copies + chain, importance);
    var before := ready + WrittenBy(copies + chain + importance);
    assert ReadsReady(before, [UnbindRenderTarget]) by {
      assert [UnbindRenderTarget][..0] == [];
      assert ReadsReady(before, []);
      assert SurfaceReads(UnbindRenderTarget) == {};
    }
    ReadsReadyAppend(ready, copies + chain + importance, [UnbindRenderTarget]);
  }

  /**
   * The box-filter phase writes every face of scratch levels 0 .. numMips - 1 (level 0
   * when the cube map has no mips) and nothing else.
   */
  lemma SpecularPrefilterWritten(cubemap: Texture, scratch: Texture)
    ensures WrittenBy(SpecularPrefilter(cubemap, scratch)) == CubeLevels(scratch.id, 0, ChainLength(cubemap.desc.numMips))
  {
    var n := ChainLength(cubemap.desc.numMips);
    FacePassesWritten(CopyLoop(cubemap.id, 0, scratch.id, 0), CubeFaces);
    MipChainWritten(scratch.id, n);
    WrittenByAppend(CubePasses(CopyLoop(cubemap.id, 0, scratch.id, 0)), MipChain(scratch.id, n));
  }

  /**
   * Every importance pass tells the shader that the scratch has all its levels
   * 0 .. scratch.numMips, but the box-filter phase never writes scratch levels
   * numMips .. scratch.numMips: those the shader may sample hold no filtered data.
   */
  lemma SpecularSamplesUnfilteredLevels(cubemap: Texture, scratch: Texture)
    requires 1 <= cubemap.desc.numMips
    ensures var imp := ImportanceLevels(scratch, cubemap.id, ChainLength(cubemap.desc.numMips));
            forall k :: 0 <= k < |imp| ==> imp[k].ImportanceSample? && imp[k].srcTex == scratch.id && imp[k].numMips == scratch.desc.numMips + 1
    ensures forall s: Surface :: s.tex == scratch.id && cubemap.desc.numMips <= s.mip ==>
              s !in WrittenBy(SpecularPrefilter(cubemap, scratch))
  {
    SpecularPrefilterWritten(cubemap, scratch);
    ImportanceLevelsShape(scratch, cubemap.id, ChainLength(cubemap.desc.numMips));
  }

  /**
   * The whole schedule writes scratch levels 0 .. numMips - 1 and cube-map levels
   * 1 .. numMips - 1. With a distinct scratch, level 0 of the cube map and its last
   * level numMips are never written.
   */
  lemma SpecularWritten(cubemap: Texture, scratch: Texture)
    ensures forall s :: s in WrittenBy(SpecularPasses(cubemap, scratch)) <==>
              s in CubeLevels(scratch.id, 0, ChainLength(cubemap.desc.numMips))
              || s in CubeLevels(cubemap.id, 1, ChainLength(cubemap.desc.numMips))
    ensures scratch.id != cubemap.id ==>
              forall s :: s in WrittenBy(SpecularPasses(cubemap, scratch)) && s.tex == cubemap.id ==>
                1 <= s.mip < cubemap.desc.numMips
  {
    var n := ChainLength(cubemap.desc.numMips);
    var prefilter := SpecularPrefilter(cubemap, scratch);
    var importance := ImportanceLevels(scratch, cubemap.id, n);
    SpecularPrefilterWritten(cubemap, scratch);
    ImportanceLevelsWritten(scratch, cubemap.id, n);
    WrittenByAppend(prefilter, importance);
    assert WrittenBy([UnbindRenderTarget]) == {} by {
      assert [UnbindRenderTarget][..0] == [];
    }
    WrittenByAppend(prefilter + importance, [UnbindRenderTarget]);
  }

  /** Every face of every level 1 .. numMips - 1 of the cube map is importance-sampled exactly once; nothing else is. */
  lemma SpecularImportanceOnce(cubemap: Texture, scratch: Texture, s: Surface)
    ensures ImportanceCount(SpecularPasses(cubemap, scratch), s)
              == if s.tex == cubemap.id && s.face < CubeFaces && 1 <= s.mip < cubemap.desc.numMips then 1 else 0
  {
    var n := ChainLength(cubemap.desc.numMips);
    var copies := CubePasses(CopyLoop(cubemap.id, 0, scratch.id, 0));
    var chain := MipChain(scratch.id, n);
    var importance := ImportanceLevels(scratch, cubemap.id, n);
    FacePassesImportanceCount(CopyLoop(cubemap.id, 0, scratch.id, 0), CubeFaces, s);
    MipChainImportanceCount(scratch.id, n, s);
    ImportanceLevelsCount(scratch, cubemap.id, n, s);
    ImportanceCountAppend(copies, chain, s);
    ImportanceCountAppend(copies + chain, importance, s);
    assert ImportanceCount([UnbindRenderTarget], s) == 0 by {
      assert [UnbindRenderTarget][..0] == [];
    }
    ImportanceCountAppend(copies + chain + importance, [UnbindRenderTarget], s);
  }

  /**
   * The schedule starts with the six level-0 copies into the scratch, runs every
   * importance-sample pass after every copy and downsample, and ends by unbinding
   * the render target.
   */
  lemma SpecularOrder(cubemap: Texture, scratch: Texture)
    ensures var t := SpecularPasses(cubemap, scratch);
            && |t| == CubeFaces * (1 + 2 * ChainLength(cubemap.desc.numMips)) + 1
            && (forall k :: 0 <= k < CubeFaces ==> t[k] == CopyFace(Surface(cubemap.id, k, 0), Surface(scratch.id, k, 0)))
            && (forall i, j :: 0 <= i < j < |t| && t[i].ImportanceSample? ==> !t[j].Downsample? && !t[j].CopyFace?)
            && t[|t| - 1] == UnbindRenderTarget
  {
    var n := ChainLength(cubemap.desc.numMips);
    var copies := CubePasses(CopyLoop(cubemap.id, 0, scratch.id, 0));
    var chain := MipChain(scratch.id, n);
    var importance := ImportanceLevels(scratch, cubemap.id, n);
    FacePassesAt(CopyLoop(cubemap.id, 0, scratch.id, 0), CubeFaces);
    MipChainShape(scratch.id, n);
    ImportanceLevelsShape(scratch, cubemap.id, n);
    var t := SpecularPasses(cubemap, scratch);
    assert t == copies + chain + importance + [UnbindRenderTarget];
    var a := |copies| + |chain|;
    forall k | 0 <= k < a
      ensures !t[k].ImportanceSample?
    {
      if k < |copies| {
        assert t[k] == copies[k];
      } else {
        assert t[k] == chain[k - |copies|];
      }
    }
    forall k | a <= k < |t|
      ensures !t[k].Downsample? && !t[k].CopyFace?
    {
      if k < a + |importance| {
        assert t[k] == importance[k - a];
      }
    }
  }

  // ---------------------------------------------------------------------------
  // scaleCubemap

  /**
   * When the destination is more than one level smaller, the scratch chain ends at a
   * level exactly twice the destination size (for a power-of-two destination), so the
   * final downsample halves it to the destination size.
   */
  lemma ScaleChainEndsAboveDestination(src: TextureDesc, dst: TextureDesc)
    requires src.width >= 1 && dst.width >= 1
    requires ScaleLog2Diff(src, dst) > 1
    ensures var scratch := ScaleScratchDesc(src, dst);
            && MipWidth(scratch.width, scratch.numMips) == Pow2(Log2Floor(dst.width) + 1)
            && Log2Floor(MipWidth(scratch.width, scratch.numMips)) == Log2Floor(dst.width) + 1
            && Pow2(Log2Floor(dst.width)) <= dst.width < MipWidth(scratch.width, scratch.numMips)
  {
    var s := Log2Floor(src.width);
    var d := Log2Floor(dst.width);
    var scratch := ScaleScratchDesc(src, dst);
    assert scratch.width == Pow2(s - 1) && scratch.numMips == s - d - 2;
    MipWidthOfPow2(s - 1, s - d - 2);
    assert s - 1 - (s - d - 2) == d + 1;
    Log2FloorOfPow2(d + 1);
  }

  /**
   * scaleCubemap writes all six faces of dst level dstMip, plus, when it shrinks by
   * more than a level, every face of scratch levels 0 .. numMips -- all levels the
   * scratch has -- and nothing else.
   */
  lemma ScaleWritten(src: Texture, srcMip: nat, dst: Texture, dstMip: nat, scratch: nat)
    requires src.desc.width >= 1 && dst.desc.width >= 1
    ensures forall s :: s in WrittenBy(ScalePasses(src, srcMip, dst, dstMip, scratch)) <==>
              (s.tex == dst.id && s.face < CubeFaces && s.mip == dstMip)
              || (ScaleLog2Diff(src.desc, dst.desc) > 1 && s.tex == scratch && s.face < CubeFaces
                  && HasLevel(ScaleScratchDesc(src.desc, dst.desc), s.mip))
  {
    var diff := ScaleLog2Diff(src.desc, dst.desc);
    if diff > 1 {
      var chain := ScaleScratchDesc(src.desc, dst.desc).numMips;
      var first := DownsampleCubemapPasses(src.id, srcMip, scratch, 0);
      var last := DownsampleCubemapPasses(scratch, chain, dst.id, dstMip);
      FacePassesWritten(DownsampleLoop(src.id, srcMip, scratch, 0), CubeFaces);
      MipChainWritten(scratch, chain);
      FacePassesWritten(DownsampleLoop(scratch, chain, dst.id, dstMip), CubeFaces);
      WrittenByAppend(first, MipChain(scratch, chain));
      WrittenByAppend(first + MipChain(scratch, chain), last);
    } else if diff == 0 {
      FacePassesWritten(CopyLoop(src.id, srcMip, dst.id, dstMip), CubeFaces);
    } else {
      FacePassesWritten(DownsampleLoop(src.id, srcMip, dst.id, dstMip), CubeFaces);
    }
  }

  /** Starting from level srcMip of the source, every pass reads a surface already written. */
  lemma ScaleReadsReady(src: Texture, srcMip: nat, dst: Texture, dstMip: nat, scratch: nat)
    requires src.desc.width >= 1 && dst.desc.width >= 1
    ensures ReadsReady(CubeLevel(src.id, srcMip), ScalePasses(src, srcMip, dst, dstMip, scratch))
  {
    var ready := CubeLevel(src.id, srcMip);
    var diff := ScaleLog2Diff(src.desc, dst.desc);
    if diff > 1 {
      var chain := ScaleScratchDesc(src.desc, dst.desc).numMips;
      var first := DownsampleCubemapPasses(src.id, srcMip, scratch, 0);
      var middle := MipChain(scratch, chain);
      var last := DownsampleCubemapPasses(scratch, chain, dst.id, dstMip);
      FacePassesReady(ready, DownsampleLoop(src.id, srcMip, scratch, 0), CubeFaces);
      FacePassesWritten(DownsampleLoop(src.id, srcMip, scratch, 0), CubeFaces);
      MipChainReady(ready + WrittenBy(first), scratch, chain);
      ReadsReadyAppend(ready, first, middle);
      MipChainWritten(scratch, chain);
      WrittenByAppend(first, middle);
      FacePassesReady(ready + WrittenBy(first + middle), DownsampleLoop(scratch, chain, dst.id, dstMip), CubeFaces);
      ReadsReadyAppend(ready, first + middle, last);
    } else if diff == 0 {
      FacePassesReady(ready, CopyLoop(src.id, srcMip, dst.id, dstMip), CubeFaces);
    } else {
      FacePassesReady(ready, DownsampleLoop(src.id, srcMip, dst.id, dstMip), CubeFaces);
    }
  }

  /** Six passes per level of size difference when shrinking by more than a level, six otherwise. */
  lemma ScalePassCount(src: Texture, srcMip: nat, dst: Texture, dstMip: nat, scratch: nat)
    requires src.desc.width >= 1 && dst.desc.width >= 1
    ensures var diff := ScaleLog2Diff(src.desc, dst.desc);
            |ScalePasses(src, srcMip, dst, dstMip, scratch)| == CubeFaces * (if diff > 1 then diff else 1)
  {
    var diff := ScaleLog2Diff(src.desc, dst.desc);
    if diff > 1 {
      var chain := ScaleScratchDesc(src.desc, dst.desc).numMips;
      FacePassesAt(DownsampleLoop(src.id, srcMip, scratch, 0), CubeFaces);
      MipChainShape(scratch, chain);
      FacePassesAt(DownsampleLoop(scratch, chain, dst.id, dstMip), CubeFaces);
    } else if diff == 0 {
      FacePassesAt(CopyLoop(src.id, srcMip, dst.id, dstMip), CubeFaces);
    } else {
      FacePassesAt(DownsampleLoop(src.id, srcMip, dst.id, dstMip), CubeFaces);
    }
  }

  // ---------------------------------------------------------------------------
  // filterCubemapForIrradiance

  /** The six compute passes dispatch exactly one thread group per coefficient set the buffer holds. */
  lemma {:induction false} ComputeGroupsMatchCoeffSets(order: ShOrder, cubemap: Texture, coeffSets: nat)
    requires cubemap.desc.width == cubemap.desc.height
    ensures GroupsDispatched(CubePasses(ComputeLoop(order, cubemap, coeffSets))) == CoeffSetCount(cubemap.desc.width)
  {
    FacePassesGroups(ComputeLoop(order, cubemap, coeffSets), CubeFaces);
  }

  /**
   * Into a texture: six SH compute passes into the coefficient-set buffer, then one
   * reduce of exactly the sets they produced into entry 0 of the coefficient buffer,
   * then six projections, pass f writing face f of level 0; nothing else is written.
   */
  lemma IrradianceSchedule(cubemap: Texture, coeffSets: nat, coeffs: nat, output: nat)
    requires cubemap.desc.width == cubemap.desc.height
    ensures var t := IrradiancePasses(cubemap, coeffSets, coeffs, output);
            && |t| == 2 * CubeFaces + 1
            && (forall k :: 0 <= k < CubeFaces ==> t[k] == ComputeSHPass(Order5, cubemap, k, coeffSets))
            && t[CubeFaces] == ReduceSH(Order5, coeffSets, GroupsDispatched(t[..CubeFaces]), coeffs, 0)
            && (forall k :: 0 <= k < CubeFaces ==> t[CubeFaces + 1 + k] == ProjectSH(coeffs, k, Surface(output, k, 0)))
            && (forall s :: s in WrittenBy(t) <==> s.tex == output && s.face < CubeFaces && s.mip == 0)
  {
    var compute := CubePasses(ComputeLoop(Order5, cubemap, coeffSets));
    var reduce := ReduceSH(Order5, coeffSets, CoeffSetCount(cubemap.desc.width), coeffs, 0);
    var project := CubePasses(ProjectLoop(coeffs, output, 0));
    var t := IrradiancePasses(cubemap, coeffSets, coeffs, output);
    FacePassesAt(ComputeLoop(Order5, cubemap, coeffSets), CubeFaces);
    FacePassesAt(ProjectLoop(coeffs, output, 0), CubeFaces);
    assert t[..CubeFaces] == compute;
    ComputeGroupsMatchCoeffSets(Order5, cubemap, coeffSets);
    assert WrittenBy(compute) == {} by {
      ComputeWritesNothing(ComputeLoop(Order5, cubemap, coeffSets), CubeFaces);
    }
    assert WrittenBy([reduce]) == {} by {
      assert [reduce][..0] == [];
    }
    FacePassesWritten(ProjectLoop(coeffs, output, 0), CubeFaces);
    WrittenByAppend(compute, [reduce]);
    WrittenByAppend(compute + [reduce], project);
  }

  /** Into a buffer: six order-3 compute passes, then one reduce of exactly their sets into `output` at `outputIdx`. */
  lemma IrradianceToBufferSchedule(cubemap: Texture, coeffSets: nat, output: nat, outputIdx: nat)
    requires cubemap.desc.width == cubemap.desc.height
    ensures var t := IrradianceToBufferPasses(cubemap, coeffSets, output, outputIdx);
            && |t| == CubeFaces + 1
            && (forall k :: 0 <= k < CubeFaces ==> t[k] == ComputeSHPass(Order3, cubemap, k, coeffSets))
            && t[CubeFaces] == ReduceSH(Order3, coeffSets, GroupsDispatched(t[..CubeFaces]), output, outputIdx)
            && WrittenBy(t) == {}
  {
    var compute := CubePasses(ComputeLoop(Order3, cubemap, coeffSets));
    var t := IrradianceToBufferPasses(cubemap, coeffSets, output, outputIdx);
    FacePassesAt(ComputeLoop(Order3, cubemap, coeffSets), CubeFaces);
    assert t[..CubeFaces] == compute;
    ComputeGroupsMatchCoeffSets(Order3, cubemap, coeffSets);
    ComputeWritesNothing(ComputeLoop(Order3, cubemap, coeffSets), CubeFaces);
    assert t[..|t| - 1] == compute;
  }

  lemma {:induction false} ComputeWritesNothing(loop: FaceLoop, n: nat)
    requires LoopOk(loop) && loop.ComputeLoop?
    ensures WrittenBy(FacePasses(loop, n)) == {}
  {
    if n > 0 {
      ComputeWritesNothing(loop, n - 1);
      var t := FacePasses(loop, n);
      assert t[..|t| - 1] == FacePasses(loop, n - 1);
    }
  }
}
