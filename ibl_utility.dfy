/**
 * IBLUtility: the filtering operations as the step-by-step loops they are, each
 * running its passes on the device. Every method is proved to append exactly the
 * schedule of module IBLSchedule to the device's trace, so the lemmas proved there
 * hold of what the method does.
 */
module IBLUtility {
  import opened Wrappers
  import opened Gpu
  import opened IBLMath
  import opened IBLSchedule

  /** IrradianceComputeSHMat::createOutputBuffer: one coefficient set per thread group, element layout by order. */
  method CreateCoeffSetBuffer(device: Device, order: ShOrder, source: Texture) returns (buffer: Buffer, numCoeffSets: nat)
    requires source.desc.width == source.desc.height
    modifies device
    ensures numCoeffSets == buffer.desc.elementCount
    ensures var d := DispatchSize(source.desc.width); numCoeffSets == d.x * d.y * CubeFaces
    ensures buffer.desc.elementType == (if order == Order3 then SHCoeffsAndWeight3 else SHCoeffsAndWeight5)
    ensures buffer.id == |old(device.buffers)| && device.buffers == old(device.buffers) + [buffer.desc]
    ensures device.textures == old(device.textures) && device.trace == old(device.trace)
  {
    var faceSize := source.desc.width;
    var dispatchSize := DispatchSize(faceSize);
    numCoeffSets := dispatchSize.x * dispatchSize.y * CubeFaces;
    var elementType := if order == Order3 then SHCoeffsAndWeight3 else SHCoeffsAndWeight5;
    buffer := device.CreateBuffer(BufferDesc(numCoeffSets, elementType));
  }

  /** IrradianceReduceSHMat::createOutputBuffer: `numEntries` reduced coefficient vectors, layout by order. */
  method CreateReducedBuffer(device: Device, order: ShOrder, numEntries: nat) returns (buffer: Buffer)
    modifies device
    ensures buffer.desc.elementCount == numEntries
    ensures buffer.desc.elementType == (if order == Order3 then SHVector3RGB else SHVector5RGB)
    ensures buffer.id == |old(device.buffers)| && device.buffers == old(device.buffers) + [buffer.desc]
    ensures device.textures == old(device.textures) && device.trace == old(device.trace)
  {
    var elementType := if order == Order3 then SHVector3RGB else SHVector5RGB;
    buffer := device.CreateBuffer(BufferDesc(numEntries, elementType));
  }

  /** downsampleCubemap: renders each face of dst level dstMip from the six faces of src level srcMip. */
  method DownsampleCubemap(device: Device, src: Texture, srcMip: nat, dst: Texture, dstMip: nat)
    modifies device
    ensures device.trace == old(device.trace) + DownsampleCubemapPasses(src.id, srcMip, dst.id, dstMip)
    ensures device.textures == old(device.textures) && device.buffers == old(device.buffers)
  {
    var face := 0;
    while face < CubeFaces
      invariant face <= CubeFaces
      invariant device.trace == old(device.trace) + FacePasses(DownsampleLoop(src.id, srcMip, dst.id, dstMip), face)
      invariant device.textures == old(device.textures) && device.buffers == old(device.buffers)
    {
      device.Submit(Downsample(src.id, srcMip, face, Surface(dst.id, face, dstMip)));
      face := face + 1;
    }
  }

  /** The scratch cube map filterCubemapForSpecular uses: the one given, or a new one with `maxMips` levels. */
  function SpecularScratch(cubemap: Texture, scratch: Option<Texture>, maxMips: nat, nextId: nat): Texture
  {
    if scratch.Some? then scratch.value
    else Texture(nextId, TextureDesc(cubemap.desc.width, cubemap.desc.height, maxMips))
  }

  /**
   * filterCubemapForSpecular. `maxMips` is the full mip count for the cube map's size
   * and format, used only when a scratch cube map has to be created.
   */
  method FilterCubemapForSpecular(device: Device, cubemap: Texture, scratch: Option<Texture>, maxMips: nat)
    requires device.HasTexture(cubemap)
    modifies device
    ensures var used := SpecularScratch(cubemap, scratch, maxMips, |old(device.textures)|);
            && device.trace == old(device.trace) + SpecularPasses(cubemap, used)
            && (scratch.None? ==> used.id != cubemap.id && device.textures == old(device.textures) + [used.desc])
    ensures scratch.Some? ==> device.textures == old(device.textures)
    ensures device.buffers == old(device.buffers)
  {
    var scratchCubemap: Texture;
    if scratch.None? {
      scratchCubemap := device.CreateTexture(TextureDesc(cubemap.desc.width, cubemap.desc.height, maxMips));
    } else {
      scratchCubemap := scratch.value;
    }
    ghost var created := device.textures;
    var numMips := cubemap.desc.numMips;

    // Copy the base level into the scratch cube map
    var face := 0;
    while face < CubeFaces
      invariant face <= CubeFaces
      invariant device.trace == old(device.trace) + FacePasses(CopyLoop(cubemap.id, 0, scratchCubemap.id, 0), face)
      invariant device.textures == created && device.buffers == old(device.buffers)
    {
      device.Submit(CopyFace(Surface(cubemap.id, face, 0), Surface(scratchCubemap.id, face, 0)));
      face := face + 1;
    }

    // Fill the remaining scratch levels by downsampling
    var mip := 1;
    while mip < numMips
      invariant 1 <= mip <= if numMips == 0 then 1 else numMips
      invariant device.trace == old(device.trace) + CubePasses(CopyLoop(cubemap.id, 0, scratchCubemap.id, 0))
                                                  + MipChain(scratchCubemap.id, mip - 1)
      invariant device.textures == created && device.buffers == old(device.buffers)
    {
      DownsampleCubemap(device, scratchCubemap, mip - 1, scratchCubemap, mip);
      mip := mip + 1;
    }
    ghost var prefilter := device.trace;
    assert mip - 1 == ChainLength(numMips);
    assert prefilter == old(device.trace) + SpecularPrefilter(cubemap, scratchCubemap);

    // Importance sample
    ImportanceSampleLevels(device, scratchCubemap, cubemap, numMips);
    assert device.textures == created;

    device.Submit(UnbindRenderTarget);
    assert SpecularScratch(cubemap, scratch, maxMips, |old(device.textures)|) == scratchCubemap;
  }

  /** The importance-sample loop of filterCubemapForSpecular: levels 1 .. numMips - 1, six faces each. */
  method ImportanceSampleLevels(device: Device, scratchCubemap: Texture, cubemap: Texture, numMips: nat)
    modifies device
    ensures device.trace == old(device.trace) + ImportanceLevels(scratchCubemap, cubemap.id, ChainLength(numMips))
    ensures device.textures == old(device.textures) && device.buffers == old(device.buffers)
  {
    var mip := 1;
    while mip < numMips
      invariant 1 <= mip <= if numMips == 0 then 1 else numMips
      invariant device.trace == old(device.trace) + ImportanceLevels(scratchCubemap, cubemap.id, mip - 1)
      invariant device.textures == old(device.textures) && device.buffers == old(device.buffers)
    {
      ghost var level := device.trace;
      var face := 0;
      while face < CubeFaces
        invariant face <= CubeFaces
        invariant device.trace == level + FacePasses(ImportanceLoop(scratchCubemap, cubemap.id, mip), face)
        invariant device.textures == old(device.textures) && device.buffers == old(device.buffers)
      {
        device.Submit(ImportanceSamplePass(scratchCubemap, face, mip, Surface(cubemap.id, face, mip)));
        face := face + 1;
      }
      mip := mip + 1;
    }
  }

  /** filterCubemapForIrradiance into an irradiance cube map: order-5 SH projection and reconstruction. */
  method FilterCubemapForIrradiance(device: Device, cubemap: Texture, output: Texture)
    requires cubemap.desc.width == cubemap.desc.height
    modifies device
    ensures var first := |old(device.buffers)|;
            && device.buffers == old(device.buffers) + [CoeffSetBufferDesc(Order5, cubemap.desc.width), ReducedBufferDesc(Order5, 1)]
            && device.trace == old(device.trace) + IrradiancePasses(cubemap, first, first + 1, output.id)
    ensures device.textures == old(device.textures)
  {
    var coeffSetBuffer, numCoeffSets := CreateCoeffSetBuffer(device, Order5, cubemap);
    var face := 0;
    while face < CubeFaces
      invariant face <= CubeFaces
      invariant device.trace == old(device.trace) + FacePasses(ComputeLoop(Order5, cubemap, coeffSetBuffer.id), face)
      invariant device.textures == old(device.textures) && device.buffers == old(device.buffers) + [coeffSetBuffer.desc]
    {
      device.Submit(ComputeSHPass(Order5, cubemap, face, coeffSetBuffer.id));
      face := face + 1;
    }

    var coeffBuffer := CreateReducedBuffer(device, Order5, 1);
    device.Submit(ReduceSH(Order5, coeffSetBuffer.id, numCoeffSets, coeffBuffer.id, 0));
    ghost var reduced := device.trace;

    face := 0;
    while face < CubeFaces
      invariant face <= CubeFaces
      invariant device.trace == reduced + FacePasses(ProjectLoop(coeffBuffer.id, output.id, 0), face)
      invariant device.textures == old(device.textures)
      invariant device.buffers == old(device.buffers) + [coeffSetBuffer.desc, coeffBuffer.desc]
    {
      device.Submit(ProjectSH(coeffBuffer.id, face, Surface(output.id, face, 0)));
      face := face + 1;
    }
  }

  /** filterCubemapForIrradiance into entry `outputIdx` of an existing buffer: order-3 SH coefficients. */
  method FilterCubemapForIrradianceToBuffer(device: Device, cubemap: Texture, output: Buffer, outputIdx: nat)
    requires cubemap.desc.width == cubemap.desc.height
    requires device.HasBuffer(output)
    modifies device
    ensures |old(device.buffers)| != output.id
    ensures device.buffers == old(device.buffers) + [CoeffSetBufferDesc(Order3, cubemap.desc.width)]
    ensures device.trace == old(device.trace) + IrradianceToBufferPasses(cubemap, |old(device.buffers)|, output.id, outputIdx)
    ensures device.textures == old(device.textures)
  {
    var coeffSetBuffer, numCoeffSets := CreateCoeffSetBuffer(device, Order3, cubemap);
    var face := 0;
    while face < CubeFaces
      invariant face <= CubeFaces
      invariant device.trace == old(device.trace) + FacePasses(ComputeLoop(Order3, cubemap, coeffSetBuffer.id), face)
      invariant device.textures == old(device.textures) && device.buffers == old(device.buffers) + [coeffSetBuffer.desc]
    {
      device.Submit(ComputeSHPass(Order3, cubemap, face, coeffSetBuffer.id));
      face := face + 1;
    }
    device.Submit(ReduceSH(Order3, coeffSetBuffer.id, numCoeffSets, output.id, outputIdx));
  }

  /**
   * scaleCubemap: copies when the sizes match, downsamples once when they differ by
   * one level (or the destination is larger), and otherwise first builds a scratch
   * chain that ends one level above the destination size.
   */
  method ScaleCubemap(device: Device, src: Texture, srcMip: nat, dst: Texture, dstMip: nat)
    requires src.desc.width >= 1 && dst.desc.width >= 1
    requires device.HasTexture(src) && device.HasTexture(dst)
    modifies device
    ensures |old(device.textures)| != src.id && |old(device.textures)| != dst.id
    ensures device.trace == old(device.trace) + ScalePasses(src, srcMip, dst, dstMip, |old(device.textures)|)
    ensures device.textures == if ScaleLog2Diff(src.desc, dst.desc) > 1
                               then old(device.textures) + [ScaleScratchDesc(src.desc, dst.desc)]
                               else old(device.textures)
    ensures device.buffers == old(device.buffers)
  {
    assert src.id < |device.textures| && dst.id < |device.textures|;
    var scratchTex := src;
    var sourceMip := srcMip;
    var sizeSrcLog2: int := Log2Floor(src.desc.width);
    var sizeDstLog2: int := Log2Floor(dst.desc.width);
    var sizeLog2Diff: int := sizeSrcLog2 - sizeDstLog2;

    if sizeLog2Diff > 1 {
      var mipSize := Pow2(sizeSrcLog2 - 1);
      var numDownsamples := sizeLog2Diff - 1;
      var cubemapDesc := TextureDesc(mipSize, mipSize, numDownsamples - 1);
      scratchTex := device.CreateTexture(cubemapDesc);

      DownsampleCubemap(device, src, sourceMip, scratchTex, 0);
      ghost var first := device.trace;
      var i := 0;
      while i < cubemapDesc.numMips
        invariant i <= cubemapDesc.numMips
        invariant device.trace == first + MipChain(scratchTex.id, i)
        invariant device.textures == old(device.textures) + [cubemapDesc] && device.buffers == old(device.buffers)
      {
        DownsampleCubemap(device, scratchTex, i, scratchTex, i + 1);
        i := i + 1;
      }
      sourceMip := cubemapDesc.numMips;
    }

    if sizeSrcLog2 == sizeDstLog2 {
      ghost var start := device.trace;
      var face := 0;
      while face < CubeFaces
        invariant face <= CubeFaces
        invariant device.trace == start + FacePasses(CopyLoop(src.id, sourceMip, dst.id, dstMip), face)
        invariant device.textures == old(device.textures) && device.buffers == old(device.buffers)
      {
        device.Submit(CopyFace(Surface(src.id, face, sourceMip), Surface(dst.id, face, dstMip)));
        face := face + 1;
      }
    } else {
      DownsampleCubemap(device, scratchTex, sourceMip, dst, dstMip);
    }
  }
}
