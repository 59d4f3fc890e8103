/**
 * The graphics device as the image-based-lighting code uses it. The device itself
 * (render API, shaders, pixel data) is opaque: creating a texture or a buffer records
 * its description, and every draw, dispatch or copy is appended to a trace of passes.
 */
module Gpu {

  /** Number of faces of a cube map; every per-face loop of the IBL code runs over this many faces. */
  const CubeFaces: nat := 6

  /**
   * A cube-map description: base-level width and height in pixels, and the number of
   * mip levels below the base, so a texture has `numMips + 1` levels.
   */
  datatype TextureDesc = TextureDesc(width: nat, height: nat, numMips: nat)

  /** A texture the device created, identified by `id`. */
  datatype Texture = Texture(id: nat, desc: TextureDesc)

  /** Level `mip` exists in a texture with this description. */
  predicate HasLevel(desc: TextureDesc, mip: nat)
  {
    mip <= desc.numMips
  }

  /** Spherical-harmonic order of an irradiance material: the template argument ORDER, 3 or 5. */
  datatype ShOrder = Order3 | Order5

  /** Element layouts of the structured buffers (the shaders' structs, opaque here). */
  datatype ElementType = SHCoeffsAndWeight3 | SHCoeffsAndWeight5 | SHVector3RGB | SHVector5RGB

  /** A structured, GPU-writable buffer: how many elements and of which layout. */
  datatype BufferDesc = BufferDesc(elementCount: nat, elementType: ElementType)

  datatype Buffer = Buffer(id: nat, desc: BufferDesc)

  /** One face of one mip level of a texture. */
  datatype Surface = Surface(tex: nat, face: nat, mip: nat)

  /** The six faces of level `mip` of texture `tex`. */
  function CubeLevel(tex: nat, mip: nat): (level: set<Surface>)
    ensures forall s :: s in level <==> s.tex == tex && s.face < CubeFaces && s.mip == mip
  {
    set f: nat | f < CubeFaces :: Surface(tex, f, mip)
  }

  /** One unit of GPU work, with the parameters the IBL code gives it. */
  datatype Pass =
      /** Texture::copy of one face of one level. */
    | CopyFace(src: Surface, dst: Surface)
      /** Box-filter downsample: renders `target` from the six faces of level `srcMip` of `srcTex`. */
    | Downsample(srcTex: nat, srcMip: nat, face: nat, target: Surface)
      /** Importance-sampled specular filter of `srcTex` into `target`; `numMips` is the shader's level count. */
    | ImportanceSample(srcTex: nat, face: nat, mip: nat, numMips: nat, target: Surface)
      /** Compute dispatch of dispatchX x dispatchY thread groups that writes SH coefficient sets into buffer `output`. */
    | ComputeSH(order: ShOrder, srcTex: nat, face: nat, faceSize: nat, dispatchX: nat, dispatchY: nat, output: nat)
      /** One-group dispatch that sums `numEntries` coefficient sets of `input` into entry `outputIdx` of `output`. */
    | ReduceSH(order: ShOrder, input: nat, numEntries: nat, output: nat, outputIdx: nat)
      /** Renders face `face` of an irradiance map from the SH coefficients in buffer `input`. */
    | ProjectSH(input: nat, face: nat, target: Surface)
      /** Clears the bound render target. */
    | UnbindRenderTarget

  /**
   * The surfaces a pass names as its input: the copied face, and the six source
   * faces a downsample binds. The other passes bind whole textures or buffers.
   */
  function SurfaceReads(p: Pass): set<Surface>
  {
    match p
    case CopyFace(src, _) => {src}
    case Downsample(srcTex, srcMip, _, _) => CubeLevel(srcTex, srcMip)
    case _ => {}
  }

  /** The texture surface a pass renders or copies into. */
  function Writes(p: Pass): set<Surface>
  {
    match p
    case CopyFace(_, dst) => {dst}
    case Downsample(_, _, _, target) => {target}
    case ImportanceSample(_, _, _, _, target) => {target}
    case ProjectSH(_, _, target) => {target}
    case _ => {}
  }

  /** The device: textures and buffers it created (the id is the index) and the passes it ran, in order. */
  class Device {
    var textures: seq<TextureDesc>
    var buffers: seq<BufferDesc>
    var trace: seq<Pass>

    constructor ()
      ensures textures == [] && buffers == [] && trace == []
    {
      textures, buffers, trace := [], [], [];
    }

    /** `t` is a texture this device created. */
    predicate HasTexture(t: Texture)
      reads this
    {
      t.id < |textures| && textures[t.id] == t.desc
    }

    /** `b` is a buffer this device created. */
    predicate HasBuffer(b: Buffer)
      reads this
    {
      b.id < |buffers| && buffers[b.id] == b.desc
    }

    /** Texture::create: a new texture with a fresh id. */
    method CreateTexture(desc: TextureDesc) returns (t: Texture)
      modifies this
      ensures t == Texture(|old(textures)|, desc)
      ensures textures == old(textures) + [desc]
      ensures buffers == old(buffers) && trace == old(trace)
    {
      t := Texture(|textures|, desc);
      textures := textures + [desc];
    }

    /** GpuBuffer::create: a new buffer with a fresh id. */
    method CreateBuffer(desc: BufferDesc) returns (b: Buffer)
      modifies this
      ensures b == Buffer(|old(buffers)|, desc)
      ensures buffers == old(buffers) + [desc]
      ensures textures == old(textures) && trace == old(trace)
    {
      b := Buffer(|buffers|, desc);
      buffers := buffers + [desc];
    }

    /** Runs one pass. */
    method Submit(p: Pass)
      modifies this
      ensures trace == old(trace) + [p]
      ensures textures == old(textures) && buffers == old(buffers)
    {
      trace := trace + [p];
    }
  }
}
