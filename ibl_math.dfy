/**
 * Integer arithmetic of the IBL pipeline: powers of two and their logarithm (standing
 * for the float log2/exp2 of the cube-map scaler), mip-level widths, the compute
 * dispatch size of the SH projection and the sizes of its structured buffers.
 */
module IBLMath {
  import opened Gpu

  /** Thread-group tile of the SH compute shader, and the pixels each thread handles along an axis. */
  const TileWidth: nat := 8
  const TileHeight: nat := 8
  const PixelsPerThread: nat := 4

  function Pow2(k: nat): (r: nat)
    ensures r >= 1
  {
    if k == 0 then 1 else 2 * Pow2(k - 1)
  }

  /** `(int)log2((float)n)` for a positive width: the largest k with 2^k <= n. */
  function Log2Floor(n: nat): (r: nat)
    requires n >= 1
    ensures Pow2(r) <= n < Pow2(r + 1)
    decreases n
  {
    if n == 1 then 0 else 1 + Log2Floor(n / 2)
  }

  lemma {:induction false} Log2FloorOfPow2(k: nat)
    ensures Log2Floor(Pow2(k)) == k
  {
    if k > 0 {
      assert Pow2(k) / 2 == Pow2(k - 1);
      Log2FloorOfPow2(k - 1);
    }
  }

  /** Width of level `mip` of a texture whose base is `width` wide: halved per level, never below one. */
  function MipWidth(width: nat, mip: nat): nat
  {
    if mip == 0 then width
    else var half := MipWidth(width, mip - 1) / 2; if half == 0 then 1 else half
  }

  /** Below a power-of-two base, level m is exactly 2^(k-m) wide. */
  lemma {:induction false} MipWidthOfPow2(k: nat, m: nat)
    requires m <= k
    ensures MipWidth(Pow2(k), m) == Pow2(k - m)
  {
    if m > 0 {
      MipWidthOfPow2(k, m - 1);
      assert Pow2(k - (m - 1)) == 2 * Pow2(k - m);
    }
  }

  /** Math::divideAndRoundUp: the number of blocks of `d` that cover `n`, with none to spare. */
  function DivideAndRoundUp(n: nat, d: nat): (r: nat)
    requires d > 0
    ensures r * d >= n
    ensures (r - 1) * d < n
  {
    var q := (n + d - 1) / d;
    assert n + d - 1 == q * d + (n + d - 1) % d;
    q
  }

  datatype Dispatch = Dispatch(x: nat, y: nat)

  /** Thread groups dispatched over one face: each group covers a tile of 8x8 threads of 4x4 pixels. */
  function DispatchSize(faceSize: nat): (d: Dispatch)
    ensures d.x * (TileWidth * PixelsPerThread) >= faceSize > (d.x - 1) * (TileWidth * PixelsPerThread)
    ensures d.y * (TileHeight * PixelsPerThread) >= faceSize > (d.y - 1) * (TileHeight * PixelsPerThread)
  {
    Dispatch(DivideAndRoundUp(faceSize, TileWidth * PixelsPerThread),
             DivideAndRoundUp(faceSize, TileHeight * PixelsPerThread))
  }

  /** Number of coefficient sets the SH compute pass writes for a cube map: one per thread group, six faces. */
  function CoeffSetCount(faceSize: nat): nat
  {
    var d := DispatchSize(faceSize);
    d.x * d.y * CubeFaces
  }

  /** Element layout of the coefficient-set buffer for an SH order. */
  function CoeffSetElement(order: ShOrder): ElementType
  {
    if order == Order3 then SHCoeffsAndWeight3 else SHCoeffsAndWeight5
  }

  /** Element layout of the reduced coefficient buffer for an SH order. */
  function ReducedElement(order: ShOrder): ElementType
  {
    if order == Order3 then SHVector3RGB else SHVector5RGB
  }

  /** IrradianceComputeSHMat::createOutputBuffer's description. */
  function CoeffSetBufferDesc(order: ShOrder, faceSize: nat): BufferDesc
  {
    BufferDesc(CoeffSetCount(faceSize), CoeffSetElement(order))
  }

  /** IrradianceReduceSHMat::createOutputBuffer's description. */
  function ReducedBufferDesc(order: ShOrder, numEntries: nat): BufferDesc
  {
    BufferDesc(numEntries, ReducedElement(order))
  }

  lemma MulMono(a: nat, b: nat, c: nat, d: nat)
    requires a <= c && b <= d
    ensures a * b <= c * d
  {
  }

  /**
   * The coefficient sets cover every pixel of the six faces: the thread groups
   * together span at least 6 * faceSize^2 pixels.
   */
  lemma CoeffSetsCoverCube(faceSize: nat)
    ensures CoeffSetCount(faceSize) * (TileWidth * PixelsPerThread) * (TileHeight * PixelsPerThread)
              >= CubeFaces * faceSize * faceSize
  {
    var d := DispatchSize(faceSize);
    MulMono(faceSize, faceSize, d.x * 32, d.y * 32);
    assert (d.x * 32) * (d.y * 32) == d.x * d.y * 1024;
  }

  /** For faces up to 65536 pixels the count fits the 32-bit counter it is stored in. */
  lemma CoeffSetCountFitsUint32(faceSize: nat)
    requires faceSize <= 65536
    ensures CoeffSetCount(faceSize) < 0x1_0000_0000
  {
    var d := DispatchSize(faceSize);
    assert d.x <= 2048 && d.y <= 2048;
    MulMono(d.x, d.y, 2048, 2048);
  }
}
