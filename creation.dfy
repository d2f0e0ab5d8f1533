/** Creation parameters of the native resources behind a texture: the
    staging buffer's size and usage, and the image's type, cube flag and
    usage flags. */
module Creation {
  import opened Formats
  import opened Descriptions

  datatype ImageType = Image1D | Image2D | Image3D

  datatype ImageUsage = TransferSource | TransferDestination | ColorAttachment | DepthStencilAttachment | Sampled

  datatype BufferUsage = BufferTransferSource | BufferTransferDestination

  datatype MemoryProperty = DeviceLocal | HostVisible | HostCoherent

  /** The fields of ImageCreateInfo that CreateImage fills in. Samples is
      always 1, tiling optimal and the initial layout Undefined. */
  datatype ImageCreateInfo = ImageCreateInfo(
    imageType: ImageType,
    cubeCompatible: bool,
    arrayLayers: int,
    width: int,
    height: int,
    depth: int,
    mipLevels: int,
    format: NativeFormat,
    usage: set<ImageUsage>)

  const UInt32Range: int := 0x1_0000_0000
  const UInt64Range: int := 0x1_0000_0000_0000_0000

  /** The native image type of a dimension, and whether the image is created
      cube-compatible. */
  function ImageTypeFor(dimension: TextureDimension): (r: (ImageType, bool))
    ensures r.1 <==> dimension == TextureCube
    ensures r.0 == Image3D <==> dimension == Texture3D
    ensures r.0 == Image1D <==> dimension == Texture1D
  {
    match dimension
    case Texture1D => (Image1D, false)
    case Texture2D => (Image2D, false)
    case Texture3D => (Image3D, false)
    case TextureCube => (Image2D, true)
  }

  /** The image usage accumulated by CreateImage: always transfer source and
      destination, plus one usage per role the texture has. */
  function ImageUsageFor(flags: TextureFlags): (usage: set<ImageUsage>)
    ensures TransferSource in usage && TransferDestination in usage
    ensures ColorAttachment in usage <==> flags.renderTarget
    ensures DepthStencilAttachment in usage <==> flags.depthStencil
    ensures Sampled in usage <==> flags.shaderResource
  {
    var u0 := {TransferSource, TransferDestination};
    var u1 := if flags.renderTarget then u0 + {ColorAttachment} else u0;
    var u2 := if flags.depthStencil then u1 + {DepthStencilAttachment} else u1;
    if flags.shaderResource then u2 + {Sampled} else u2
  }

  /** One mip's contribution to the staging buffer size: the C# int product
      DepthStride * Depth * ArraySize, which wraps at 32 bits, cast to uint. */
  function StagingTerm(mip: MipMapDescription, arraySize: int): (term: nat)
    ensures term < UInt32Range
  {
    (mip.depthStride * mip.depth * arraySize) % UInt32Range
  }

  /** The byte size CreateBuffer asks for: the sum of StagingTerm over the mip
      chain, accumulated in the 64-bit BufferCreateInfo.Size. */
  function StagingBufferSize(mips: seq<MipMapDescription>, arraySize: int): nat
  {
    if mips == [] then 0
    else StagingBufferSize(mips[..|mips| - 1], arraySize) + StagingTerm(mips[|mips| - 1], arraySize)
  }

  /** The sum is bounded by the number of mips times the largest term, so a
      mip chain of at most 2^31 - 1 levels (MipLevels is an int) cannot wrap
      the 64-bit size. */
  lemma {:induction false} StagingBufferSizeBound(mips: seq<MipMapDescription>, arraySize: int)
    ensures StagingBufferSize(mips, arraySize) <= |mips| * (UInt32Range - 1)
    ensures |mips| < 0x8000_0000 ==> StagingBufferSize(mips, arraySize) < UInt64Range
  {
    if mips != [] {
      StagingBufferSizeBound(mips[..|mips| - 1], arraySize);
    }
  }

  /** Single array slice, three mips of depth 1: the size is the sum of the
      three depth strides. */
  lemma StagingSizeThreeMips(a: MipMapDescription, b: MipMapDescription, c: MipMapDescription)
    requires a.depth == 1 && b.depth == 1 && c.depth == 1
    requires 0 <= a.depthStride < UInt32Range && 0 <= b.depthStride < UInt32Range && 0 <= c.depthStride < UInt32Range
    ensures StagingBufferSize([a, b, c], 1) == a.depthStride + b.depthStride + c.depthStride
  {
    assert [a][..0] == [];
    assert StagingBufferSize([a], 1) == a.depthStride;
    assert [a, b][..1] == [a];
    assert StagingBufferSize([a, b], 1) == a.depthStride + b.depthStride;
    assert [a, b, c][..2] == [a, b];
  }
}
