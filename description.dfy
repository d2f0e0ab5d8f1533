/** The engine-side description of a texture, as the Vulkan backend reads it:
    dimension, extent, array and mip counts, format, usage and role flags,
    and the per-mip sizes the engine derives from them. */
module Descriptions {
  import opened Formats

  datatype TextureDimension = Texture1D | Texture2D | Texture3D | TextureCube

  /** GraphicsResourceUsage. */
  datatype ResourceUsage = Default | Immutable | Dynamic | Staging

  /** The role flags of TextureFlags that the backend tests. */
  datatype TextureFlags = TextureFlags(shaderResource: bool, renderTarget: bool, depthStencil: bool)

  datatype TextureDescription = TextureDescription(
    dimension: TextureDimension,
    width: int,
    height: int,
    depth: int,
    arraySize: int,
    mipLevels: int,
    format: PixelFormat,
    usage: ResourceUsage,
    flags: TextureFlags,
    multisample: bool)

  /** One entry of the mip chain (GetMipMapDescription); `depthStride` is the
      byte size of one depth slice of that mip. */
  datatype MipMapDescription = MipMapDescription(width: int, height: int, depth: int, depthStride: int)

  /** How a view slices the texture (the engine's ViewType). */
  datatype ViewType = Full | Single | ArrayBand | MipBand
}
