/** View selection: the image-view type and subresource range of the
    shader-resource, color-attachment and depth-stencil views of a texture,
    and the configurations the backend refuses. */
module Views {
  import opened Common
  import opened Formats
  import opened Descriptions

  datatype ImageViewType =
    | ImageView1D | ImageView2D | ImageView3D | ImageViewCube
    | ImageView1DArray | ImageView2DArray | ImageViewCubeArray

  datatype SubresourceRange = SubresourceRange(
    aspect: set<Aspect>, baseArrayLayer: int, layerCount: int, baseMipLevel: int, levelCount: int)

  /** What the engine's GetViewSliceBounds yields for a view: the adjusted
      first array-or-depth slice and mip, and how many of each the view spans. */
  datatype SliceBounds = SliceBounds(arraySlice: int, mipIndex: int, arrayCount: int, mipCount: int)

  datatype ImageViewCreateInfo = ImageViewCreateInfo(
    viewType: ImageViewType, format: NativeFormat, image: Handle, range: SubresourceRange)

  /** The view type GetImageView selects for a shader-resource view, or the
      exception it throws. The multisample tests inside the array-size
      branches repeat the earlier NotImplemented test and never fire. */
  function ShaderResourceViewType(viewType: ViewType, dimension: TextureDimension, arraySize: int, multisample: bool): Result<ImageViewType>
  {
    if viewType == MipBand then Err(NotSupported)
    else if multisample then Err(NotImplemented)
    else if arraySize > 1 then
      if multisample && dimension != Texture2D then Err(NotSupported)
      else if dimension == Texture3D then Err(NotSupported)
      else Ok(match dimension
              case Texture1D => ImageView1DArray
              case Texture2D => ImageView2DArray
              case _ => ImageViewCubeArray)
    else
      if multisample && dimension != Texture2D then Err(NotSupported)
      else if dimension == TextureCube then Err(NotSupported)
      else Ok(match dimension
              case Texture1D => ImageView1D
              case Texture2D => ImageView2D
              case _ => ImageView3D)
  }

  /** The checks GetColorAttachmentView makes before creating its view; the
      view itself is always a single-layer 2D view. */
  function ColorAttachmentViewCheck(viewType: ViewType, dimension: TextureDimension, arraySize: int, multisample: bool): Outcome
  {
    if viewType == MipBand then Fail(NotSupported)
    else if multisample then Fail(NotImplemented)
    else if arraySize > 1 then
      if multisample && dimension != Texture2D then Fail(NotSupported)
      else if dimension == Texture3D then Fail(NotSupported)
      else Pass
    else
      if multisample && dimension != Texture2D then Fail(NotSupported)
      else if dimension == TextureCube then Fail(NotSupported)
      else Pass
  }

  /** The configurations a view of the texture cannot be made for. */
  predicate ViewRejected(viewType: ViewType, dimension: TextureDimension, arraySize: int, multisample: bool)
  {
    || viewType == MipBand
    || multisample
    || (arraySize > 1 && dimension == Texture3D)
    || (arraySize <= 1 && dimension == TextureCube)
  }

  /** The exception a rejected view raises: NotSupported for a mip band,
      NotImplemented for multisampling, NotSupported for a 3D array or a
      cube that is not an array. */
  function RejectionError(viewType: ViewType, multisample: bool): Error
  {
    if viewType != MipBand && multisample then NotImplemented else NotSupported
  }

  function IsArrayView(t: ImageViewType): bool
  {
    t == ImageView1DArray || t == ImageView2DArray || t == ImageViewCubeArray
  }

  /** The texture dimension a view type shows. */
  function ViewDimension(t: ImageViewType): TextureDimension
  {
    match t
    case ImageView1D => Texture1D
    case ImageView1DArray => Texture1D
    case ImageView2D => Texture2D
    case ImageView2DArray => Texture2D
    case ImageView3D => Texture3D
    case ImageViewCube => TextureCube
    case ImageViewCubeArray => TextureCube
  }

  /** A shader-resource view is refused exactly in the rejected
      configurations, with the matching exception; otherwise its type shows
      the texture's own dimension, as an array view exactly when the
      texture's array size exceeds one. */
  lemma ShaderResourceViewTypeSpec(viewType: ViewType, dimension: TextureDimension, arraySize: int, multisample: bool)
    ensures var r := ShaderResourceViewType(viewType, dimension, arraySize, multisample);
            && (r.Err? <==> ViewRejected(viewType, dimension, arraySize, multisample))
            && (r.Err? ==> r.error == RejectionError(viewType, multisample))
            && (r.Ok? ==> ViewDimension(r.value) == dimension && (IsArrayView(r.value) <==> arraySize > 1))
  {
  }

  /** The color-attachment view is refused in exactly the same
      configurations, with the same exceptions, as the shader-resource view. */
  lemma ColorAttachmentRejectsAlike(viewType: ViewType, dimension: TextureDimension, arraySize: int, multisample: bool)
    ensures var c := ColorAttachmentViewCheck(viewType, dimension, arraySize, multisample);
            var s := ShaderResourceViewType(viewType, dimension, arraySize, multisample);
            && (c.Fail? <==> s.Err?)
            && (c.Fail? ==> c.error == s.error)
  {
  }

  /** The view GetImageView creates: the selected type over the slice bounds,
      one layer for a 3D texture, with the Depth aspect for a depth-stencil
      texture and Color otherwise. */
  function ShaderResourceViewInfo(t: ImageViewType, dimension: TextureDimension, isDepthStencil: bool,
                                  format: NativeFormat, image: Handle, bounds: SliceBounds): (info: ImageViewCreateInfo)
    ensures info.range.layerCount == (if dimension == Texture3D then 1 else bounds.arrayCount)
    ensures info.range.aspect == (if isDepthStencil then {Depth} else {Color})
  {
    var layerCount := if dimension == Texture3D then 1 else bounds.arrayCount;
    var aspect := if isDepthStencil then {Depth} else {Color};
    ImageViewCreateInfo(t, format, image,
      SubresourceRange(aspect, bounds.arraySlice, layerCount, bounds.mipIndex, bounds.mipCount))
  }

  /** The view GetColorAttachmentView creates: a 2D Color view of one layer. */
  function ColorAttachmentViewInfo(format: NativeFormat, image: Handle, bounds: SliceBounds): (info: ImageViewCreateInfo)
    ensures info.viewType == ImageView2D && info.range.layerCount == 1 && info.range.aspect == {Color}
  {
    ImageViewCreateInfo(ImageView2D, format, image,
      SubresourceRange({Color}, bounds.arraySlice, 1, bounds.mipIndex, bounds.mipCount))
  }

  /** The view GetDepthStencilView creates: a 2D view of array slice 0 and
      mip 0 only, with the texture's aspect. */
  function DepthStencilViewInfo(format: NativeFormat, image: Handle, aspect: set<Aspect>): (info: ImageViewCreateInfo)
    ensures info.viewType == ImageView2D
    ensures info.range == SubresourceRange(aspect, 0, 1, 0, 1)
  {
    ImageViewCreateInfo(ImageView2D, format, image, SubresourceRange(aspect, 0, 1, 0, 1))
  }
}
