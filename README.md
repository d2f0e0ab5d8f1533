# Vulkan texture backend of the Xenko graphics engine

This project models the Vulkan backend of the engine's `Texture` class (`Texture.Vulkan.cs`) in Dafny. It proves properties of that model.

A `Texture` is a class. It holds six native handles, each either `Null` or a live handle:

- the image,
- the staging buffer,
- the device memory,
- three views: shader-resource, color-attachment and depth-stencil.

It also holds:

- the native format, pixel size, stencil flag and aspect mask;
- the image layout and access mask;
- the "not owning resources" flag and the "initialized" flag;
- an optional parent texture.

The graphics device is a class `Device`. Each native call that creates, binds, records, submits or releases something becomes an `Event` appended to the device's `log`. Every call that creates an object hands out a fresh handle from a counter. Three kinds of query are not events: GetFormatProperties, the memory-requirement queries, and GetImageSubresourceLayout.

The model covers:

- initialization, for both the staging and the image path, with every exception the code throws;
- buffer and image creation;
- the initial upload: staging offsets, copies, and the barriers and submission;
- the three view getters;
- recreation and destruction;
- the pure helpers: mip-count arithmetic, mip clamping on low feature levels, stencil formats, the depth/stencil format fallback, aspect mask, layout and access-mask selection, image type and usage, and view-type selection.

Exceptions are values. A computation that returns a value or throws is a `Result`. A statement that completes or throws is an `Outcome`. The field changes made before a throw stay in the state, as they do in the code. For example, a staging texture without a parent creates its buffer before it refuses initial data.

The modules follow the code's concerns:

- `Common`: errors, results and handles.
- `Formats`: stencil formats, aspect mask and depth/stencil fallback.
- `Descriptions`: the texture description.
- `MipMaps`: mip counts and the mip clamp.
- `Layouts`: initial layout and access mask.
- `Creation`: buffer size, image type and usage.
- `Upload`: the staging layout of the initial data.
- `Views`: view types and view subresource ranges.
- `Native`: the device and its event log.
- `Textures`: the texture class and the lifecycle lemmas.

## Model

All source paths are `sources/engine/SiliconStudio.Xenko.Graphics/Vulkan/Texture.Vulkan.cs`.

| member | source | states |
|---|---|---|
| Formats.IsStencilFormat | sources/engine/SiliconStudio.Xenko.Graphics/Vulkan/Texture.Vulkan.cs:666-678 | the stencil test of the logical format: true for the four formats with a stencil plane, false for every other format |
| Formats.StencilFormatsExactly | sources/engine/SiliconStudio.Xenko.Graphics/Vulkan/Texture.Vulkan.cs:666-678 | IsStencilFormat holds for exactly R24G8_Typeless, D24_UNorm_S8_UInt, R32G8X24_Typeless and D32_Float_S8X24_UInt |
| Formats.AspectMask | sources/engine/SiliconStudio.Xenko.Graphics/Vulkan/Texture.Vulkan.cs:90-92 | the aspect contains Color iff the texture is not depth-stencil, Depth iff it is, and Stencil iff the format has stencil |
| Formats.FallbackCandidates | sources/engine/SiliconStudio.Xenko.Graphics/Vulkan/Texture.Vulkan.cs:648 | the preference list has four entries and starts with the requested format |
| Formats.FirstSupported | sources/engine/SiliconStudio.Xenko.Graphics/Vulkan/Texture.Vulkan.cs:650-660 | the result is a supported candidate with every earlier candidate unsupported, or the default when no candidate is supported |
| Formats.FallbackFormat | sources/engine/SiliconStudio.Xenko.Graphics/Vulkan/Texture.Vulkan.cs:644-664 | what GetFallbackDepthStencilFormat returns: for a combined depth-stencil format the first supported entry of its preference list, or the format itself when none is; any other format unchanged |
| Formats.GetFallbackDepthStencilFormat | sources/engine/SiliconStudio.Xenko.Graphics/Vulkan/Texture.Vulkan.cs:644-664 | the probing loop with early break returns the first supported entry of the preference list (FallbackFormat) |
| Formats.FallbackKeepsOtherFormats | sources/engine/SiliconStudio.Xenko.Graphics/Vulkan/Texture.Vulkan.cs:646-663 | formats other than D16S8, D24S8 and D32S8 come back unchanged |
| Formats.FallbackChoice | sources/engine/SiliconStudio.Xenko.Graphics/Vulkan/Texture.Vulkan.cs:644-664 | for a combined format: the requested format if supported, else D32S8, else D24S8, else D16S8; the requested format when none is supported; always again a combined format |
| Formats.FallbackFromD24S8 | sources/engine/SiliconStudio.Xenko.Graphics/Vulkan/Texture.Vulkan.cs:648-659 | a device without D24S8 but with D32S8 gets D32S8 for a D24S8 request |
| MipMaps.Levels | sources/engine/SiliconStudio.Xenko.Graphics/Vulkan/Texture.Vulkan.cs:622-628 | a valid size has at least one mip level |
| MipMaps.MipCountFromSize | sources/engine/SiliconStudio.Xenko.Graphics/Vulkan/Texture.Vulkan.cs:610-629 | what CalculateMipCountFromSize returns or throws: the size error, then the minimum error, else the level count Levels |
| MipMaps.CalculateMipCountFromSize | sources/engine/SiliconStudio.Xenko.Graphics/Vulkan/Texture.Vulkan.cs:610-629 | the halving loop returns the two argument errors or the level count Levels |
| MipMaps.MipCountFromSizeCases | sources/engine/SiliconStudio.Xenko.Graphics/Vulkan/Texture.Vulkan.cs:610-629 | ArgumentOutOfRange("size") iff size <= 0; ArgumentOutOfRange("minimumSizeLastMip") iff size > 0 and the minimum <= 0; otherwise at least 1 level, and exactly 1 iff size/2 < minimum |
| MipMaps.LevelsCharacterized | sources/engine/SiliconStudio.Xenko.Graphics/Vulkan/Texture.Vulkan.cs:622-628 | the level count n is the first n whose n-th halving falls under the minimum; every earlier halving stays at or above it |
| MipMaps.LevelsMonotonic | sources/engine/SiliconStudio.Xenko.Graphics/Vulkan/Texture.Vulkan.cs:622-628 | a larger size never has fewer levels |
| MipMaps.MipCountExamples | sources/engine/SiliconStudio.Xenko.Graphics/Vulkan/Texture.Vulkan.cs:610-629 | 256 with minimum 4 gives 7 levels, 1 gives 1 level, and 0 throws |
| MipMaps.CalculateMipCount | sources/engine/SiliconStudio.Xenko.Graphics/Vulkan/Texture.Vulkan.cs:639-642 | the width's error is thrown first, then the height's; otherwise the result is the smaller of the two level counts |
| MipMaps.CheckMipLevels | sources/engine/SiliconStudio.Xenko.Graphics/Vulkan/Texture.Vulkan.cs:594-601 | only MipLevels changes; it never increases; it changes only below feature level 10.0 for a compressed non-depth-stencil texture, and then is at most the level count of width and height; it throws iff the clamp applies to a non-positive extent |
| Layouts.TargetLayout | sources/engine/SiliconStudio.Xenko.Graphics/Vulkan/Texture.Vulkan.cs:127-131 | the layout of the texture's role: render target first, then depth-stencil, then shader resource, else General |
| Layouts.AccessMaskFor | sources/engine/SiliconStudio.Xenko.Graphics/Vulkan/Texture.Vulkan.cs:133-143 | the access mask after the four conditional assignments that follow the layout selection; a layout none of them names keeps the current mask |
| Layouts.TargetLayoutPriority | sources/engine/SiliconStudio.Xenko.Graphics/Vulkan/Texture.Vulkan.cs:127-131 | each layout is chosen iff its role is the highest-priority role present (render target, then depth-stencil, then shader resource, else General); TransferDestinationOptimal and Undefined are never chosen |
| Layouts.TargetAccessMask | sources/engine/SiliconStudio.Xenko.Graphics/Vulkan/Texture.Vulkan.cs:133-143 | the access mask is ColorAttachmentWrite, DepthStencilAttachmentWrite or ShaderRead and InputAttachmentRead for the three role layouts; for General it is left as it was |
| Layouts.AccessMaskIndependentOfPrevious | sources/engine/SiliconStudio.Xenko.Graphics/Vulkan/Texture.Vulkan.cs:133-143 | outside General the new access mask does not depend on the previous one |
| Creation.ImageTypeFor | sources/engine/SiliconStudio.Xenko.Graphics/Vulkan/Texture.Vulkan.cs:217-232 | the image is cube-compatible iff the dimension is Cube; Image3D iff 3D; Image1D iff 1D; Cube maps to Image2D |
| Creation.ImageUsageFor | sources/engine/SiliconStudio.Xenko.Graphics/Vulkan/Texture.Vulkan.cs:235-244 | usage always has TransferSource and TransferDestination; ColorAttachment iff render target, DepthStencilAttachment iff depth-stencil, Sampled iff shader resource |
| Creation.StagingBufferSize | sources/engine/SiliconStudio.Xenko.Graphics/Vulkan/Texture.Vulkan.cs:178-182 | the staging buffer size: the sum over the mip chain of each mip's uint-cast term |
| Creation.StagingTerm | sources/engine/SiliconStudio.Xenko.Graphics/Vulkan/Texture.Vulkan.cs:181 | each mip's term, the int product cast to uint, is below 2^32 |
| Creation.StagingBufferSizeBound | sources/engine/SiliconStudio.Xenko.Graphics/Vulkan/Texture.Vulkan.cs:178-182 | the summed size is at most the mip count times 2^32 - 1, so an int mip count cannot wrap the 64-bit size |
| Creation.StagingSizeThreeMips | sources/engine/SiliconStudio.Xenko.Graphics/Vulkan/Texture.Vulkan.cs:178-182 | one slice and three single-depth mips give the sum of the three depth strides |
| Upload.Align4 | sources/engine/SiliconStudio.Xenko.Graphics/Vulkan/Texture.Vulkan.cs:302-304 | the aligned offset is a multiple of 4, at least the offset and less than offset + 4 |
| Upload.TotalUploadSize | sources/engine/SiliconStudio.Xenko.Graphics/Vulkan/Texture.Vulkan.cs:272-276 | the upload region size: 4 bytes per box plus the sum of the slice pitches |
| Upload.FinalBarrierSource | sources/engine/SiliconStudio.Xenko.Graphics/Vulkan/Texture.Vulkan.cs:333-335 | the final barrier starts from (Undefined, no access) without data and from (TransferDestinationOptimal, TransferWrite) with data |
| Upload.CopyOffsets | sources/engine/SiliconStudio.Xenko.Graphics/Vulkan/Texture.Vulkan.cs:291-320 | one buffer offset per data box |
| Upload.StagedCopies | sources/engine/SiliconStudio.Xenko.Graphics/Vulkan/Texture.Vulkan.cs:290-317 | one copy per data box |
| Upload.MeasureUpload | sources/engine/SiliconStudio.Xenko.Graphics/Vulkan/Texture.Vulkan.cs:272-276 | the size loop returns 4 bytes per box plus the sum of the slice pitches |
| Upload.StageCopies | sources/engine/SiliconStudio.Xenko.Graphics/Vulkan/Texture.Vulkan.cs:289-321 | the copy loop fills the array with the copies the aligned offsets and the (slice, mip) of each index determine |
| Upload.SubresourceRoundTrip | sources/engine/SiliconStudio.Xenko.Graphics/Vulkan/Texture.Vulkan.cs:295-296 | box i targets slice i / MipLevels and mip i % MipLevels; slice * MipLevels + mip gives i back, and every (slice, in-range mip) pair belongs to exactly one index |
| Upload.CopyOffsetsLayout | sources/engine/SiliconStudio.Xenko.Graphics/Vulkan/Texture.Vulkan.cs:302-320 | every offset is 4-byte aligned and at or after the start; each box ends at or before the next box's offset; every box ends within the swept region, which spans at most 3 bytes per box plus the pitches |
| Upload.UploadFitsRegion | sources/engine/SiliconStudio.Xenko.Graphics/Vulkan/Texture.Vulkan.cs:272-320 | every copy is aligned, overlaps no later copy and lies inside [start, start + total size) of the requested upload region |
| Upload.UploadTargets | sources/engine/SiliconStudio.Xenko.Graphics/Vulkan/Texture.Vulkan.cs:295-317 | copy k targets the subresource of index k, one layer, Color aspect, with the width and height of its mip |
| Views.ShaderResourceViewType | sources/engine/SiliconStudio.Xenko.Graphics/Vulkan/Texture.Vulkan.cs:429-494 | the view type GetImageView selects, or the NotSupported or NotImplemented exception it throws |
| Views.ShaderResourceViewTypeSpec | sources/engine/SiliconStudio.Xenko.Graphics/Vulkan/Texture.Vulkan.cs:429-494 | the view is refused iff MipBand, multisample, a 3D array or a non-array cube, with NotSupported or NotImplemented as the code throws; otherwise its type shows the texture's dimension and is an array type iff ArraySize > 1 |
| Views.ColorAttachmentViewCheck | sources/engine/SiliconStudio.Xenko.Graphics/Vulkan/Texture.Vulkan.cs:504-539 | the checks GetColorAttachmentView makes before creating its view, with the exceptions they throw |
| Views.ColorAttachmentRejectsAlike | sources/engine/SiliconStudio.Xenko.Graphics/Vulkan/Texture.Vulkan.cs:504-539 | the color view is refused in exactly the same configurations, with the same exceptions, as the shader-resource view |
| Views.ShaderResourceViewInfo | sources/engine/SiliconStudio.Xenko.Graphics/Vulkan/Texture.Vulkan.cs:432-445 | the view spans 1 layer for a 3D texture, else the slice-bounds count; its aspect is Depth for a depth-stencil texture, else Color |
| Views.ColorAttachmentViewInfo | sources/engine/SiliconStudio.Xenko.Graphics/Vulkan/Texture.Vulkan.cs:511-519 | the color view is a 2D Color view of one layer |
| Views.DepthStencilViewInfo | sources/engine/SiliconStudio.Xenko.Graphics/Vulkan/Texture.Vulkan.cs:554-562 | the depth-stencil view is 2D over (texture aspect, layer 0, 1 layer, mip 0, 1 mip) |
| Native.Device.AllocateMemory | sources/engine/SiliconStudio.Xenko.Graphics/Vulkan/Texture.Vulkan.cs:193 | a fresh memory handle, or Null with no call recorded when the device is out of memory |
| Native.Device.AllocateUploadBuffer | sources/engine/SiliconStudio.Xenko.Graphics/Vulkan/Texture.Vulkan.cs:280 | a region of the shared upload buffer at the current cursor, which advances by the size |
| Native.Device.Release | sources/engine/SiliconStudio.Xenko.Graphics/Vulkan/Texture.Vulkan.cs:364-368 | a handle is released only when it is not Null, and the field is Null afterwards |
| Textures.UploadEvents | sources/engine/SiliconStudio.Xenko.Graphics/Vulkan/Texture.Vulkan.cs:264-351 | the commands InitializeImage records and submits: begin; with data, the staging barrier (TopOfPipe to Transfer) and the copies; the final barrier (Transfer to AllCommands) to the role's layout and access mask; end, submit, wait and reset |
| Textures.Texture.SetNativeHandles | sources/engine/SiliconStudio.Xenko.Graphics/Vulkan/Texture.Vulkan.cs:78-82 | the image and the color view take the given handles |
| Textures.Texture.InitializeWithoutResources | sources/engine/SiliconStudio.Xenko.Graphics/Vulkan/Texture.Vulkan.cs:72-76 | the texture is marked as not owning its resources |
| Textures.Texture.InitializeFromPersistent | sources/engine/SiliconStudio.Xenko.Graphics/Vulkan/Texture.Vulkan.cs:65-70 | the texture takes the given native image |
| Textures.Texture.CreateBuffer | sources/engine/SiliconStudio.Xenko.Graphics/Vulkan/Texture.Vulkan.cs:170-199 | a fresh transfer buffer of the summed staging size is created; host-visible coherent memory is allocated; it is bound only when it is not Null |
| Textures.Texture.CreateImage | sources/engine/SiliconStudio.Xenko.Graphics/Vulkan/Texture.Vulkan.cs:201-262 | a fresh image of the texture's type, cube flag, extent, layers, mips, format and usage is created; device-local memory is allocated; it is bound only when it is not Null |
| Textures.Texture.InitializeImage | sources/engine/SiliconStudio.Xenko.Graphics/Vulkan/Texture.Vulkan.cs:264-351 | the recorded commands are the upload events; the upload cursor advances by the total size iff there is data; IsInitialized is set iff there is data |
| Textures.Texture.StageUpload | sources/engine/SiliconStudio.Xenko.Graphics/Vulkan/Texture.Vulkan.cs:270-327 | a region of the total size is requested; then a buffer barrier over exactly that region with the image's move to TransferDestinationOptimal is recorded, then the staged copies |
| Textures.Texture.GetImageView | sources/engine/SiliconStudio.Xenko.Graphics/Vulkan/Texture.Vulkan.cs:424-497 | Null without the shader-resource role; the selection's exception with no call made; otherwise one fresh view of the selected type and range |
| Textures.Texture.GetColorAttachmentView | sources/engine/SiliconStudio.Xenko.Graphics/Vulkan/Texture.Vulkan.cs:499-542 | Null without the render-target role; the check's exception with no call made; otherwise one fresh 2D single-layer Color view |
| Textures.Texture.GetDepthStencilView | sources/engine/SiliconStudio.Xenko.Graphics/Vulkan/Texture.Vulkan.cs:544-576 | Null without the depth-stencil role; otherwise one fresh view of slice 0, mip 0 with the texture's aspect |
| Textures.Texture.ResolveFormat | sources/engine/SiliconStudio.Xenko.Graphics/Vulkan/Texture.Vulkan.cs:86-98 | the stencil flag, aspect mask and pixel size follow the view format; the native format is the fallback exactly for a depth-stencil texture with stencil, else the converted format |
| Textures.Texture.InitializeStaging | sources/engine/SiliconStudio.Xenko.Graphics/Vulkan/Texture.Vulkan.cs:100-121 | InvalidOperation when an image exists or the texture is not owning; a child aliases its parent's buffer and memory; otherwise the buffer is created, then initial data is refused; no image, layout, view or upload changes |
| Textures.Texture.CreateViews | sources/engine/SiliconStudio.Xenko.Graphics/Vulkan/Texture.Vulkan.cs:161-166 | the three views are made in order, each non-Null iff its role is present and created as a fresh view; a view exception stops the sequence and leaves the later views as they were; the log grows by exactly the creation calls of the views made |
| Textures.Texture.CreateImageView | sources/engine/SiliconStudio.Xenko.Graphics/Vulkan/Texture.Vulkan.cs:163 | the shader-resource view is stored and exactly its creation call is logged, or its exception is reported with nothing changed |
| Textures.Texture.CreateColorView | sources/engine/SiliconStudio.Xenko.Graphics/Vulkan/Texture.Vulkan.cs:164 | the color view is stored and exactly its creation call is logged, or its exception is reported with nothing changed |
| Textures.Texture.CreateDepthView | sources/engine/SiliconStudio.Xenko.Graphics/Vulkan/Texture.Vulkan.cs:165 | the depth-stencil view is stored, non-Null iff the depth-stencil role is present, and exactly its creation call is logged |
| Textures.Texture.AcquireImage | sources/engine/SiliconStudio.Xenko.Graphics/Vulkan/Texture.Vulkan.cs:145-159 | a child aliases its parent's image and memory with no call made; a not-owning texture creates nothing; any other texture creates its image, then records the upload and is initialized iff it had data |
| Textures.Texture.BuildImage | sources/engine/SiliconStudio.Xenko.Graphics/Vulkan/Texture.Vulkan.cs:127-166 | the role's layout and access mask, the acquired image and memory, and the views of an owning texture, from the state before; the log grows by exactly the image creation, the upload and the view creations |
| Textures.Texture.BuildViews | sources/engine/SiliconStudio.Xenko.Graphics/Vulkan/Texture.Vulkan.cs:161-166 | the views of an owning texture whose image is acquired complete the image branch from the state before |
| Textures.Texture.InitializeImageResources | sources/engine/SiliconStudio.Xenko.Graphics/Vulkan/Texture.Vulkan.cs:122-167 | InvalidOperation with handles, layout, mask and log unchanged when an image exists; otherwise the image is built |
| Textures.Texture.InitializeFromImpl | sources/engine/SiliconStudio.Xenko.Graphics/Vulkan/Texture.Vulkan.cs:84-168 | the format step, then the staging path or the image path by usage |
| Textures.Texture.Recreate | sources/engine/SiliconStudio.Xenko.Graphics/Vulkan/Texture.Vulkan.cs:54-57 | the same effect as InitializeFromImpl with the given data |
| Textures.Texture.OnRecreateImpl | sources/engine/SiliconStudio.Xenko.Graphics/Vulkan/Texture.Vulkan.cs:404-422 | nothing changes while the parent is not Active, or for Immutable or Default textures without render-target or depth-stencil role; otherwise initialization runs again with no data |
| Textures.Texture.OnDestroyed | sources/engine/SiliconStudio.Xenko.Graphics/Vulkan/Texture.Vulkan.cs:354-402 | the handles afterwards and the release calls made, as HandlesAfterDestroy and DestroyEvents of the handles before |
| Textures.DestroyEvents | sources/engine/SiliconStudio.Xenko.Graphics/Vulkan/Texture.Vulkan.cs:354-402 | the release calls OnDestroyed makes: none for a not-owning texture; otherwise memory, image, buffer and the three views, each only when not Null, with a child skipping image and memory |
| Textures.HandlesAfterDestroy | sources/engine/SiliconStudio.Xenko.Graphics/Vulkan/Texture.Vulkan.cs:354-402 | the handles after OnDestroyed: a not-owning texture forgets only its image and memory; any other texture holds no handle |
| Textures.DestroyNotOwning | sources/engine/SiliconStudio.Xenko.Graphics/Vulkan/Texture.Vulkan.cs:356-362 | a not-owning texture releases nothing; it only forgets its image and memory, and its buffer and views stay |
| Textures.ReleaseEventsMembers | sources/engine/SiliconStudio.Xenko.Graphics/Vulkan/Texture.Vulkan.cs:362-399 | at most six releases, each the release of a non-Null handle, and each such handle is released |
| Textures.DestroyOwning | sources/engine/SiliconStudio.Xenko.Graphics/Vulkan/Texture.Vulkan.cs:362-399 | an owning texture ends with every handle Null after at most six calls, each the release of a handle that was not Null |
| Textures.DestroyOwningReleases | sources/engine/SiliconStudio.Xenko.Graphics/Vulkan/Texture.Vulkan.cs:354-399 | an owning texture frees its memory and destroys its image iff it is not a child and they are not Null; it destroys its buffer and each view iff they are not Null; nothing else is released |
| Textures.DestroyOrder | sources/engine/SiliconStudio.Xenko.Graphics/Vulkan/Texture.Vulkan.cs:364-398 | releases come in the order memory, image, buffer, then views |
| Textures.DestroyChildSparesParentImage | sources/engine/SiliconStudio.Xenko.Graphics/Vulkan/Texture.Vulkan.cs:356-360 | a child never frees memory nor destroys an image |
| Textures.DestroyStagingChildReleasesAliasedBuffer | sources/engine/SiliconStudio.Xenko.Graphics/Vulkan/Texture.Vulkan.cs:354-380 | an owning child that holds its parent's buffer destroys that buffer |
| Textures.Texture.InitializeThenDestroy | sources/engine/SiliconStudio.Xenko.Graphics/Vulkan/Texture.Vulkan.cs:122-399 | an owning texture without a parent that started with no handles releases on destruction exactly the handles its image branch created (image, memory when allocated, each view made), each as often as created |
| Textures.Texture.StagingThenDestroy | sources/engine/SiliconStudio.Xenko.Graphics/Vulkan/Texture.Vulkan.cs:100-121 | an owning Staging texture without a parent that started with no handles releases on destruction exactly what initialization created: its buffer and, when allocated, its memory |
| Textures.DestroyChildThenParent | sources/engine/SiliconStudio.Xenko.Graphics/Vulkan/Texture.Vulkan.cs:354-399 | destroying a child and then its parent frees the shared memory and destroys the shared image exactly once |
| Textures.DestroyOwnerCounts | sources/engine/SiliconStudio.Xenko.Graphics/Vulkan/Texture.Vulkan.cs:354-374 | an owning texture without a parent frees its memory and destroys its image exactly once |
| Textures.UploadCreatesNothing | sources/engine/SiliconStudio.Xenko.Graphics/Vulkan/Texture.Vulkan.cs:264-351 | the upload creates no native object; it only records, submits and waits |
| Textures.DestroyTwice | sources/engine/SiliconStudio.Xenko.Graphics/Vulkan/Texture.Vulkan.cs:354-399 | a second destruction releases nothing and changes no handle |
| Textures.UploadBarriers | sources/engine/SiliconStudio.Xenko.Graphics/Vulkan/Texture.Vulkan.cs:286-336 | the image barriers of an upload are the move to TransferDestinationOptimal when there is data, then the final barrier |
| Textures.UploadBarrierChain | sources/engine/SiliconStudio.Xenko.Graphics/Vulkan/Texture.Vulkan.cs:286-336 | the image barriers chain from (Undefined, no access) to the role's layout and access mask; there are 2 with data and 1 without; all cover the texture's image and aspect; each barrier's source stages contain the previous barrier's destination stages, and the last one blocks AllCommands |
| Textures.UploadStages | sources/engine/SiliconStudio.Xenko.Graphics/Vulkan/Texture.Vulkan.cs:287-336 | the upload's barriers go from TopOfPipe to Transfer for the staging barrier when there is data, then from Transfer to AllCommands for the final barrier |

## Left out

- Native Vulkan calls are not executed. They are events in the device log, and live handles carry identifiers from a counter. Memory requirements (GetBufferMemoryRequirements, GetImageMemoryRequirements) are not modelled. Allocation fails for every call when the device's `outOfMemory` input is set.
- Native.Device.AllocateUploadBuffer: the engine's upload-buffer allocator is not part of this model. The device's method is a stand-in: every region lies in one constant buffer, `Live(0)`, at a cursor that advances by each requested size. That the cursor advances by the total upload size (see Textures.Texture.InitializeImage) is a property of this stand-in, not of the engine's allocator.
- Raw memory copies are not modelled: `Utilities.CopyMemory` and the `uploadMemory` pointer arithmetic. Only the integer offsets are.
- The GetImageSubresourceLayout call inside the copy loop is left out, because its result is never used.
- The TextureMemory float bookkeeping in OnRecreateImpl is left out because it is floating point, along with its GraphicsDevice null test.
- Engine helpers outside this file are inputs, not code:
  - ConvertPixelFormat is the `ConvertedFormat` parameter: the native format and the pixel size. Its `isCompressed` output is left out, because InitializeFromImpl never reads it (line 87).
  - GetMipMapDescription is the texture's `mipmaps` sequence.
  - GetViewSliceBounds is the `SliceBounds` parameter. It is deterministic, so both views get the same bounds.
  - PixelFormat.IsCompressed is a parameter of CheckMipLevels.
  - The device's current profile is a parameter of CheckMipLevels.
  - The depth-stencil support of each format is a set on the device.
- The engine's InitializeFrom is not part of this model; it is what InitializeFromPersistent and InitializeWithoutResources return. base.OnDestroyed is not part of this model either.
- The stubs IsDepthStencilReadOnlySupported, IsFlipped and ComputeShaderResourceFormatFromDepthFormat are left out, because each returns a constant or its argument.
- Exception messages are left out. Exceptions are values of the `Error` datatype.
- Textures.UploadEvents: pipeline barriers record their source and destination stages, but not their dependency flags. Every barrier of the upload passes `DependencyFlags.None` (lines 287 and 336).
- The lifetime state has two values, Active and Destroyed. The backend only tests whether it is Active (OnRecreateImpl, line 407), so Destroyed stands for every state that is not Active.
- Texture.Valid requires a positive mip count below 2^31 with one mip description per level, as the engine's description guarantees.
- MeasureUpload: `totalSize` is unbounded, and slice pitches are non-negative. The code's `int` would wrap for uploads of 2 GiB or more.
- StageCopies: `uploadOffset` is unbounded, so its `int` overflow on huge uploads is not modelled.
- Upload.CopyOffsetsLayout: it proves non-overlap (each box ends at or before the next offset), not strictly increasing offsets. A box with a zero slice pitch shares its offset with the next box.
- CreateImage: the `(uint)` casts of ArraySize, Width, Height, Depth and MipLevels are not modelled. The image info keeps the description's integers.
- The serializer files of the repository (EntitySerializer.cs and AssetSerializableLogMessage.cs) are not part of this model.
