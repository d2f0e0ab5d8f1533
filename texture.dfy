/** The Vulkan texture object: its native handles and state, and the
    operations that initialize, upload to, view, recreate and destroy it. */
module Textures {
  import opened Common
  import opened Formats
  import opened Descriptions
  import opened Layouts
  import opened Creation
  import opened Upload
  import opened Views
  import opened Native

  /** GraphicsResourceLifetimeState, as far as the backend tests it. */
  datatype LifetimeState = Active | Destroyed

  /** What VulkanConvertExtensions.ConvertPixelFormat yields for the view
      format and InitializeFromImpl reads: the native format and the pixel
      size (its compression output is never read there). */
  datatype ConvertedFormat = ConvertedFormat(format: NativeFormat, pixelSize: int)

  /** The six native handles a texture holds. */
  datatype NativeHandles = NativeHandles(
    image: Handle, buffer: Handle, memory: Handle,
    imageView: Handle, colorAttachmentView: Handle, depthStencilView: Handle)

  const NoHandles: NativeHandles := NativeHandles(Null, Null, Null, Null, Null, Null)

  /** The native format after InitializeFromImpl's format step: the converted
      format, replaced by the device fallback for a depth-stencil texture
      whose view format has a stencil plane. */
  function ResolvedFormat(converted: NativeFormat, viewFormat: PixelFormat, isDepthStencil: bool,
                          supported: set<NativeFormat>): NativeFormat
  {
    if isDepthStencil && IsStencilFormat(viewFormat) then FallbackFormat(supported, converted) else converted
  }

  predicate HasData(boxes: Option<seq<DataBox>>)
  {
    boxes.Some? && |boxes.value| > 0
  }

  /** The calls CreateBuffer makes: create the buffer, then, when memory
      could be allocated, allocate host-visible coherent memory and bind it. */
  function BufferCreationEvents(buffer: Handle, memory: Handle, size: nat): seq<Event>
  {
    [CreatedBuffer(buffer, size, {BufferTransferSource, BufferTransferDestination})]
    + (if memory == Null then [] else [AllocatedMemory(memory, {HostVisible, HostCoherent}), BoundBufferMemory(buffer, memory)])
  }

  /** The calls CreateImage makes: create the image, then, when memory could
      be allocated, allocate device-local memory and bind it. */
  function ImageCreationEvents(image: Handle, memory: Handle, info: ImageCreateInfo): seq<Event>
  {
    [CreatedImage(image, info)]
    + (if memory == Null then [] else [AllocatedMemory(memory, {DeviceLocal}), BoundImageMemory(image, memory)])
  }

  /** The commands InitializeImage records and submits: with data, a barrier
      making the upload region readable by transfers and moving the image to
      TransferDestinationOptimal, then the copies; always a final barrier to
      the role's layout and access mask, then end, submit, wait and reset. */
  function UploadEvents(boxes: Option<seq<DataBox>>, image: Handle, aspect: set<Aspect>,
                        layout: ImageLayout, accessMask: set<Access>, uploadBuffer: Handle, start: nat,
                        mipLevels: int, mips: seq<MipMapDescription>): seq<Event>
    requires mipLevels > 0 && |mips| == mipLevels
  {
    var source := FinalBarrierSource(boxes);
    [BeganCommands]
    + (if HasData(boxes) then StagingEvents(boxes.value, image, aspect, uploadBuffer, start, mipLevels, mips) else [])
    + [RecordedBarrier({Transfer}, {AllCommands}, [], [ImageBarrier(image, source.0, layout, source.1, accessMask, aspect)]),
       EndedCommands, Submitted, WaitedIdle, ResetCommands]
  }

  /** UploadEvents opens the command buffer, stages the data when there is
      some, and ends with the final barrier and the submission. */
  lemma UploadEventsParts(boxes: Option<seq<DataBox>>, image: Handle, aspect: set<Aspect>,
                          layout: ImageLayout, accessMask: set<Access>, uploadBuffer: Handle, start: nat,
                          mipLevels: int, mips: seq<MipMapDescription>)
    requires mipLevels > 0 && |mips| == mipLevels
    ensures var source := FinalBarrierSource(boxes);
            var tail := [RecordedBarrier({Transfer}, {AllCommands}, [], [ImageBarrier(image, source.0, layout, source.1, accessMask, aspect)]),
                         EndedCommands, Submitted, WaitedIdle, ResetCommands];
            && (HasData(boxes) ==> UploadEvents(boxes, image, aspect, layout, accessMask, uploadBuffer, start, mipLevels, mips)
                                   == [BeganCommands] + StagingEvents(boxes.value, image, aspect, uploadBuffer, start, mipLevels, mips) + tail)
            && (!HasData(boxes) ==> UploadEvents(boxes, image, aspect, layout, accessMask, uploadBuffer, start, mipLevels, mips)
                                    == [BeganCommands] + tail)
  {
  }

  /** The commands that stage data boxes placed from `start` on: a barrier
      making the region readable by transfers and moving the image to
      TransferDestinationOptimal, then the copies. */
  function StagingEvents(boxes: seq<DataBox>, image: Handle, aspect: set<Aspect>, uploadBuffer: Handle, start: nat,
                         mipLevels: int, mips: seq<MipMapDescription>): seq<Event>
    requires mipLevels > 0 && |mips| == mipLevels
  {
    [RecordedBarrier({TopOfPipe}, {Transfer}, [BufferBarrier(uploadBuffer, {HostWrite}, {TransferRead}, start, TotalUploadSize(boxes))],
                     [ImageBarrier(image, Undefined, TransferDestinationOptimal, {}, {TransferWrite}, aspect)]),
     RecordedCopy(uploadBuffer, image, TransferDestinationOptimal, StagedCopies(boxes, mipLevels, mips, start))]
  }

  /** The image barriers recorded by a run of events, in order. */
  function ImageBarriersOf(events: seq<Event>): seq<ImageBarrier>
  {
    if events == [] then []
    else (if events[0].RecordedBarrier? then events[0].imageBarriers else []) + ImageBarriersOf(events[1..])
  }

  /** The source and destination pipeline stages of each barrier a run of
      events records, in order. */
  function BarrierStagesOf(events: seq<Event>): seq<(set<PipelineStage>, set<PipelineStage>)>
  {
    if events == [] then []
    else (if events[0].RecordedBarrier? then [(events[0].srcStages, events[0].dstStages)] else [])
         + BarrierStagesOf(events[1..])
  }

  /** Each barrier starts from the layout and access the previous one left. */
  predicate BarrierChain(layout: ImageLayout, access: set<Access>, barriers: seq<ImageBarrier>)
    decreases |barriers|
  {
    barriers == []
    || (barriers[0].oldLayout == layout && barriers[0].srcAccess == access
        && BarrierChain(barriers[0].newLayout, barriers[0].dstAccess, barriers[1..]))
  }

  /** The fields of a texture, its parent and its device that the image
      branch of initialization reads before changing them. */
  datatype Snapshot = Snapshot(
    handles: NativeHandles, accessMask: set<Access>, isInitialized: bool,
    parentImage: Handle, parentMemory: Handle,
    nextId: nat, log: seq<Event>, uploadCursor: nat)

  /** Recreation is skipped while the parent is not Active, and for
      Immutable or Default textures that are neither render target nor
      depth-stencil. */
  predicate RecreateSkipped(hasParent: bool, parentActive: bool, usage: ResourceUsage, flags: TextureFlags)
  {
    || (hasParent && !parentActive)
    || ((usage == Immutable || usage == Default) && !flags.renderTarget && !flags.depthStencil)
  }

  class Texture {
    const device: Device
    const parent: Texture?
    const description: TextureDescription
    const viewFormat: PixelFormat
    const viewType: ViewType
    /** GetMipMapDescription(i) for every mip i of the description. */
    const mipmaps: seq<MipMapDescription>

    var lifetimeState: LifetimeState
    var image: Handle
    var buffer: Handle
    var memory: Handle
    var imageView: Handle
    var colorAttachmentView: Handle
    var depthStencilView: Handle
    var isNotOwningResources: bool
    var isInitialized: bool
    var nativeFormat: NativeFormat
    var pixelSize: int
    var hasStencil: bool
    var layout: ImageLayout
    var accessMask: set<Access>
    var aspect: set<Aspect>

    /** The description has a mip chain of int size with one entry per mip,
        and a texture is not its own parent. */
    predicate Valid()
    {
      && 0 < description.mipLevels < 0x8000_0000
      && |mipmaps| == description.mipLevels
      && parent != this
    }

    function Handles(): NativeHandles
      reads this`image, this`buffer, this`memory, this`imageView, this`colorAttachmentView, this`depthStencilView
    {
      NativeHandles(image, buffer, memory, imageView, colorAttachmentView, depthStencilView)
    }

    constructor (device: Device, parent: Texture?, description: TextureDescription, viewFormat: PixelFormat,
                 viewType: ViewType, mipmaps: seq<MipMapDescription>)
      requires 0 < description.mipLevels < 0x8000_0000 && |mipmaps| == description.mipLevels
      ensures Valid()
      ensures this.device == device && this.parent == parent && this.description == description
      ensures this.viewFormat == viewFormat && this.viewType == viewType && this.mipmaps == mipmaps
      ensures Handles() == NoHandles && lifetimeState == Active
      ensures !isNotOwningResources && !isInitialized && layout == Undefined && accessMask == {}
    {
      this.device := device;
      this.parent := parent;
      this.description := description;
      this.viewFormat := viewFormat;
      this.viewType := viewType;
      this.mipmaps := mipmaps;
      lifetimeState := Active;
      image, buffer, memory := Null, Null, Null;
      imageView, colorAttachmentView, depthStencilView := Null, Null, Null;
      isNotOwningResources, isInitialized := false, false;
      nativeFormat, pixelSize, hasStencil := OtherNativeFormat(0), 0, false;
      layout, accessMask, aspect := Undefined, {}, {};
    }

    /** The ImageCreateInfo CreateImage fills in. */
    function ImageInfo(): ImageCreateInfo
      reads this`nativeFormat
    {
      var (imageType, cube) := ImageTypeFor(description.dimension);
      ImageCreateInfo(imageType, cube, description.arraySize, description.width, description.height,
                      description.depth, description.mipLevels, nativeFormat, ImageUsageFor(description.flags))
    }

    /** Texture.Vulkan.cs, SetNativeHandles. */
    method SetNativeHandles(image: Handle, attachmentView: Handle)
      modifies this`image, this`colorAttachmentView
      ensures this.image == image && colorAttachmentView == attachmentView
    {
      this.image := image;
      colorAttachmentView := attachmentView;
    }

    /** Texture.Vulkan.cs, InitializeWithoutResources, up to its call of the
        engine's InitializeFrom. */
    method InitializeWithoutResources()
      modifies this`isNotOwningResources
      ensures isNotOwningResources
    {
      isNotOwningResources := true;
    }

    /** Texture.Vulkan.cs, InitializeFromPersistent, up to its call of the
        engine's InitializeFrom. */
    method InitializeFromPersistent(nativeImage: Handle)
      modifies this`image
      ensures image == nativeImage
    {
      image := nativeImage;
    }

    /** Texture.Vulkan.cs, CreateBuffer: a transfer buffer as large as the
        whole mip chain of every array slice, with host-visible memory bound
        to it when memory could be allocated. */
    method CreateBuffer()
      requires Valid()
      modifies this`buffer, this`memory, device`nextId, device`log
      ensures buffer == Live(old(device.nextId))
      ensures memory == Null <==> device.outOfMemory
      ensures memory != Null ==> memory == Live(old(device.nextId) + 1)
      ensures device.nextId >= old(device.nextId)
      ensures device.log == old(device.log) + BufferCreationEvents(buffer, memory, StagingBufferSize(mipmaps, description.arraySize))
    {
      var size: nat := 0;
      var i := 0;
      while i < description.mipLevels
        invariant 0 <= i <= description.mipLevels
        invariant size == StagingBufferSize(mipmaps[..i], description.arraySize)
        invariant unchanged(device)
      {
        var mipmap := mipmaps[i];
        assert mipmaps[..i + 1][..i] == mipmaps[..i];
        StagingBufferSizeBound(mipmaps[..i + 1], description.arraySize);
        size := (size + StagingTerm(mipmap, description.arraySize)) % UInt64Range;
        i := i + 1;
      }
      assert mipmaps[..description.mipLevels] == mipmaps;
      buffer := device.CreateBuffer(size, {BufferTransferSource, BufferTransferDestination});
      memory := device.AllocateMemory({HostVisible, HostCoherent});
      if memory != Null {
        device.Record(BoundBufferMemory(buffer, memory));
      }
    }

    /** Texture.Vulkan.cs, CreateImage: an optimal-tiling image of the
        texture's extent, layers and mips, with device-local memory bound to
        it when memory could be allocated. */
    method CreateImage()
      modifies this`image, this`memory, device`nextId, device`log
      ensures image == Live(old(device.nextId))
      ensures memory == Null <==> device.outOfMemory
      ensures memory != Null ==> memory == Live(old(device.nextId) + 1)
      ensures device.nextId >= old(device.nextId)
      ensures device.log == old(device.log) + ImageCreationEvents(image, memory, ImageInfo())
    {
      var imageType: ImageType;
      var cubeCompatible := false;
      match description.dimension {
        case Texture1D => imageType := Image1D;
        case Texture2D => imageType := Image2D;
        case Texture3D => imageType := Image3D;
        case TextureCube =>
          imageType := Image2D;
          cubeCompatible := true;
      }
      var usage: set<ImageUsage> := {TransferSource, TransferDestination};
      if description.flags.renderTarget {
        usage := usage + {ColorAttachment};
      }
      if description.flags.depthStencil {
        usage := usage + {DepthStencilAttachment};
      }
      if description.flags.shaderResource {
        usage := usage + {Sampled};
      }
      assert usage == ImageUsageFor(description.flags);
      var info := ImageCreateInfo(imageType, cubeCompatible, description.arraySize, description.width,
                                  description.height, description.depth, description.mipLevels, nativeFormat, usage);
      image := device.CreateImage(info);
      memory := device.AllocateMemory({DeviceLocal});
      if memory != Null {
        device.Record(BoundImageMemory(image, memory));
      }
      assert device.log == old(device.log) + ImageCreationEvents(image, memory, info);
      assert info == ImageInfo();
    }

    /** Texture.Vulkan.cs, InitializeImage: stage the data boxes in a region
        of the upload buffer, copy them into the image, and leave the image in
        its role's layout. */
    method InitializeImage(boxes: Option<seq<DataBox>>)
      requires Valid()
      modifies this`isInitialized, device`log, device`uploadCursor
      ensures isInitialized == (old(isInitialized) || HasData(boxes))
      ensures device.log == old(device.log) + UploadEvents(boxes, image, aspect, layout, accessMask, device.uploadBuffer,
                                                            old(device.uploadCursor), description.mipLevels, mipmaps)
      ensures device.uploadCursor == old(device.uploadCursor) + (if HasData(boxes) then TotalUploadSize(boxes.value) else 0)
    {
      device.Record(BeganCommands);
      if boxes.Some? && |boxes.value| > 0 {
        StageUpload(boxes.value);
        isInitialized := true;
      }
      ghost var staged := device.log;
      var source := FinalBarrierSource(boxes);
      device.Record(RecordedBarrier({Transfer}, {AllCommands}, [], [ImageBarrier(image, source.0, layout, source.1, accessMask, aspect)]));
      device.Record(EndedCommands);
      device.Record(Submitted);
      device.Record(WaitedIdle);
      device.Record(ResetCommands);
      UploadEventsParts(boxes, image, aspect, layout, accessMask, device.uploadBuffer, old(device.uploadCursor),
                        description.mipLevels, mipmaps);
      assert device.log == staged + [RecordedBarrier({Transfer}, {AllCommands}, [], [ImageBarrier(image, source.0, layout, source.1, accessMask, aspect)]),
                                     EndedCommands, Submitted, WaitedIdle, ResetCommands];
    }

    /** The data part of InitializeImage: request a region of the upload
        buffer large enough for the boxes, record the barrier and the copies. */
    method StageUpload(dataBoxes: seq<DataBox>)
      requires Valid()
      modifies device`log, device`uploadCursor
      ensures device.log == old(device.log) + StagingEvents(dataBoxes, image, aspect, device.uploadBuffer,
                                                             old(device.uploadCursor), description.mipLevels, mipmaps)
      ensures device.uploadCursor == old(device.uploadCursor) + TotalUploadSize(dataBoxes)
    {
      var totalSize := MeasureUpload(dataBoxes);
      var uploadResource, uploadOffset := device.AllocateUploadBuffer(totalSize);
      device.Record(RecordedBarrier({TopOfPipe}, {Transfer}, [BufferBarrier(uploadResource, {HostWrite}, {TransferRead}, uploadOffset, totalSize)],
                                    [ImageBarrier(image, Undefined, TransferDestinationOptimal, {}, {TransferWrite}, aspect)]));
      var copies := StageCopies(dataBoxes, uploadOffset, description.mipLevels, mipmaps);
      device.Record(RecordedCopy(uploadResource, image, TransferDestinationOptimal, copies));
    }

    /** Texture.Vulkan.cs, GetImageView: no view without the shader-resource
        role; otherwise the selected view type, or its exception. */
    method GetImageView(bounds: SliceBounds) returns (r: Result<Handle>)
      modifies device`nextId, device`log
      ensures var t := ShaderResourceViewType(viewType, description.dimension, description.arraySize, description.multisample);
              if !description.flags.shaderResource then r == Ok(Null) && unchanged(device)
              else if t.Err? then r == Err(t.error) && unchanged(device)
              else r == Ok(Live(old(device.nextId))) && device.nextId == old(device.nextId) + 1
                   && device.log == old(device.log) + [CreatedImageView(r.value,
                        ShaderResourceViewInfo(t.value, description.dimension, description.flags.depthStencil, nativeFormat, image, bounds))]
    {
      if !description.flags.shaderResource {
        return Ok(Null);
      }
      var t := ShaderResourceViewType(viewType, description.dimension, description.arraySize, description.multisample);
      if t.Err? {
        return Err(t.error);
      }
      var info := ShaderResourceViewInfo(t.value, description.dimension, description.flags.depthStencil, nativeFormat, image, bounds);
      var view := device.CreateImageView(info);
      return Ok(view);
    }

    /** Texture.Vulkan.cs, GetColorAttachmentView: no view without the
        render-target role; otherwise a single-layer 2D view, or the
        exception of the checks. */
    method GetColorAttachmentView(bounds: SliceBounds) returns (r: Result<Handle>)
      modifies device`nextId, device`log
      ensures var c := ColorAttachmentViewCheck(viewType, description.dimension, description.arraySize, description.multisample);
              if !description.flags.renderTarget then r == Ok(Null) && unchanged(device)
              else if c.Fail? then r == Err(c.error) && unchanged(device)
              else r == Ok(Live(old(device.nextId))) && device.nextId == old(device.nextId) + 1
                   && device.log == old(device.log) + [CreatedImageView(r.value, ColorAttachmentViewInfo(nativeFormat, image, bounds))]
    {
      if !description.flags.renderTarget {
        return Ok(Null);
      }
      var c := ColorAttachmentViewCheck(viewType, description.dimension, description.arraySize, description.multisample);
      if c.Fail? {
        return Err(c.error);
      }
      var view := device.CreateImageView(ColorAttachmentViewInfo(nativeFormat, image, bounds));
      return Ok(view);
    }

    /** Texture.Vulkan.cs, GetDepthStencilView: no view without the
        depth-stencil role; otherwise a view of slice 0, mip 0. */
    method GetDepthStencilView() returns (view: Handle)
      modifies device`nextId, device`log
      ensures !description.flags.depthStencil ==> view == Null && unchanged(device)
      ensures description.flags.depthStencil ==>
                view == Live(old(device.nextId)) && device.nextId == old(device.nextId) + 1
                && device.log == old(device.log) + [CreatedImageView(view, DepthStencilViewInfo(nativeFormat, image, aspect))]
    {
      if !description.flags.depthStencil {
        return Null;
      }
      view := device.CreateImageView(DepthStencilViewInfo(nativeFormat, image, aspect));
    }

    /** The format step of InitializeFromImpl. */
    predicate FormatResolved(converted: ConvertedFormat)
      reads this`hasStencil, this`aspect, this`pixelSize, this`nativeFormat
    {
      && hasStencil == IsStencilFormat(viewFormat)
      && aspect == AspectMask(description.flags.depthStencil, hasStencil)
      && pixelSize == converted.pixelSize
      && nativeFormat == ResolvedFormat(converted.format, viewFormat, description.flags.depthStencil, device.depthStencilFormats)
    }

    twostate predicate ViewsUnchanged()
      reads this
    {
      imageView == old(imageView) && colorAttachmentView == old(colorAttachmentView) && depthStencilView == old(depthStencilView)
    }

    /** The staging branch of InitializeFromImpl: refuse a texture that
        already has an image or owns no resources; a child aliases its
        parent's buffer and memory; otherwise create the buffer, then refuse
        initial data. */
    twostate predicate StagingInitialized(boxes: Option<seq<DataBox>>, outcome: Outcome)
      reads this, device, parent
    {
      && image == old(image) && layout == old(layout) && accessMask == old(accessMask)
      && isInitialized == old(isInitialized) && ViewsUnchanged()
      && device.uploadCursor == old(device.uploadCursor)
      && if old(image) != Null || isNotOwningResources then
           outcome == Fail(InvalidOperation) && buffer == old(buffer) && memory == old(memory)
           && device.log == old(device.log)
         else if parent != null then
           outcome == Pass && buffer == old(parent.buffer) && memory == old(parent.memory)
           && device.log == old(device.log)
         else
           && outcome == (if boxes.Some? then Fail(InvalidOperation) else Pass)
           && buffer == Live(old(device.nextId))
           && (memory == Null <==> device.outOfMemory)
           && device.log == old(device.log) + BufferCreationEvents(buffer, memory, StagingBufferSize(mipmaps, description.arraySize))
    }

    /** The shader-resource view is set exactly for that role, its type
        could be selected, and its identifier is `firstId` or later. */
    predicate ImageViewMade(firstId: nat)
      reads this`imageView
    {
      && (imageView != Null <==> description.flags.shaderResource)
      && (imageView != Null ==>
            && ShaderResourceViewType(viewType, description.dimension, description.arraySize, description.multisample).Ok?
            && imageView.id >= firstId)
    }

    /** The color view is set exactly for the render-target role, with an
        identifier from `firstId` on. */
    predicate ColorViewMade(firstId: nat)
      reads this`colorAttachmentView
    {
      && (colorAttachmentView != Null <==> description.flags.renderTarget)
      && (colorAttachmentView != Null ==> colorAttachmentView.id >= firstId)
    }

    /** The depth-stencil view is set exactly for the depth-stencil role,
        with an identifier from `firstId` on. */
    predicate DepthViewMade(firstId: nat)
      reads this`depthStencilView
    {
      && (depthStencilView != Null <==> description.flags.depthStencil)
      && (depthStencilView != Null ==> depthStencilView.id >= firstId)
    }

    /** The creation of the shader-resource view, if the texture holds one. */
    function ImageViewEvents(bounds: SliceBounds): seq<Event>
      reads this`imageView, this`nativeFormat, this`image
    {
      var t := ShaderResourceViewType(viewType, description.dimension, description.arraySize, description.multisample);
      if t.Ok? then
        IfLive(imageView, CreatedImageView(imageView, ShaderResourceViewInfo(t.value, description.dimension,
                                                                          description.flags.depthStencil, nativeFormat, image, bounds)))
      else []
    }

    /** The creation of the color view, if the texture holds one. */
    function ColorViewEvents(bounds: SliceBounds): seq<Event>
      reads this`colorAttachmentView, this`nativeFormat, this`image
    {
      IfLive(colorAttachmentView, CreatedImageView(colorAttachmentView, ColorAttachmentViewInfo(nativeFormat, image, bounds)))
    }

    /** The creation of the depth-stencil view, if the texture holds one. */
    function DepthViewEvents(): seq<Event>
      reads this`depthStencilView, this`nativeFormat, this`image, this`aspect
    {
      IfLive(depthStencilView, CreatedImageView(depthStencilView, DepthStencilViewInfo(nativeFormat, image, aspect)))
    }

    /** The views InitializeFromImpl creates for an owning texture that held
        the views of `previous`, with the log at `start` before them: the
        shader-resource view, then the color view, then the depth-stencil
        view, each only for its role and with an identifier from `firstId`
        on; a view exception stops the sequence, and the log holds exactly
        the views created. */
    predicate ViewsCreated(bounds: SliceBounds, outcome: Outcome, previous: NativeHandles, firstId: nat, start: seq<Event>)
      reads this`imageView, this`colorAttachmentView, this`depthStencilView, this`nativeFormat, this`image,
            this`aspect, device`log
    {
      var t := ShaderResourceViewType(viewType, description.dimension, description.arraySize, description.multisample);
      var c := ColorAttachmentViewCheck(viewType, description.dimension, description.arraySize, description.multisample);
      if description.flags.shaderResource && t.Err? then
        && outcome == Fail(t.error)
        && imageView == previous.imageView && colorAttachmentView == previous.colorAttachmentView
        && depthStencilView == previous.depthStencilView
        && device.log == start
      else if description.flags.renderTarget && c.Fail? then
        && outcome == c
        && ImageViewMade(firstId)
        && colorAttachmentView == previous.colorAttachmentView && depthStencilView == previous.depthStencilView
        && device.log == start + ImageViewEvents(bounds)
      else
        && outcome == Pass
        && ImageViewMade(firstId) && ColorViewMade(firstId) && DepthViewMade(firstId)
        && device.log == start + ImageViewEvents(bounds) + ColorViewEvents(bounds) + DepthViewEvents()
    }

    /** The state the image branch of InitializeFromImpl starts from. */
    function Snap(): Snapshot
      reads this, device, parent
    {
      Snapshot(Handles(), accessMask, isInitialized,
               if parent != null then parent.image else Null, if parent != null then parent.memory else Null,
               device.nextId, device.log, device.uploadCursor)
    }

    /** The resource step of the image branch from the state `before` whose
        image was Null: the layout and access mask of the texture's role; a
        child aliases its parent's image and memory, a not-owning texture
        keeps its own, any other texture gets a fresh image. */
    predicate ImageAcquired(boxes: Option<seq<DataBox>>, before: Snapshot)
      reads this`layout, this`accessMask, this`buffer, this`image, this`memory, this`isInitialized,
            this`isNotOwningResources, device`nextId
    {
      && layout == TargetLayout(description.flags)
      && accessMask == AccessMaskFor(layout, before.accessMask)
      && buffer == before.handles.buffer
      && device.nextId >= before.nextId
      && (parent != null ==>
            image == before.parentImage && memory == before.parentMemory && isInitialized == before.isInitialized)
      && (parent == null && isNotOwningResources ==>
            image == before.handles.image && memory == before.handles.memory && isInitialized == before.isInitialized)
      && (parent == null && !isNotOwningResources ==>
            && image == Live(before.nextId)
            && (memory == Null <==> device.outOfMemory)
            && isInitialized == (before.isInitialized || HasData(boxes)))
    }

    /** The native calls of the resource step of the image branch: none for
        a child or a not-owning texture, and for any other texture the image
        creation and the upload. */
    function AcquiredEvents(boxes: Option<seq<DataBox>>, before: Snapshot): seq<Event>
      requires Valid()
      reads this`nativeFormat, this`image, this`memory, this`aspect, this`layout, this`accessMask,
            this`isNotOwningResources
    {
      if parent != null || isNotOwningResources then []
      else ImageCreationEvents(image, memory, ImageInfo())
           + UploadEvents(boxes, image, aspect, layout, accessMask, device.uploadBuffer,
                          before.uploadCursor, description.mipLevels, mipmaps)
    }

    /** The image branch of InitializeFromImpl past its refusal, from the
        state `before` whose image was Null: resources, calls, and then the
        views of an owning texture. */
    predicate ImageBuilt(boxes: Option<seq<DataBox>>, bounds: SliceBounds, outcome: Outcome, before: Snapshot)
      requires Valid()
      reads this, device
    {
      && ImageAcquired(boxes, before)
      && (isNotOwningResources ==>
            && outcome == Pass && imageView == before.handles.imageView
            && colorAttachmentView == before.handles.colorAttachmentView
            && depthStencilView == before.handles.depthStencilView
            && device.log == before.log)
      && (!isNotOwningResources ==>
            ViewsCreated(bounds, outcome, before.handles, before.nextId, before.log + AcquiredEvents(boxes, before)))
    }

    /** The image branch of InitializeFromImpl: refuse a texture that already
        has an image, else build it. */
    twostate predicate ImageInitialized(boxes: Option<seq<DataBox>>, bounds: SliceBounds, outcome: Outcome)
      requires Valid()
      reads this, device, parent
    {
      if old(image) != Null then
        && outcome == Fail(InvalidOperation)
        && Handles() == old(Handles()) && layout == old(layout) && accessMask == old(accessMask)
        && isInitialized == old(isInitialized)
        && device.log == old(device.log) && device.uploadCursor == old(device.uploadCursor)
      else
        ImageBuilt(boxes, bounds, outcome, old(Snap()))
    }

    /** Everything InitializeFromImpl promises. */
    twostate predicate InitializeEffect(boxes: Option<seq<DataBox>>, converted: ConvertedFormat, bounds: SliceBounds, outcome: Outcome)
      requires Valid()
      reads this, device, parent
    {
      && FormatResolved(converted)
      && device.nextId >= old(device.nextId)
      && if description.usage == Staging then StagingInitialized(boxes, outcome)
         else ImageInitialized(boxes, bounds, outcome)
    }

    /** The format step of InitializeFromImpl: convert the view format,
        derive stencil and aspect, and fall back to a supported
        depth-stencil format when the texture needs one. */
    method ResolveFormat(converted: ConvertedFormat)
      modifies this`nativeFormat, this`pixelSize, this`hasStencil, this`aspect
      ensures FormatResolved(converted)
    {
      nativeFormat := converted.format;
      pixelSize := converted.pixelSize;
      hasStencil := IsStencilFormat(viewFormat);
      aspect := if description.flags.depthStencil then {Depth} else {Color};
      if hasStencil {
        aspect := aspect + {Stencil};
      }
      if description.flags.depthStencil && hasStencil {
        nativeFormat := GetFallbackDepthStencilFormat(device.depthStencilFormats, nativeFormat);
      }
    }

    /** InitializeFromImpl for a Staging texture. */
    method InitializeStaging(boxes: Option<seq<DataBox>>, converted: ConvertedFormat) returns (outcome: Outcome)
      requires Valid() && description.usage == Staging
      modifies this`nativeFormat, this`pixelSize, this`hasStencil, this`aspect, this`buffer, this`memory,
               device`nextId, device`log
      ensures FormatResolved(converted) && device.nextId >= old(device.nextId)
      ensures StagingInitialized(boxes, outcome)
    {
      ResolveFormat(converted);
      if image != Null {
        return Fail(InvalidOperation);
      }
      if isNotOwningResources {
        return Fail(InvalidOperation);
      }
      if parent != null {
        buffer := parent.buffer;
        memory := parent.memory;
      } else {
        CreateBuffer();
        if boxes.Some? {
          return Fail(InvalidOperation);
        }
      }
      return Pass;
    }

    /** The view step of InitializeFromImpl for an owning texture. */
    method CreateViews(bounds: SliceBounds, ghost previous: NativeHandles, ghost firstId: nat) returns (outcome: Outcome)
      requires imageView == previous.imageView && colorAttachmentView == previous.colorAttachmentView
      requires depthStencilView == previous.depthStencilView && firstId <= device.nextId
      modifies this`imageView, this`colorAttachmentView, this`depthStencilView, device`nextId, device`log
      ensures ViewsCreated(bounds, outcome, previous, firstId, old(device.log))
      ensures device.nextId >= old(device.nextId)
    {
      outcome := CreateImageView(bounds, firstId);
      if outcome.Fail? {
        return;
      }
      outcome := CreateColorView(bounds, firstId);
      if outcome.Fail? {
        return;
      }
      CreateDepthView(firstId);
    }

    /** Sets the shader-resource view from GetImageView, or reports its
        exception with nothing changed. */
    method CreateImageView(bounds: SliceBounds, ghost firstId: nat) returns (outcome: Outcome)
      requires firstId <= device.nextId
      modifies this`imageView, device`nextId, device`log
      ensures var t := ShaderResourceViewType(viewType, description.dimension, description.arraySize, description.multisample);
              if description.flags.shaderResource && t.Err? then
                outcome == Fail(t.error) && imageView == old(imageView) && unchanged(device)
              else
                && outcome == Pass && ImageViewMade(firstId)
                && device.log == old(device.log) + ImageViewEvents(bounds)
      ensures device.nextId >= old(device.nextId)
    {
      var v := GetImageView(bounds);
      if v.Err? {
        return Fail(v.error);
      }
      imageView := v.value;
      return Pass;
    }

    /** Sets the color view from GetColorAttachmentView, or reports its
        exception with nothing changed. */
    method CreateColorView(bounds: SliceBounds, ghost firstId: nat) returns (outcome: Outcome)
      requires firstId <= device.nextId
      modifies this`colorAttachmentView, device`nextId, device`log
      ensures var c := ColorAttachmentViewCheck(viewType, description.dimension, description.arraySize, description.multisample);
              if description.flags.renderTarget && c.Fail? then
                outcome == c && colorAttachmentView == old(colorAttachmentView) && unchanged(device)
              else
                && outcome == Pass && ColorViewMade(firstId)
                && device.log == old(device.log) + ColorViewEvents(bounds)
      ensures device.nextId >= old(device.nextId)
    {
      var c := GetColorAttachmentView(bounds);
      if c.Err? {
        return Fail(c.error);
      }
      colorAttachmentView := c.value;
      return Pass;
    }

    /** Sets the depth-stencil view from GetDepthStencilView. */
    method CreateDepthView(ghost firstId: nat)
      requires firstId <= device.nextId
      modifies this`depthStencilView, device`nextId, device`log
      ensures DepthViewMade(firstId) && device.log == old(device.log) + DepthViewEvents()
      ensures device.nextId >= old(device.nextId)
    {
      depthStencilView := GetDepthStencilView();
    }

    /** InitializeFromImpl for a texture that is not Staging. */
    method InitializeImageResources(boxes: Option<seq<DataBox>>, converted: ConvertedFormat, bounds: SliceBounds)
      returns (outcome: Outcome)
      requires Valid() && description.usage != Staging
      modifies this`nativeFormat, this`pixelSize, this`hasStencil, this`aspect, this`layout, this`accessMask,
               this`image, this`memory, this`imageView, this`colorAttachmentView, this`depthStencilView,
               this`isInitialized, device`nextId, device`log, device`uploadCursor
      ensures FormatResolved(converted) && device.nextId >= old(device.nextId)
      ensures ImageInitialized(boxes, bounds, outcome)
    {
      ResolveFormat(converted);
      if image != Null {
        return Fail(InvalidOperation);
      }
      assert Snap() == old(Snap());
      outcome := BuildImage(boxes, bounds);
    }

    /** The image branch of InitializeFromImpl once no image is present. */
    method BuildImage(boxes: Option<seq<DataBox>>, bounds: SliceBounds) returns (outcome: Outcome)
      requires Valid() && image == Null
      modifies this`layout, this`accessMask, this`image, this`memory, this`imageView, this`colorAttachmentView,
               this`depthStencilView, this`isInitialized, device`nextId, device`log, device`uploadCursor
      ensures ImageBuilt(boxes, bounds, outcome, old(Snap()))
    {
      ghost var before := old(Snap());
      layout := TargetLayout(description.flags);
      accessMask := AccessMaskFor(layout, accessMask);

      AcquireImage(boxes);
      assert ImageAcquired(boxes, before);
      if !isNotOwningResources {
        outcome := BuildViews(boxes, bounds, before);
      } else {
        outcome := Pass;
      }
    }

    /** The view step of the image branch for an owning texture whose
        resource step, from `before`, is done. */
    method BuildViews(boxes: Option<seq<DataBox>>, bounds: SliceBounds, ghost before: Snapshot) returns (outcome: Outcome)
      requires Valid() && !isNotOwningResources && ImageAcquired(boxes, before)
      requires device.log == before.log + AcquiredEvents(boxes, before)
      requires imageView == before.handles.imageView && colorAttachmentView == before.handles.colorAttachmentView
      requires depthStencilView == before.handles.depthStencilView
      modifies this`imageView, this`colorAttachmentView, this`depthStencilView, device`nextId, device`log
      ensures ImageBuilt(boxes, bounds, outcome, before)
    {
      ghost var start := device.log;
      outcome := CreateViews(bounds, before.handles, before.nextId);
      assert start == before.log + AcquiredEvents(boxes, before);
    }

    /** The resource step of InitializeFromImpl for a texture that is not
        Staging: a child aliases its parent's image and memory, a not-owning
        texture creates nothing, any other texture creates its image and
        uploads its initial data. */
    method AcquireImage(boxes: Option<seq<DataBox>>)
      requires Valid()
      modifies this`image, this`memory, this`isInitialized, device`nextId, device`log, device`uploadCursor
      ensures parent != null ==>
                image == old(parent.image) && memory == old(parent.memory) && isInitialized == old(isInitialized)
                && unchanged(device)
      ensures parent == null && isNotOwningResources ==>
                image == old(image) && memory == old(memory) && isInitialized == old(isInitialized) && unchanged(device)
      ensures parent == null && !isNotOwningResources ==>
                && image == Live(old(device.nextId))
                && (memory == Null <==> device.outOfMemory)
                && isInitialized == (old(isInitialized) || HasData(boxes))
                && device.nextId >= old(device.nextId)
                && device.log == old(device.log) + ImageCreationEvents(image, memory, ImageInfo())
                   + UploadEvents(boxes, image, aspect, layout, accessMask, device.uploadBuffer,
                                  old(device.uploadCursor), description.mipLevels, mipmaps)
    {
      if parent != null {
        image := parent.image;
        memory := parent.memory;
      } else if !isNotOwningResources {
        CreateImage();
        InitializeImage(boxes);
      }
    }

    /** Texture.Vulkan.cs, InitializeFromImpl. */
    method InitializeFromImpl(boxes: Option<seq<DataBox>>, converted: ConvertedFormat, bounds: SliceBounds) returns (outcome: Outcome)
      requires Valid()
      modifies this`nativeFormat, this`pixelSize, this`hasStencil, this`aspect, this`layout, this`accessMask,
               this`image, this`buffer, this`memory, this`imageView, this`colorAttachmentView, this`depthStencilView,
               this`isInitialized, device`nextId, device`log, device`uploadCursor
      ensures InitializeEffect(boxes, converted, bounds, outcome)
    {
      if description.usage == Staging {
        outcome := InitializeStaging(boxes, converted);
      } else {
        outcome := InitializeImageResources(boxes, converted, bounds);
      }
    }

    /** Texture.Vulkan.cs, Recreate. */
    method Recreate(boxes: Option<seq<DataBox>>, converted: ConvertedFormat, bounds: SliceBounds) returns (outcome: Outcome)
      requires Valid()
      modifies this`nativeFormat, this`pixelSize, this`hasStencil, this`aspect, this`layout, this`accessMask,
               this`image, this`buffer, this`memory, this`imageView, this`colorAttachmentView, this`depthStencilView,
               this`isInitialized, device`nextId, device`log, device`uploadCursor
      ensures InitializeEffect(boxes, converted, bounds, outcome)
    {
      outcome := InitializeFromImpl(boxes, converted, bounds);
    }

    /** Texture.Vulkan.cs, OnRecreateImpl: wait for the parent, keep static
        content, otherwise initialize again without data. */
    method OnRecreateImpl(converted: ConvertedFormat, bounds: SliceBounds) returns (outcome: Outcome)
      requires Valid()
      modifies this`nativeFormat, this`pixelSize, this`hasStencil, this`aspect, this`layout, this`accessMask,
               this`image, this`buffer, this`memory, this`imageView, this`colorAttachmentView, this`depthStencilView,
               this`isInitialized, device`nextId, device`log, device`uploadCursor
      ensures var skipped := RecreateSkipped(parent != null, parent != null && parent.lifetimeState == Active,
                                             description.usage, description.flags);
              && (skipped ==> outcome == Pass && unchanged(this) && unchanged(device))
              && (!skipped ==> InitializeEffect(None, converted, bounds, outcome))
    {
      if parent != null && parent.lifetimeState != Active {
        return Pass;
      }
      if (description.usage == Immutable || description.usage == Default)
         && !description.flags.renderTarget && !description.flags.depthStencil {
        return Pass;
      }
      outcome := InitializeFromImpl(None, converted, bounds);
    }

    /** Texture.Vulkan.cs, OnDestroyed: a child or not-owning texture forgets
        its image and memory; an owning texture (a child included) then
        releases every handle it still holds. */
    method OnDestroyed()
      modifies this`image, this`buffer, this`memory, this`imageView, this`colorAttachmentView, this`depthStencilView, device`log
      ensures Handles() == HandlesAfterDestroy(old(Handles()), parent != null, isNotOwningResources)
      ensures device.log == old(device.log) + DestroyEvents(old(Handles()), parent != null, isNotOwningResources)
    {
      if parent != null || isNotOwningResources {
        image := Null;
        memory := Null;
      }
      if !isNotOwningResources {
        ghost var h := Handles();
        ghost var log0 := device.log;
        memory := device.Release(memory, FreedMemory(memory));
        ghost var log1 := device.log;
        image := device.Release(image, DestroyedImage(image));
        ghost var log2 := device.log;
        buffer := device.Release(buffer, DestroyedBuffer(buffer));
        ghost var log3 := device.log;
        imageView := device.Release(imageView, DestroyedImageView(imageView));
        ghost var log4 := device.log;
        colorAttachmentView := device.Release(colorAttachmentView, DestroyedImageView(colorAttachmentView));
        ghost var log5 := device.log;
        depthStencilView := device.Release(depthStencilView, DestroyedImageView(depthStencilView));
        LogChain(log0, log1, log2, log3, log4, log5, device.log, h);
      }
    }

    /** Views made over a texture that held none log exactly the views
        now held. */
    lemma ViewsFromNothing(bounds: SliceBounds, outcome: Outcome, firstId: nat, start: seq<Event>)
      requires ViewsCreated(bounds, outcome, NoHandles, firstId, start)
      ensures device.log == start + (ImageViewEvents(bounds) + ColorViewEvents(bounds) + DepthViewEvents())
      ensures Created(ImageViewEvents(bounds)) == HandleIf(imageView)
      ensures Created(ColorViewEvents(bounds)) == HandleIf(colorAttachmentView)
      ensures Created(DepthViewEvents()) == HandleIf(depthStencilView)
    {
      var t := ShaderResourceViewType(viewType, description.dimension, description.arraySize, description.multisample);
      var c := ColorAttachmentViewCheck(viewType, description.dimension, description.arraySize, description.multisample);
      var shaderView, colorView, depthView := ImageViewEvents(bounds), ColorViewEvents(bounds), DepthViewEvents();
      if description.flags.shaderResource && t.Err? {
        assert shaderView + colorView + depthView == [];
      } else if description.flags.renderTarget && c.Fail? {
        assert shaderView + colorView + depthView == shaderView;
      } else {
        assert start + shaderView + colorView + depthView == start + (shaderView + colorView + depthView);
      }
      ImageViewCreates(bounds);
      CreatedOne(colorAttachmentView, CreatedImageView(colorAttachmentView, ColorAttachmentViewInfo(nativeFormat, image, bounds)));
      CreatedOne(depthStencilView, CreatedImageView(depthStencilView, DepthStencilViewInfo(nativeFormat, image, aspect)));
    }

    /** The shader-resource view call creates the view, when one is held
        only for a view type the texture accepts. */
    lemma ImageViewCreates(bounds: SliceBounds)
      requires imageView != Null ==>
                 ShaderResourceViewType(viewType, description.dimension, description.arraySize, description.multisample).Ok?
      ensures Created(ImageViewEvents(bounds)) == HandleIf(imageView)
    {
      var t := ShaderResourceViewType(viewType, description.dimension, description.arraySize, description.multisample);
      if t.Ok? {
        CreatedOne(imageView, CreatedImageView(imageView, ShaderResourceViewInfo(t.value, description.dimension,
                                                 description.flags.depthStencil, nativeFormat, image, bounds)));
      }
    }

    /** An owning texture without a parent that held no handles, once its
        image branch ran, releases on destruction exactly the handles the
        branch created: its image, its memory when one was allocated, and
        every view it made, each as often as it was created. */
    lemma InitializeThenDestroy(boxes: Option<seq<DataBox>>, bounds: SliceBounds, outcome: Outcome, before: Snapshot)
      requires Valid() && parent == null && !isNotOwningResources && before.handles == NoHandles
      requires ImageBuilt(boxes, bounds, outcome, before)
      ensures before.log <= device.log
      ensures multiset(Released(DestroyEvents(Handles(), false, false))) == multiset(Created(device.log[|before.log|..]))
    {
      assert buffer == Null && image != Null;
      ViewsFromNothing(bounds, outcome, before.nextId, before.log + AcquiredEvents(boxes, before));
      MadeThenDestroy(boxes, bounds, before);
    }

    /** The releases of an owning texture without a parent and without a
        buffer match the handles its image creation, upload and views
        created. */
    lemma MadeThenDestroy(boxes: Option<seq<DataBox>>, bounds: SliceBounds, before: Snapshot)
      requires Valid() && parent == null && !isNotOwningResources && buffer == Null && image != Null
      requires device.log == before.log + AcquiredEvents(boxes, before)
                            + (ImageViewEvents(bounds) + ColorViewEvents(bounds) + DepthViewEvents())
      requires Created(ImageViewEvents(bounds)) == HandleIf(imageView)
      requires Created(ColorViewEvents(bounds)) == HandleIf(colorAttachmentView)
      requires Created(DepthViewEvents()) == HandleIf(depthStencilView)
      ensures before.log <= device.log
      ensures multiset(Released(DestroyEvents(Handles(), false, false))) == multiset(Created(device.log[|before.log|..]))
    {
      var upload := UploadEvents(boxes, image, aspect, layout, accessMask, device.uploadBuffer,
                                 before.uploadCursor, description.mipLevels, mipmaps);
      UploadCreatesNothing(boxes, image, aspect, layout, accessMask, device.uploadBuffer,
                           before.uploadCursor, description.mipLevels, mipmaps);
      var h := Handles();
      var made := ImageCreationEvents(h.image, h.memory, ImageInfo()) + upload
                  + (ImageViewEvents(bounds) + ColorViewEvents(bounds) + DepthViewEvents());
      assert AcquiredEvents(boxes, before) == ImageCreationEvents(h.image, h.memory, ImageInfo()) + upload;
      CreatedAfter(before.log, made, device.log);
      assert multiset(Released(DestroyEvents(h, false, false))) == multiset(Created(made)) by {
        DestroyOwner(h);
        ImageBranchCreates(h, ImageInfo(), upload, ImageViewEvents(bounds), ColorViewEvents(bounds), DepthViewEvents());
      }
    }

    /** An owning Staging texture without a parent that held no handles,
        once initialized, releases on destruction exactly the handles
        initialization created: its buffer, and its memory when one was
        allocated. */
    twostate lemma StagingThenDestroy(boxes: Option<seq<DataBox>>, outcome: Outcome)
      requires parent == null && !isNotOwningResources && old(Handles()) == NoHandles
      requires StagingInitialized(boxes, outcome)
      ensures old(device.log) <= device.log
      ensures multiset(Released(DestroyEvents(Handles(), false, false))) == multiset(Created(device.log[|old(device.log)|..]))
    {
      var made := BufferCreationEvents(buffer, memory, StagingBufferSize(mipmaps, description.arraySize));
      assert device.log[|old(device.log)|..] == made;
      BufferCreationCreates(buffer, memory, StagingBufferSize(mipmaps, description.arraySize));
      ReleaseEventsRelease(Handles());
    }
  }

  /** The handles a child or not-owning texture still holds once it has
      forgotten its image and memory. */
  function Detach(h: NativeHandles, isChild: bool, notOwning: bool): NativeHandles
  {
    if isChild || notOwning then h.(image := Null, memory := Null) else h
  }

  /** The releases of the non-Null handles, in the order memory, image,
      buffer, shader-resource view, color view, depth-stencil view. */
  function ReleaseEvents(h: NativeHandles): seq<Event>
  {
    IfLive(h.memory, FreedMemory(h.memory))
    + IfLive(h.image, DestroyedImage(h.image))
    + IfLive(h.buffer, DestroyedBuffer(h.buffer))
    + IfLive(h.imageView, DestroyedImageView(h.imageView))
    + IfLive(h.colorAttachmentView, DestroyedImageView(h.colorAttachmentView))
    + IfLive(h.depthStencilView, DestroyedImageView(h.depthStencilView))
  }

  /** Six logs, each the previous one plus the release of the next handle,
      end with the releases of all six. */
  lemma LogChain(l0: seq<Event>, l1: seq<Event>, l2: seq<Event>, l3: seq<Event>, l4: seq<Event>, l5: seq<Event>,
                 l6: seq<Event>, h: NativeHandles)
    requires l1 == l0 + IfLive(h.memory, FreedMemory(h.memory))
    requires l2 == l1 + IfLive(h.image, DestroyedImage(h.image))
    requires l3 == l2 + IfLive(h.buffer, DestroyedBuffer(h.buffer))
    requires l4 == l3 + IfLive(h.imageView, DestroyedImageView(h.imageView))
    requires l5 == l4 + IfLive(h.colorAttachmentView, DestroyedImageView(h.colorAttachmentView))
    requires l6 == l5 + IfLive(h.depthStencilView, DestroyedImageView(h.depthStencilView))
    ensures l6 == l0 + ReleaseEvents(h)
  {
  }

  /** The native calls OnDestroyed makes. */
  function DestroyEvents(h: NativeHandles, isChild: bool, notOwning: bool): seq<Event>
  {
    if notOwning then [] else ReleaseEvents(Detach(h, isChild, notOwning))
  }

  /** The handles a texture holds after OnDestroyed. */
  function HandlesAfterDestroy(h: NativeHandles, isChild: bool, notOwning: bool): NativeHandles
  {
    if notOwning then Detach(h, isChild, notOwning) else NoHandles
  }

  /** The handle an event releases, or Null for any other event. */
  function ReleasedHandle(e: Event): Handle
  {
    match e
    case FreedMemory(m) => m
    case DestroyedImage(i) => i
    case DestroyedBuffer(b) => b
    case DestroyedImageView(v) => v
    case _ => Null
  }

  /** The position of a release kind in the destruction order. */
  function ReleaseRank(e: Event): nat
  {
    match e
    case FreedMemory(_) => 0
    case DestroyedImage(_) => 1
    case DestroyedBuffer(_) => 2
    case _ => 3
  }

  /** The handle an event creates, or Null for any other event. */
  function CreatedHandle(e: Event): Handle
  {
    match e
    case CreatedBuffer(b, _, _) => b
    case CreatedImage(i, _) => i
    case AllocatedMemory(m, _) => m
    case CreatedImageView(v, _) => v
    case _ => Null
  }

  /** A handle as a run of at most one handle: none for Null. */
  function HandleIf(h: Handle): seq<Handle>
  {
    if h != Null then [h] else []
  }

  /** The handles a run of events creates, in order. */
  function Created(events: seq<Event>): seq<Handle>
  {
    if events == [] then [] else HandleIf(CreatedHandle(events[0])) + Created(events[1..])
  }

  /** The handles a run of events releases, in order. */
  function Released(events: seq<Event>): seq<Handle>
  {
    if events == [] then [] else HandleIf(ReleasedHandle(events[0])) + Released(events[1..])
  }

  lemma {:induction false} CreatedAppend(a: seq<Event>, b: seq<Event>)
    ensures Created(a + b) == Created(a) + Created(b)
  {
    if a != [] {
      assert (a + b)[1..] == a[1..] + b;
      CreatedAppend(a[1..], b);
    } else {
      assert a + b == b;
    }
  }

  lemma {:induction false} ReleasedAppend(a: seq<Event>, b: seq<Event>)
    ensures Released(a + b) == Released(a) + Released(b)
  {
    if a != [] {
      assert (a + b)[1..] == a[1..] + b;
      ReleasedAppend(a[1..], b);
    } else {
      assert a + b == b;
    }
  }

  /** The creation call of a handle creates that handle, if it is not Null. */
  lemma CreatedOne(h: Handle, e: Event)
    requires CreatedHandle(e) == h
    ensures Created(IfLive(h, e)) == HandleIf(h)
  {
    if h != Null {
      assert [e][1..] == [];
    }
  }

  /** The release call of a handle releases that handle, if it is not Null. */
  lemma ReleasedOne(h: Handle, e: Event)
    requires ReleasedHandle(e) == h
    ensures Released(IfLive(h, e)) == HandleIf(h)
  {
    if h != Null {
      assert [e][1..] == [];
    }
  }

  /** CreateImage creates the image, and its memory when one was allocated. */
  lemma ImageCreationCreates(image: Handle, memory: Handle, info: ImageCreateInfo)
    ensures Created(ImageCreationEvents(image, memory, info)) == HandleIf(image) + HandleIf(memory)
  {
    var first := CreatedImage(image, info);
    assert [first][1..] == [];
    if memory != Null {
      var rest := [AllocatedMemory(memory, {DeviceLocal}), BoundImageMemory(image, memory)];
      assert rest[1..][1..] == [];
      CreatedAppend([first], rest);
    } else {
      assert ImageCreationEvents(image, memory, info) == [first];
    }
  }

  /** CreateBuffer creates the buffer, and its memory when one was allocated. */
  lemma BufferCreationCreates(buffer: Handle, memory: Handle, size: nat)
    ensures Created(BufferCreationEvents(buffer, memory, size)) == HandleIf(buffer) + HandleIf(memory)
  {
    var first := CreatedBuffer(buffer, size, {BufferTransferSource, BufferTransferDestination});
    assert [first][1..] == [];
    if memory != Null {
      var rest := [AllocatedMemory(memory, {HostVisible, HostCoherent}), BoundBufferMemory(buffer, memory)];
      assert rest[1..][1..] == [];
      CreatedAppend([first], rest);
    } else {
      assert BufferCreationEvents(buffer, memory, size) == [first];
    }
  }

  /** A run of events none of which creates anything creates no handle. */
  lemma {:induction false} NoneCreated(events: seq<Event>)
    requires forall e :: e in events ==> CreatedHandle(e) == Null
    ensures Created(events) == []
  {
    if events != [] {
      assert forall e :: e in events[1..] ==> e in events;
      NoneCreated(events[1..]);
    }
  }

  /** The upload records commands only: it creates no handle. */
  lemma UploadCreatesNothing(boxes: Option<seq<DataBox>>, image: Handle, aspect: set<Aspect>,
                             layout: ImageLayout, accessMask: set<Access>, uploadBuffer: Handle, start: nat,
                             mipLevels: int, mips: seq<MipMapDescription>)
    requires mipLevels > 0 && |mips| == mipLevels
    ensures Created(UploadEvents(boxes, image, aspect, layout, accessMask, uploadBuffer, start, mipLevels, mips)) == []
  {
    UploadEventsParts(boxes, image, aspect, layout, accessMask, uploadBuffer, start, mipLevels, mips);
    NoneCreated(UploadEvents(boxes, image, aspect, layout, accessMask, uploadBuffer, start, mipLevels, mips));
  }

  /** The releases of a set of handles release each non-Null handle once,
      in the order memory, image, buffer, then the three views. */
  lemma ReleaseEventsRelease(h: NativeHandles)
    ensures Released(ReleaseEvents(h))
            == HandleIf(h.memory) + HandleIf(h.image) + HandleIf(h.buffer)
               + HandleIf(h.imageView) + HandleIf(h.colorAttachmentView) + HandleIf(h.depthStencilView)
  {
    var a := IfLive(h.memory, FreedMemory(h.memory));
    var b := IfLive(h.image, DestroyedImage(h.image));
    var c := IfLive(h.buffer, DestroyedBuffer(h.buffer));
    var d := IfLive(h.imageView, DestroyedImageView(h.imageView));
    var e := IfLive(h.colorAttachmentView, DestroyedImageView(h.colorAttachmentView));
    var f := IfLive(h.depthStencilView, DestroyedImageView(h.depthStencilView));
    ReleasedOne(h.memory, FreedMemory(h.memory));
    ReleasedOne(h.image, DestroyedImage(h.image));
    ReleasedOne(h.buffer, DestroyedBuffer(h.buffer));
    ReleasedOne(h.imageView, DestroyedImageView(h.imageView));
    ReleasedOne(h.colorAttachmentView, DestroyedImageView(h.colorAttachmentView));
    ReleasedOne(h.depthStencilView, DestroyedImageView(h.depthStencilView));
    ReleasedAppend(a + b + c + d + e, f);
    ReleasedAppend(a + b + c + d, e);
    ReleasedAppend(a + b + c, d);
    ReleasedAppend(a + b, c);
    ReleasedAppend(a, b);
  }

  /** The image creation, an upload that creates nothing, and view calls
      that create the views of `h` create, up to order, exactly what the
      releases of `h` release, when `h` holds no buffer. */
  lemma ImageBranchCreates(h: NativeHandles, info: ImageCreateInfo, upload: seq<Event>,
                           shaderView: seq<Event>, colorView: seq<Event>, depthView: seq<Event>)
    requires h.buffer == Null && h.image != Null && Created(upload) == []
    requires Created(shaderView) == HandleIf(h.imageView)
    requires Created(colorView) == HandleIf(h.colorAttachmentView)
    requires Created(depthView) == HandleIf(h.depthStencilView)
    ensures multiset(Released(ReleaseEvents(h)))
            == multiset(Created(ImageCreationEvents(h.image, h.memory, info) + upload + (shaderView + colorView + depthView)))
  {
    var creation := ImageCreationEvents(h.image, h.memory, info);
    CreatedAppend(creation + upload, shaderView + colorView + depthView);
    CreatedAppend(creation, upload);
    CreatedAppend(shaderView + colorView, depthView);
    CreatedAppend(shaderView, colorView);
    ImageCreationCreates(h.image, h.memory, info);
    ReleaseEventsRelease(h);
  }

  /** An event a run does not contain occurs in it zero times. */
  lemma NotCounted(x: Event, events: seq<Event>)
    requires x !in events
    ensures multiset(events)[x] == 0
  {
  }

  /** An owning texture without a parent frees its memory and destroys its
      image exactly once. */
  lemma DestroyOwnerCounts(h: NativeHandles)
    requires h.memory != Null && h.image != Null
    ensures multiset(DestroyEvents(h, false, false))[FreedMemory(h.memory)] == 1
    ensures multiset(DestroyEvents(h, false, false))[DestroyedImage(h.image)] == 1
  {
    assert DestroyEvents(h, false, false) == ReleaseEvents(h);
    ReleaseCount(FreedMemory(h.memory), h);
    ReleaseCount(DestroyedImage(h.image), h);
  }

  /** The occurrences of an event among the releases of a set of handles:
      one per handle the event releases. */
  lemma ReleaseCount(x: Event, h: NativeHandles)
    ensures multiset(ReleaseEvents(h))[x]
            == multiset(IfLive(h.memory, FreedMemory(h.memory)))[x]
               + multiset(IfLive(h.image, DestroyedImage(h.image)))[x]
               + multiset(IfLive(h.buffer, DestroyedBuffer(h.buffer)))[x]
               + multiset(IfLive(h.imageView, DestroyedImageView(h.imageView)))[x]
               + multiset(IfLive(h.colorAttachmentView, DestroyedImageView(h.colorAttachmentView)))[x]
               + multiset(IfLive(h.depthStencilView, DestroyedImageView(h.depthStencilView)))[x]
  {
  }

  /** An owning texture without a parent releases all its handles. */
  lemma DestroyOwner(h: NativeHandles)
    ensures DestroyEvents(h, false, false) == ReleaseEvents(h)
  {
  }

  /** The handles a log creates after a prefix are those its extension
      creates. */
  lemma CreatedAfter(prefix: seq<Event>, made: seq<Event>, log: seq<Event>)
    requires log == prefix + made
    ensures prefix <= log && Created(log[|prefix|..]) == Created(made)
  {
    assert log[|prefix|..] == made;
  }

  /** Destroying a child and then its parent frees the shared memory and
      destroys the shared image exactly once, through the parent. */
  lemma DestroyChildThenParent(child: NativeHandles, childNotOwning: bool, parent: NativeHandles)
    requires parent.memory != Null && parent.image != Null
    ensures var events := DestroyEvents(child, true, childNotOwning) + DestroyEvents(parent, false, false);
            && multiset(events)[FreedMemory(parent.memory)] == 1
            && multiset(events)[DestroyedImage(parent.image)] == 1
  {
    var childEvents := DestroyEvents(child, true, childNotOwning);
    DestroyChildSparesParentImage(child, childNotOwning);
    NotCounted(FreedMemory(parent.memory), childEvents);
    NotCounted(DestroyedImage(parent.image), childEvents);
    DestroyOwnerCounts(parent);
    assert multiset(childEvents + DestroyEvents(parent, false, false))
           == multiset(childEvents) + multiset(DestroyEvents(parent, false, false));
  }

  /** A not-owning texture releases nothing: it forgets its image and memory
      and keeps its buffer and views. */
  lemma DestroyNotOwning(h: NativeHandles, isChild: bool)
    ensures DestroyEvents(h, isChild, true) == []
    ensures HandlesAfterDestroy(h, isChild, true) == h.(image := Null, memory := Null)
  {
  }

  /** The releases of a set of handles are at most six, and are exactly the
      releases of the handles that are not Null. */
  lemma ReleaseEventsMembers(h: NativeHandles)
    ensures |ReleaseEvents(h)| <= 6
    ensures forall e :: e in ReleaseEvents(h) <==>
              || (e == FreedMemory(h.memory) && h.memory != Null)
              || (e == DestroyedImage(h.image) && h.image != Null)
              || (e == DestroyedBuffer(h.buffer) && h.buffer != Null)
              || (e == DestroyedImageView(h.imageView) && h.imageView != Null)
              || (e == DestroyedImageView(h.colorAttachmentView) && h.colorAttachmentView != Null)
              || (e == DestroyedImageView(h.depthStencilView) && h.depthStencilView != Null)
  {
    var a := IfLive(h.memory, FreedMemory(h.memory));
    var b := IfLive(h.image, DestroyedImage(h.image));
    var c := IfLive(h.buffer, DestroyedBuffer(h.buffer));
    var d := IfLive(h.imageView, DestroyedImageView(h.imageView));
    var e := IfLive(h.colorAttachmentView, DestroyedImageView(h.colorAttachmentView));
    var f := IfLive(h.depthStencilView, DestroyedImageView(h.depthStencilView));
    assert ReleaseEvents(h) == a + b + c + d + e + f;
    assert forall x :: x in a + b + c + d + e + f <==> x in a || x in b || x in c || x in d || x in e || x in f;
  }

  /** An owning texture ends with every handle Null, having made at most
      six calls, each the release of a handle that was not Null. */
  lemma DestroyOwning(h: NativeHandles, isChild: bool)
    ensures HandlesAfterDestroy(h, isChild, false) == NoHandles
    ensures var events := DestroyEvents(h, isChild, false);
            && |events| <= 6
            && (forall e :: e in events ==> ReleaseRank(e) <= 3 && ReleasedHandle(e) != Null)
            && (forall e :: e in events ==> e.FreedMemory? || e.DestroyedImage? || e.DestroyedBuffer? || e.DestroyedImageView?)
  {
    ReleaseEventsMembers(Detach(h, isChild, false));
  }

  /** Which handles an owning texture releases: its memory and image exactly
      when it is not a child, its buffer and its three views whenever they
      are not Null, and nothing else. */
  lemma DestroyOwningReleases(h: NativeHandles, isChild: bool)
    ensures var events := DestroyEvents(h, isChild, false);
            && (forall m :: FreedMemory(m) in events <==> !isChild && m == h.memory && m != Null)
            && (forall i :: DestroyedImage(i) in events <==> !isChild && i == h.image && i != Null)
            && (forall b :: DestroyedBuffer(b) in events <==> b == h.buffer && b != Null)
            && (forall v :: DestroyedImageView(v) in events <==>
                  v != Null && (v == h.imageView || v == h.colorAttachmentView || v == h.depthStencilView))
  {
    ReleaseEventsMembers(Detach(h, isChild, false));
  }

  /** Memory is freed before the image is destroyed, the image before the
      buffer, and the buffer before any view. */
  lemma DestroyOrder(h: NativeHandles, isChild: bool)
    ensures var events := DestroyEvents(h, isChild, false);
            forall i, j :: 0 <= i < j < |events| ==> ReleaseRank(events[i]) <= ReleaseRank(events[j])
  {
    var d := Detach(h, isChild, false);
    var events := DestroyEvents(h, isChild, false);
    var parts := [IfLive(d.memory, FreedMemory(d.memory)), IfLive(d.image, DestroyedImage(d.image)),
                  IfLive(d.buffer, DestroyedBuffer(d.buffer)), IfLive(d.imageView, DestroyedImageView(d.imageView)),
                  IfLive(d.colorAttachmentView, DestroyedImageView(d.colorAttachmentView)),
                  IfLive(d.depthStencilView, DestroyedImageView(d.depthStencilView))];
    assert events == parts[0] + parts[1] + parts[2] + parts[3] + parts[4] + parts[5];
    forall i, j | 0 <= i < j < |events|
      ensures ReleaseRank(events[i]) <= ReleaseRank(events[j])
    {
      RanksSorted(parts, events, i, j);
    }
  }

  /** Concatenating runs whose ranks are ordered run by run keeps the ranks
      ordered. */
  lemma RanksSorted(parts: seq<seq<Event>>, events: seq<Event>, i: nat, j: nat)
    requires |parts| == 6
    requires forall p, e :: 0 <= p < 6 && e in parts[p] ==> ReleaseRank(e) == (if p < 3 then p else 3)
    requires events == parts[0] + parts[1] + parts[2] + parts[3] + parts[4] + parts[5]
    requires i < j < |events|
    ensures ReleaseRank(events[i]) <= ReleaseRank(events[j])
  {
    var a := parts[0];
    var b := a + parts[1];
    var c := b + parts[2];
    assert events == c + (parts[3] + parts[4] + parts[5]);
    assert forall e :: e in parts[3] + parts[4] + parts[5] ==> ReleaseRank(e) == 3;
    assert forall e :: e in c ==> ReleaseRank(e) <= 2;
    assert forall k :: 0 <= k < |a| ==> ReleaseRank(c[k]) == 0;
    assert forall k :: |a| <= k < |b| ==> ReleaseRank(c[k]) == 1;
    assert forall k :: |b| <= k < |c| ==> ReleaseRank(c[k]) == 2;
    if j < |c| {
      assert events[i] == c[i] && events[j] == c[j];
    } else {
      assert events[j] in parts[3] + parts[4] + parts[5];
      if i < |c| {
        assert events[i] in c;
      } else {
        assert events[i] in parts[3] + parts[4] + parts[5];
      }
    }
  }

  /** A child never frees its parent's memory nor destroys its parent's image. */
  lemma DestroyChildSparesParentImage(h: NativeHandles, notOwning: bool)
    ensures forall e :: e in DestroyEvents(h, true, notOwning) ==> !e.FreedMemory? && !e.DestroyedImage?
  {
  }

  /** As written, an owning staging child still holds the buffer it took
      from its parent, so destroying the child destroys the parent's buffer. */
  lemma DestroyStagingChildReleasesAliasedBuffer(h: NativeHandles)
    requires h.buffer != Null
    ensures DestroyedBuffer(h.buffer) in DestroyEvents(h, true, false)
  {
    DestroyOwningReleases(h, true);
  }

  /** A second OnDestroyed releases nothing and changes nothing more. */
  lemma DestroyTwice(h: NativeHandles, isChild: bool, notOwning: bool)
    ensures var after := HandlesAfterDestroy(h, isChild, notOwning);
            DestroyEvents(after, isChild, notOwning) == [] && HandlesAfterDestroy(after, isChild, notOwning) == after
  {
  }

  /** Whatever the upload, the image barriers it records form one chain from
      Undefined with no access to the role's layout and access mask: with
      data through TransferDestinationOptimal, without data directly. */
  lemma UploadBarrierChain(boxes: Option<seq<DataBox>>, image: Handle, aspect: set<Aspect>,
                           layout: ImageLayout, accessMask: set<Access>, uploadBuffer: Handle, start: nat,
                           mipLevels: int, mips: seq<MipMapDescription>)
    requires mipLevels > 0 && |mips| == mipLevels
    ensures var barriers := ImageBarriersOf(UploadEvents(boxes, image, aspect, layout, accessMask, uploadBuffer, start, mipLevels, mips));
            && BarrierChain(Undefined, {}, barriers)
            && |barriers| == (if HasData(boxes) then 2 else 1)
            && barriers[|barriers| - 1].newLayout == layout
            && barriers[|barriers| - 1].dstAccess == accessMask
            && (forall b :: b in barriers ==> b.image == image && b.aspect == aspect)
    ensures var stages := BarrierStagesOf(UploadEvents(boxes, image, aspect, layout, accessMask, uploadBuffer, start, mipLevels, mips));
            && |stages| == (if HasData(boxes) then 2 else 1)
            && (forall i :: 0 < i < |stages| ==> stages[i - 1].1 <= stages[i].0)
            && stages[|stages| - 1].1 == {AllCommands}
  {
    UploadStages(boxes, image, aspect, layout, accessMask, uploadBuffer, start, mipLevels, mips);
    var source := FinalBarrierSource(boxes);
    var final := ImageBarrier(image, source.0, layout, source.1, accessMask, aspect);
    var first := ImageBarrier(image, Undefined, TransferDestinationOptimal, {}, {TransferWrite}, aspect);
    UploadBarriers(boxes, image, aspect, layout, accessMask, uploadBuffer, start, mipLevels, mips);
    assert [final][1..] == [];
    assert BarrierChain(source.0, source.1, [final]);
    if HasData(boxes) {
      assert [first, final][1..] == [final];
      assert BarrierChain(Undefined, {}, [first, final]);
    }
  }

  /** The image barriers an upload records: the transition into
      TransferDestinationOptimal when there is data, then the final one. */
  lemma UploadBarriers(boxes: Option<seq<DataBox>>, image: Handle, aspect: set<Aspect>,
                       layout: ImageLayout, accessMask: set<Access>, uploadBuffer: Handle, start: nat,
                       mipLevels: int, mips: seq<MipMapDescription>)
    requires mipLevels > 0 && |mips| == mipLevels
    ensures var source := FinalBarrierSource(boxes);
            var final := ImageBarrier(image, source.0, layout, source.1, accessMask, aspect);
            var first := ImageBarrier(image, Undefined, TransferDestinationOptimal, {}, {TransferWrite}, aspect);
            ImageBarriersOf(UploadEvents(boxes, image, aspect, layout, accessMask, uploadBuffer, start, mipLevels, mips))
            == if HasData(boxes) then [first, final] else [final]
  {
    var source := FinalBarrierSource(boxes);
    var final := ImageBarrier(image, source.0, layout, source.1, accessMask, aspect);
    var tail := [RecordedBarrier({Transfer}, {AllCommands}, [], [final]), EndedCommands, Submitted, WaitedIdle, ResetCommands];
    UploadEventsParts(boxes, image, aspect, layout, accessMask, uploadBuffer, start, mipLevels, mips);
    SubmissionBarriers(final);
    assert ImageBarriersOf([BeganCommands]) == [];
    if HasData(boxes) {
      var middle := StagingEvents(boxes.value, image, aspect, uploadBuffer, start, mipLevels, mips);
      ImageBarriersOfAppend([BeganCommands] + middle, tail);
      ImageBarriersOfAppend([BeganCommands], middle);
      assert middle[1..][1..] == [];
    } else {
      ImageBarriersOfAppend([BeganCommands], tail);
    }
  }

  /** The final barrier is the only image barrier of the submission tail. */
  lemma SubmissionBarriers(final: ImageBarrier)
    ensures ImageBarriersOf([RecordedBarrier({Transfer}, {AllCommands}, [], [final]), EndedCommands, Submitted, WaitedIdle, ResetCommands]) == [final]
  {
    var tail := [RecordedBarrier({Transfer}, {AllCommands}, [], [final]), EndedCommands, Submitted, WaitedIdle, ResetCommands];
    assert ImageBarriersOf(tail[4..]) == [];
    assert ImageBarriersOf(tail[3..]) == [];
    assert ImageBarriersOf(tail[2..]) == [];
    assert ImageBarriersOf(tail[1..]) == [];
  }

  /** The barriers of two runs of events are those of the first, then those
      of the second. */
  lemma {:induction false} ImageBarriersOfAppend(a: seq<Event>, b: seq<Event>)
    ensures ImageBarriersOf(a + b) == ImageBarriersOf(a) + ImageBarriersOf(b)
  {
    if a != [] {
      assert (a + b)[1..] == a[1..] + b;
      ImageBarriersOfAppend(a[1..], b);
    } else {
      assert a + b == b;
    }
  }

  /** The pipeline stages of an upload's barriers: TopOfPipe to Transfer for
      the staging barrier when there is data, then Transfer to AllCommands
      for the final barrier. */
  lemma UploadStages(boxes: Option<seq<DataBox>>, image: Handle, aspect: set<Aspect>,
                     layout: ImageLayout, accessMask: set<Access>, uploadBuffer: Handle, start: nat,
                     mipLevels: int, mips: seq<MipMapDescription>)
    requires mipLevels > 0 && |mips| == mipLevels
    ensures BarrierStagesOf(UploadEvents(boxes, image, aspect, layout, accessMask, uploadBuffer, start, mipLevels, mips))
            == if HasData(boxes) then [({TopOfPipe}, {Transfer}), ({Transfer}, {AllCommands})]
               else [({Transfer}, {AllCommands})]
  {
    var source := FinalBarrierSource(boxes);
    var final := ImageBarrier(image, source.0, layout, source.1, accessMask, aspect);
    var tail := [RecordedBarrier({Transfer}, {AllCommands}, [], [final]), EndedCommands, Submitted, WaitedIdle, ResetCommands];
    UploadEventsParts(boxes, image, aspect, layout, accessMask, uploadBuffer, start, mipLevels, mips);
    SubmissionStages(final);
    assert BarrierStagesOf([BeganCommands]) == [];
    if HasData(boxes) {
      var middle := StagingEvents(boxes.value, image, aspect, uploadBuffer, start, mipLevels, mips);
      BarrierStagesOfAppend([BeganCommands] + middle, tail);
      BarrierStagesOfAppend([BeganCommands], middle);
      assert middle[1..][1..] == [];
    } else {
      BarrierStagesOfAppend([BeganCommands], tail);
    }
  }

  /** The final barrier is the only barrier of the submission tail. */
  lemma SubmissionStages(final: ImageBarrier)
    ensures BarrierStagesOf([RecordedBarrier({Transfer}, {AllCommands}, [], [final]), EndedCommands, Submitted, WaitedIdle, ResetCommands])
            == [({Transfer}, {AllCommands})]
  {
    var tail := [RecordedBarrier({Transfer}, {AllCommands}, [], [final]), EndedCommands, Submitted, WaitedIdle, ResetCommands];
    assert BarrierStagesOf(tail[4..]) == [];
    assert BarrierStagesOf(tail[3..]) == [];
    assert BarrierStagesOf(tail[2..]) == [];
    assert BarrierStagesOf(tail[1..]) == [];
  }

  /** The barrier stages of two runs of events are those of the first, then
      those of the second. */
  lemma {:induction false} BarrierStagesOfAppend(a: seq<Event>, b: seq<Event>)
    ensures BarrierStagesOf(a + b) == BarrierStagesOf(a) + BarrierStagesOf(b)
  {
    if a != [] {
      assert (a + b)[1..] == a[1..] + b;
      BarrierStagesOfAppend(a[1..], b);
    } else {
      assert a + b == b;
    }
  }
}
