/** The graphics device as the texture backend sees it. Native calls become
    events appended to the device's log; every call that creates an object
    hands out a fresh handle from a counter. The device's format support,
    its memory exhaustion and the shared upload buffer are inputs. */
module Native {
  import opened Common
  import opened Formats
  import opened Creation
  import opened Layouts
  import opened Views
  import opened Upload

  /** The pipeline stages a barrier waits on or blocks. */
  datatype PipelineStage = TopOfPipe | Transfer | AllCommands

  datatype BufferBarrier = BufferBarrier(
    buffer: Handle, srcAccess: set<Access>, dstAccess: set<Access>, offset: nat, size: nat)

  /** An image memory barrier over the whole image with the given aspect. */
  datatype ImageBarrier = ImageBarrier(
    image: Handle, oldLayout: ImageLayout, newLayout: ImageLayout,
    srcAccess: set<Access>, dstAccess: set<Access>, aspect: set<Aspect>)

  /** The native calls the backend makes, in the order it makes them. */
  datatype Event =
    | CreatedBuffer(buffer: Handle, size: nat, usage: set<BufferUsage>)
    | CreatedImage(image: Handle, info: ImageCreateInfo)
    | AllocatedMemory(memory: Handle, properties: set<MemoryProperty>)
    | BoundBufferMemory(buffer: Handle, memory: Handle)
    | BoundImageMemory(image: Handle, memory: Handle)
    | CreatedImageView(view: Handle, viewInfo: ImageViewCreateInfo)
    | FreedMemory(memory: Handle)
    | DestroyedImage(image: Handle)
    | DestroyedBuffer(buffer: Handle)
    | DestroyedImageView(view: Handle)
    | BeganCommands
    | RecordedBarrier(srcStages: set<PipelineStage>, dstStages: set<PipelineStage>,
                      bufferBarriers: seq<BufferBarrier>, imageBarriers: seq<ImageBarrier>)
    | RecordedCopy(source: Handle, image: Handle, layout: ImageLayout, copies: seq<BufferImageCopy>)
    | EndedCommands
    | Submitted
    | WaitedIdle
    | ResetCommands

  /** The call made about a handle: none for Null. */
  function IfLive(handle: Handle, call: Event): seq<Event>
  {
    if handle != Null then [call] else []
  }

  class Device {
    /** The identifier the next created object receives. */
    var nextId: nat
    /** Every native call made so far. */
    var log: seq<Event>
    /** Where the next region of the shared upload buffer starts. */
    var uploadCursor: nat
    /** The shared upload buffer behind AllocateUploadBuffer. */
    const uploadBuffer: Handle
    /** Formats whose optimal tiling supports depth-stencil attachment. */
    const depthStencilFormats: set<NativeFormat>
    /** Whether memory allocation yields the Null handle. */
    const outOfMemory: bool

    /** Identifiers start at 1, so no object the backend creates shares
        the upload buffer's handle. */
    constructor (depthStencilFormats: set<NativeFormat>, outOfMemory: bool)
      ensures nextId == 1 && uploadBuffer == Live(0) && log == [] && uploadCursor == 0
      ensures this.depthStencilFormats == depthStencilFormats && this.outOfMemory == outOfMemory
    {
      nextId := 1;
      log := [];
      uploadCursor := 0;
      uploadBuffer := Live(0);
      this.depthStencilFormats := depthStencilFormats;
      this.outOfMemory := outOfMemory;
    }

    method NewHandle() returns (h: Handle)
      modifies this`nextId
      ensures h == Live(old(nextId)) && nextId == old(nextId) + 1
    {
      h := Live(nextId);
      nextId := nextId + 1;
    }

    /** Records a call that creates nothing. */
    method Record(e: Event)
      modifies this`log
      ensures log == old(log) + [e]
    {
      log := log + [e];
    }

    method CreateBuffer(size: nat, usage: set<BufferUsage>) returns (buffer: Handle)
      modifies this`nextId, this`log
      ensures buffer == Live(old(nextId)) && nextId == old(nextId) + 1
      ensures log == old(log) + [CreatedBuffer(buffer, size, usage)]
    {
      buffer := NewHandle();
      Record(CreatedBuffer(buffer, size, usage));
    }

    method CreateImage(info: ImageCreateInfo) returns (image: Handle)
      modifies this`nextId, this`log
      ensures image == Live(old(nextId)) && nextId == old(nextId) + 1
      ensures log == old(log) + [CreatedImage(image, info)]
    {
      image := NewHandle();
      Record(CreatedImage(image, info));
    }

    method CreateImageView(info: ImageViewCreateInfo) returns (view: Handle)
      modifies this`nextId, this`log
      ensures view == Live(old(nextId)) && nextId == old(nextId) + 1
      ensures log == old(log) + [CreatedImageView(view, info)]
    {
      view := NewHandle();
      Record(CreatedImageView(view, info));
    }

    /** Frees or destroys `handle` with the call `release` when it is not
        Null; the caller's field then holds Null. */
    method Release(handle: Handle, release: Event) returns (cleared: Handle)
      modifies this`log
      ensures cleared == Null
      ensures log == old(log) + IfLive(handle, release)
    {
      if handle != Null {
        Record(release);
      }
      cleared := Null;
    }

    /** GraphicsResourceBase.AllocateMemory: a fresh memory handle, or Null
        when the device is out of memory. */
    method AllocateMemory(properties: set<MemoryProperty>) returns (memory: Handle)
      modifies this`nextId, this`log
      ensures outOfMemory ==> memory == Null && nextId == old(nextId) && log == old(log)
      ensures !outOfMemory ==> memory == Live(old(nextId)) && nextId == old(nextId) + 1
                               && log == old(log) + [AllocatedMemory(memory, properties)]
    {
      if outOfMemory {
        memory := Null;
      } else {
        memory := NewHandle();
        Record(AllocatedMemory(memory, properties));
      }
    }

    /** GraphicsDevice.AllocateUploadBuffer: a region of `size` bytes of the
        shared upload buffer, at the returned offset. */
    method AllocateUploadBuffer(size: nat) returns (buffer: Handle, offset: nat)
      modifies this`uploadCursor
      ensures buffer == uploadBuffer && offset == old(uploadCursor) && uploadCursor == old(uploadCursor) + size
    {
      buffer, offset := uploadBuffer, uploadCursor;
      uploadCursor := uploadCursor + size;
    }
  }
}
