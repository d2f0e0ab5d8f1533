/** The staging layout of an initial upload: how much of the shared upload
    buffer is requested, where each data box lands in it, which subresource
    each box is copied to, and the source state of the final layout
    transition. */
module Upload {
  import opened Common
  import opened Formats
  import opened Descriptions
  import opened Layouts
  import Arith

  /** Alignment of each data box inside the upload region (the C# constant
      TextureSubresourceAlignment; InitializeImage writes the literal 4). */
  const TextureSubresourceAlignment: nat := 4

  /** Caller-supplied pixel data for one (array slice, mip) pair; only its
      byte length, SlicePitch, matters to the staging layout. */
  datatype DataBox = DataBox(rowPitch: int, slicePitch: nat)

  /** The sum of the slice pitches of a run of data boxes. */
  function PitchSum(boxes: seq<DataBox>): nat
  {
    if boxes == [] then 0 else boxes[0].slicePitch + PitchSum(boxes[1..])
  }

  /** The size requested from the upload buffer: four bytes of alignment
      slack per box plus every box's bytes. */
  function TotalUploadSize(boxes: seq<DataBox>): nat
  {
    |boxes| * TextureSubresourceAlignment + PitchSum(boxes)
  }

  /** `((offset + 3) & ~3)` for a non-negative offset: the next multiple of
      four at or above it. */
  function Align4(offset: nat): (aligned: nat)
    ensures aligned % 4 == 0 && offset <= aligned < offset + 4
  {
    (offset + 3) / 4 * 4
  }

  /** The buffer offset of each box's copy when the cursor starts at
      `cursor`: align, place the box, advance past its bytes. */
  function CopyOffsets(boxes: seq<DataBox>, cursor: nat): (offsets: seq<nat>)
    ensures |offsets| == |boxes|
  {
    if boxes == [] then []
    else [Align4(cursor)] + CopyOffsets(boxes[1..], Align4(cursor) + boxes[0].slicePitch)
  }

  /** Where the cursor stands after the last box. */
  function UploadEnd(boxes: seq<DataBox>, cursor: nat): nat
  {
    if boxes == [] then cursor else UploadEnd(boxes[1..], Align4(cursor) + boxes[0].slicePitch)
  }

  /** The subresource that data box `index` fills: array slice
      `index / mipLevels` and mip `index % mipLevels`. */
  function Subresource(index: nat, mipLevels: int): (target: (nat, nat))
    requires mipLevels > 0
  {
    (index / mipLevels, index % mipLevels)
  }

  /** The fields of BufferImageCopy that InitializeImage sets: the buffer
      offset, a one-layer Color subresource, an image offset whose z is the
      array slice (as written), and the mip's width and height with depth 1.
      BufferRowLength and BufferImageHeight are always 0 (tightly packed). */
  datatype BufferImageCopy = BufferImageCopy(
    bufferOffset: nat,
    aspect: set<Aspect>,
    arraySlice: nat,
    layerCount: nat,
    mipSlice: nat,
    imageOffsetZ: nat,
    width: int,
    height: int,
    depth: int)

  /** The copy recorded for box `index` placed at `offset`. */
  function CopyFor(index: nat, offset: nat, mipLevels: int, mips: seq<MipMapDescription>): BufferImageCopy
    requires mipLevels > 0 && |mips| == mipLevels
  {
    var (slice, mip) := Subresource(index, mipLevels);
    BufferImageCopy(offset, {Color}, slice, 1, mip, slice, mips[mip].width, mips[mip].height, 1)
  }

  /** All copies of an upload whose region starts at `start`. */
  function StagedCopies(boxes: seq<DataBox>, mipLevels: int, mips: seq<MipMapDescription>, start: nat): (copies: seq<BufferImageCopy>)
    requires mipLevels > 0 && |mips| == mipLevels
    ensures |copies| == |boxes|
  {
    var offsets := CopyOffsets(boxes, start);
    seq(|boxes|, i requires 0 <= i < |boxes| => CopyFor(i, offsets[i], mipLevels, mips))
  }

  /** The size loop of InitializeImage: four bytes per box, plus each box's
      slice pitch. */
  method MeasureUpload(boxes: seq<DataBox>) returns (totalSize: nat)
    ensures totalSize == TotalUploadSize(boxes)
  {
    totalSize := |boxes| * 4;
    var i := 0;
    while i < |boxes|
      invariant 0 <= i <= |boxes|
      invariant totalSize + PitchSum(boxes[i..]) == TotalUploadSize(boxes)
    {
      assert boxes[i..][1..] == boxes[i + 1..];
      totalSize := totalSize + boxes[i].slicePitch;
      i := i + 1;
    }
  }

  /** The copy loop of InitializeImage: align the offset, describe the copy
      of box i into its (array slice, mip), advance past the box's bytes. */
  method StageCopies(boxes: seq<DataBox>, start: nat, mipLevels: int, mips: seq<MipMapDescription>)
    returns (copies: seq<BufferImageCopy>)
    requires mipLevels > 0 && |mips| == mipLevels
    ensures copies == StagedCopies(boxes, mipLevels, mips, start)
  {
    var staged := new BufferImageCopy[|boxes|];
    ghost var offsets := CopyOffsets(boxes, start);
    var uploadOffset: nat := start;
    var i := 0;
    while i < staged.Length
      invariant 0 <= i <= staged.Length
      invariant CopyOffsets(boxes[i..], uploadOffset) == offsets[i..]
      invariant forall k :: 0 <= k < i ==> staged[k] == CopyFor(k, offsets[k], mipLevels, mips)
    {
      var slicePitch := boxes[i].slicePitch;
      var arraySlice := i / mipLevels;
      var mipSlice := i % mipLevels;
      var mipMapDescription := mips[mipSlice];
      assert CopyOffsets(boxes[i..], uploadOffset)
             == [Align4(uploadOffset)] + CopyOffsets(boxes[i + 1..], Align4(uploadOffset) + slicePitch) by {
        assert boxes[i..][1..] == boxes[i + 1..];
      }
      var alignment := Align4(uploadOffset) - uploadOffset;
      uploadOffset := uploadOffset + alignment;
      assert offsets[i] == uploadOffset && Subresource(i, mipLevels) == (arraySlice, mipSlice);
      staged[i] := BufferImageCopy(uploadOffset, {Color}, arraySlice, 1, mipSlice, arraySlice,
                                   mipMapDescription.width, mipMapDescription.height, 1);
      uploadOffset := uploadOffset + slicePitch;
      i := i + 1;
    }
    copies := staged[..];
  }

  /** The layout and access mask the final barrier transitions from: nothing
      was written when there is no data, else the transfer wrote the image. */
  function FinalBarrierSource(boxes: Option<seq<DataBox>>): (ImageLayout, set<Access>)
  {
    if boxes.None? || |boxes.value| == 0 then (Undefined, {}) else (TransferDestinationOptimal, {TransferWrite})
  }

  /** Box index and (array slice, mip) determine each other: the slice and
      mip recombine to the index, and every slice and in-range mip is the
      target of exactly one index. */
  lemma SubresourceRoundTrip(index: nat, slice: nat, mip: nat, mipLevels: int)
    requires mipLevels > 0
    ensures Subresource(index, mipLevels).1 < mipLevels
    ensures Subresource(index, mipLevels).0 * mipLevels + Subresource(index, mipLevels).1 == index
    ensures mip < mipLevels ==> (Subresource(index, mipLevels) == (slice, mip) <==> index == slice * mipLevels + mip)
  {
    var (s, m) := Subresource(index, mipLevels);
    assert s * mipLevels + m == index;
    if mip < mipLevels && index == slice * mipLevels + mip {
      Arith.DivModUnique(index, mipLevels, slice, mip);
    }
  }

  /** The staging layout: every copy starts on a 4-byte boundary at or after
      the region start, no copy overlaps the next one's bytes, and every
      copied byte lies inside the region the cursor sweeps. */
  lemma {:induction false} CopyOffsetsLayout(boxes: seq<DataBox>, cursor: nat)
    ensures var offsets := CopyOffsets(boxes, cursor);
            && (forall k :: 0 <= k < |boxes| ==>
                  offsets[k] % 4 == 0 && cursor <= offsets[k]
                  && offsets[k] + boxes[k].slicePitch <= UploadEnd(boxes, cursor))
            && (forall k :: 0 <= k < |boxes| - 1 ==> offsets[k] + boxes[k].slicePitch <= offsets[k + 1])
    ensures cursor <= UploadEnd(boxes, cursor) <= cursor + 3 * |boxes| + PitchSum(boxes)
  {
    if boxes != [] {
      var next := Align4(cursor) + boxes[0].slicePitch;
      var rest := boxes[1..];
      CopyOffsetsLayout(rest, next);
      var offsets := CopyOffsets(boxes, cursor);
      assert offsets == [Align4(cursor)] + CopyOffsets(rest, next);
      forall k | 0 <= k < |boxes|
        ensures offsets[k] % 4 == 0 && cursor <= offsets[k]
                && offsets[k] + boxes[k].slicePitch <= UploadEnd(boxes, cursor)
      {
        if k > 0 {
          assert offsets[k] == CopyOffsets(rest, next)[k - 1];
          assert boxes[k] == rest[k - 1];
        }
      }
      forall k | 0 <= k < |boxes| - 1
        ensures offsets[k] + boxes[k].slicePitch <= offsets[k + 1]
      {
        assert offsets[k + 1] == CopyOffsets(rest, next)[k];
        if k > 0 {
          assert offsets[k] == CopyOffsets(rest, next)[k - 1];
          assert boxes[k] == rest[k - 1];
        }
      }
    }
  }

  /** Every copy of an upload lies within [start, start + TotalUploadSize),
      the region obtained from the upload buffer, on a 4-byte boundary, and
      copies follow each other without overlap. */
  lemma UploadFitsRegion(boxes: seq<DataBox>, mipLevels: int, mips: seq<MipMapDescription>, start: nat)
    requires mipLevels > 0 && |mips| == mipLevels
    ensures var copies := StagedCopies(boxes, mipLevels, mips, start);
            forall k :: 0 <= k < |boxes| ==>
              && copies[k].bufferOffset % 4 == 0
              && start <= copies[k].bufferOffset
              && copies[k].bufferOffset + boxes[k].slicePitch <= start + TotalUploadSize(boxes)
              && (k + 1 < |boxes| ==> copies[k].bufferOffset + boxes[k].slicePitch <= copies[k + 1].bufferOffset)
  {
    CopyOffsetsLayout(boxes, start);
  }

  /** Every copy targets the subresource its index names, with a mip inside
      the chain and the mip's own width and height. */
  lemma UploadTargets(boxes: seq<DataBox>, mipLevels: int, mips: seq<MipMapDescription>, start: nat, k: nat)
    requires mipLevels > 0 && |mips| == mipLevels && k < |boxes|
    ensures var c := StagedCopies(boxes, mipLevels, mips, start)[k];
            && c.arraySlice * mipLevels + c.mipSlice == k
            && c.mipSlice < mipLevels
            && c.layerCount == 1 && c.aspect == {Color}
            && c.width == mips[c.mipSlice].width && c.height == mips[c.mipSlice].height
  {
    SubresourceRoundTrip(k, 0, 0, mipLevels);
  }
}
