/** Format and capability rules of the Vulkan texture backend: which logical
    pixel formats carry a stencil plane, the image aspect a texture is
    created with, and the device-driven fallback between the combined
    depth/stencil formats. */
module Formats {

  /** The engine's logical pixel formats that the backend tells apart; every
      other format is `OtherPixelFormat`. */
  datatype PixelFormat =
    | R24G8_Typeless
    | D24_UNorm_S8_UInt
    | R32G8X24_Typeless
    | D32_Float_S8X24_UInt
    | D16_UNorm
    | D32_Float
    | R8G8B8A8_UNorm
    | OtherPixelFormat(code: nat)

  /** Native Vulkan formats; only the three combined depth/stencil formats
      matter to the backend. */
  datatype NativeFormat =
    | D16UNormS8UInt
    | D24UNormS8UInt
    | D32SFloatS8UInt
    | OtherNativeFormat(code: nat)

  /** Bits of a Vulkan image aspect mask. */
  datatype Aspect = Color | Depth | Stencil

  /** True exactly for the logical formats with a stencil plane
      (Texture.Vulkan.cs, IsStencilFormat). */
  predicate IsStencilFormat(format: PixelFormat)
  {
    match format
    case R24G8_Typeless => true
    case D24_UNorm_S8_UInt => true
    case R32G8X24_Typeless => true
    case D32_Float_S8X24_UInt => true
    case _ => false
  }

  /** The logical formats for which IsStencilFormat holds, written as a set. */
  const StencilFormats: set<PixelFormat> :=
    {R24G8_Typeless, D24_UNorm_S8_UInt, R32G8X24_Typeless, D32_Float_S8X24_UInt}

  lemma StencilFormatsExactly(format: PixelFormat)
    ensures IsStencilFormat(format) <==> format in StencilFormats
  {
  }

  /** The image aspect of a texture: Depth for a depth-stencil texture, Color
      otherwise, with Stencil added when the format has a stencil plane. */
  function AspectMask(isDepthStencil: bool, hasStencil: bool): (mask: set<Aspect>)
    ensures Color in mask <==> !isDepthStencil
    ensures Depth in mask <==> isDepthStencil
    ensures Stencil in mask <==> hasStencil
  {
    (if isDepthStencil then {Depth} else {Color}) + (if hasStencil then {Stencil} else {})
  }

  /** The combined depth/stencil formats, for which a fallback is searched. */
  predicate IsCombinedDepthStencil(format: NativeFormat)
  {
    format == D16UNormS8UInt || format == D24UNormS8UInt || format == D32SFloatS8UInt
  }

  /** The preference list probed for a combined depth/stencil format: the
      requested format first, then D32S8, D24S8 and D16S8. */
  function FallbackCandidates(format: NativeFormat): (candidates: seq<NativeFormat>)
    ensures |candidates| == 4 && candidates[0] == format
  {
    [format, D32SFloatS8UInt, D24UNormS8UInt, D16UNormS8UInt]
  }

  /** The first candidate the device supports as a depth-stencil attachment,
      or `default` when it supports none of them. */
  function FirstSupported(candidates: seq<NativeFormat>, supported: set<NativeFormat>, default: NativeFormat): (r: NativeFormat)
    ensures (exists k :: 0 <= k < |candidates| && r == candidates[k] && r in supported
               && forall j :: 0 <= j < k ==> candidates[j] !in supported)
         || (r == default && forall j :: 0 <= j < |candidates| ==> candidates[j] !in supported)
  {
    if candidates == [] then default
    else if candidates[0] in supported then candidates[0]
    else
      var r := FirstSupported(candidates[1..], supported, default);
      assert forall j :: 1 <= j < |candidates| ==> candidates[j] == candidates[1..][j - 1];
      r
  }

  /** What GetFallbackDepthStencilFormat returns, given the set of native
      formats whose optimal tiling supports depth-stencil attachment. */
  function FallbackFormat(supported: set<NativeFormat>, format: NativeFormat): NativeFormat
  {
    if IsCombinedDepthStencil(format) then FirstSupported(FallbackCandidates(format), supported, format)
    else format
  }

  /** Texture.Vulkan.cs, GetFallbackDepthStencilFormat: probe the preference
      list in order and stop at the first supported format. */
  method GetFallbackDepthStencilFormat(supported: set<NativeFormat>, format: NativeFormat) returns (r: NativeFormat)
    ensures r == FallbackFormat(supported, format)
  {
    r := format;
    if IsCombinedDepthStencil(format) {
      var candidates := FallbackCandidates(format);
      var i := 0;
      while i < |candidates|
        invariant 0 <= i <= |candidates|
        invariant r == format
        invariant FirstSupported(candidates, supported, format) == FirstSupported(candidates[i..], supported, format)
      {
        if candidates[i] in supported {
          r := candidates[i];
          break;
        }
        assert candidates[i..][1..] == candidates[i + 1..];
        i := i + 1;
      }
    }
  }

  /** Formats other than the three combined depth/stencil formats are never
      substituted. */
  lemma FallbackKeepsOtherFormats(supported: set<NativeFormat>, format: NativeFormat)
    requires !IsCombinedDepthStencil(format)
    ensures FallbackFormat(supported, format) == format
  {
  }

  /** For a combined depth/stencil format the fallback is the first supported
      entry of [requested, D32S8, D24S8, D16S8], or the requested format
      when the device supports none of them; either way it is again a
      combined depth/stencil format. */
  lemma {:induction false} FallbackChoice(supported: set<NativeFormat>, format: NativeFormat)
    requires IsCombinedDepthStencil(format)
    ensures var r := FallbackFormat(supported, format);
            && IsCombinedDepthStencil(r)
            && (format in supported ==> r == format)
            && (format !in supported && D32SFloatS8UInt in supported ==> r == D32SFloatS8UInt)
            && (format !in supported && D32SFloatS8UInt !in supported && D24UNormS8UInt in supported ==> r == D24UNormS8UInt)
            && (r in supported || (r == format && D32SFloatS8UInt !in supported
                                   && D24UNormS8UInt !in supported && D16UNormS8UInt !in supported))
  {
    var c := FallbackCandidates(format);
    var r := FallbackFormat(supported, format);
    if r !in supported {
      assert forall j :: 0 <= j < |c| ==> c[j] !in supported;
      assert c[1] !in supported && c[2] !in supported && c[3] !in supported;
    } else {
      var k :| 0 <= k < |c| && r == c[k] && r in supported && forall j :: 0 <= j < k ==> c[j] !in supported;
      assert k > 0 ==> c[0] !in supported;
      assert k > 1 ==> c[1] !in supported;
      assert k > 2 ==> c[2] !in supported;
    }
  }

  /** A device that lacks D24S8 for depth-stencil attachment but has D32S8
      gets D32S8, the next entry of the preference list. */
  lemma FallbackFromD24S8(supported: set<NativeFormat>)
    requires D24UNormS8UInt !in supported && D32SFloatS8UInt in supported
    ensures FallbackFormat(supported, D24UNormS8UInt) == D32SFloatS8UInt
  {
    FallbackChoice(supported, D24UNormS8UInt);
  }
}
