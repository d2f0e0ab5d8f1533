/** Mip-level arithmetic: how many mips a dimension admits when the chain
    stops before a mip would fall under a minimum size, and the clamp applied
    to compressed textures on feature levels below 10.0. */
module MipMaps {
  import opened Common
  import opened Formats
  import opened Descriptions
  import Arith

  /** The default minimum size of the last mip. */
  const DefaultMinimumSizeLastMip: int := 4

  function Min(a: int, b: int): int { if a <= b then a else b }
  function Max(a: int, b: int): int { if a >= b then a else b }

  function Pow2(k: nat): (p: nat)
    ensures p >= 1
  {
    if k == 0 then 1 else 2 * Pow2(k - 1)
  }

  /** The mip count of a valid size: one level, plus one more for every
      halving that stays at or above the minimum. */
  function Levels(size: int, minimumSizeLastMip: int): (n: nat)
    requires size > 0 && minimumSizeLastMip > 0
    ensures n >= 1
    decreases size
  {
    if size / 2 >= minimumSizeLastMip then 1 + Levels(size / 2, minimumSizeLastMip) else 1
  }

  /** What CalculateMipCountFromSize returns or throws. */
  function MipCountFromSize(size: int, minimumSizeLastMip: int): Result<int>
  {
    if size <= 0 then Err(ArgumentOutOfRange("size"))
    else if minimumSizeLastMip <= 0 then Err(ArgumentOutOfRange("minimumSizeLastMip"))
    else Ok(Levels(size, minimumSizeLastMip))
  }

  /** Texture.Vulkan.cs, CalculateMipCountFromSize: halve the size while the
      next mip would still be at least the minimum, counting levels. */
  method CalculateMipCountFromSize(size: int, minimumSizeLastMip: int) returns (r: Result<int>)
    ensures r == MipCountFromSize(size, minimumSizeLastMip)
  {
    if size <= 0 {
      return Err(ArgumentOutOfRange("size"));
    }
    if minimumSizeLastMip <= 0 {
      return Err(ArgumentOutOfRange("minimumSizeLastMip"));
    }
    var s := size;
    var level := 1;
    while s / 2 >= minimumSizeLastMip
      invariant s > 0
      invariant level - 1 + Levels(s, minimumSizeLastMip) == Levels(size, minimumSizeLastMip)
      decreases s
    {
      s := Max(1, s / 2);
      level := level + 1;
    }
    return Ok(level);
  }

  /** The two argument errors, and at least one level otherwise; a size
      whose half is already below the minimum gets exactly one level. */
  lemma MipCountFromSizeCases(size: int, minimumSizeLastMip: int)
    ensures size <= 0 <==> MipCountFromSize(size, minimumSizeLastMip) == Err(ArgumentOutOfRange("size"))
    ensures size > 0 && minimumSizeLastMip <= 0
            <==> MipCountFromSize(size, minimumSizeLastMip) == Err(ArgumentOutOfRange("minimumSizeLastMip"))
    ensures size > 0 && minimumSizeLastMip > 0 ==>
              && MipCountFromSize(size, minimumSizeLastMip).Ok?
              && MipCountFromSize(size, minimumSizeLastMip).value >= 1
              && (MipCountFromSize(size, minimumSizeLastMip).value == 1 <==> size / 2 < minimumSizeLastMip)
  {
  }

  lemma HalveDivides(a: nat, k: nat)
    ensures (a / 2) / Pow2(k) == a / Pow2(k + 1)
  {
    var p := Pow2(k);
    var q, t := a / 2, (a / 2) / p;
    var u := q - t * p;
    assert q == t * p + u && 0 <= u < p;
    assert a == 2 * q + a % 2;
    assert a == t * (2 * p) + (2 * u + a % 2);
    assert 0 <= 2 * u + a % 2 < 2 * p;
    assert Pow2(k + 1) == 2 * p;
    Arith.DivModUnique(a, 2 * p, t, 2 * u + a % 2);
  }

  /** Levels is the least count n >= 1 such that the n-th halving of the
      size falls under the minimum: every halving before it stays at or above
      the minimum. */
  lemma {:induction false} LevelsCharacterized(size: int, minimumSizeLastMip: int)
    requires size > 0 && minimumSizeLastMip > 0
    ensures var n := Levels(size, minimumSizeLastMip);
            && size / Pow2(n) < minimumSizeLastMip
            && forall k :: 1 <= k < n ==> size / Pow2(k) >= minimumSizeLastMip
  {
    var n := Levels(size, minimumSizeLastMip);
    if size / 2 >= minimumSizeLastMip {
      var h := size / 2;
      LevelsCharacterized(h, minimumSizeLastMip);
      HalveDivides(size, n - 1);
      forall k | 1 <= k < n
        ensures size / Pow2(k) >= minimumSizeLastMip
      {
        HalveDivides(size, k - 1);
      }
    } else {
      assert Pow2(1) == 2;
    }
  }

  /** A larger size never admits fewer mips. */
  lemma {:induction false} LevelsMonotonic(a: int, b: int, minimumSizeLastMip: int)
    requires 0 < a <= b && minimumSizeLastMip > 0
    ensures Levels(a, minimumSizeLastMip) <= Levels(b, minimumSizeLastMip)
  {
    if a / 2 >= minimumSizeLastMip {
      LevelsMonotonic(a / 2, b / 2, minimumSizeLastMip);
    }
  }

  /** 256 -> 128 -> 64 -> 32 -> 16 -> 8 -> 4 is seven levels; a size of one
      is a single level. */
  lemma MipCountExamples()
    ensures MipCountFromSize(256, DefaultMinimumSizeLastMip) == Ok(7)
    ensures MipCountFromSize(1, DefaultMinimumSizeLastMip) == Ok(1)
    ensures MipCountFromSize(0, DefaultMinimumSizeLastMip) == Err(ArgumentOutOfRange("size"))
  {
  }

  /** Texture.Vulkan.cs, CalculateMipCount: the width's count is computed
      (and may throw) first, then the height's; the result is the smaller. */
  function CalculateMipCount(width: int, height: int, minimumSizeLastMip: int): (r: Result<int>)
    ensures width <= 0 ==> r == Err(ArgumentOutOfRange("size"))
    ensures width > 0 && minimumSizeLastMip <= 0 ==> r == Err(ArgumentOutOfRange("minimumSizeLastMip"))
    ensures width > 0 && minimumSizeLastMip > 0 && height <= 0 ==> r == Err(ArgumentOutOfRange("size"))
    ensures r.Ok? <==> width > 0 && height > 0 && minimumSizeLastMip > 0
    ensures r.Ok? ==> var w, h := Levels(width, minimumSizeLastMip), Levels(height, minimumSizeLastMip);
                      1 <= r.value <= w && r.value <= h && (r.value == w || r.value == h)
  {
    var w :- MipCountFromSize(width, minimumSizeLastMip);
    var h :- MipCountFromSize(height, minimumSizeLastMip);
    Ok(Min(w, h))
  }

  datatype GraphicsProfile =
    | Level_9_1 | Level_9_2 | Level_9_3
    | Level_10_0 | Level_10_1
    | Level_11_0 | Level_11_1 | Level_11_2

  /** GraphicsProfile's underlying order. */
  function ProfileRank(profile: GraphicsProfile): nat
  {
    match profile
    case Level_9_1 => 0
    case Level_9_2 => 1
    case Level_9_3 => 2
    case Level_10_0 => 3
    case Level_10_1 => 4
    case Level_11_0 => 5
    case Level_11_1 => 6
    case Level_11_2 => 7
  }

  /** The condition under which CheckMipLevels clamps the mip count. */
  predicate NeedsMipClamp(profile: GraphicsProfile, description: TextureDescription, isCompressed: bool)
  {
    ProfileRank(profile) < ProfileRank(Level_10_0) && !description.flags.depthStencil && isCompressed
  }

  /** Texture.Vulkan.cs, CheckMipLevels: below feature level 10.0, a
      compressed non-depth-stencil texture gets no more mips than its
      extent admits. `isCompressed` is the engine's PixelFormat.IsCompressed
      of the description's format. */
  function CheckMipLevels(profile: GraphicsProfile, description: TextureDescription, isCompressed: bool): (r: Result<TextureDescription>)
    ensures r.Ok? ==> r.value == description.(mipLevels := r.value.mipLevels)
    ensures r.Ok? ==> r.value.mipLevels <= description.mipLevels
    ensures r.Ok? && r.value.mipLevels != description.mipLevels ==> NeedsMipClamp(profile, description, isCompressed)
    ensures r.Err? <==> NeedsMipClamp(profile, description, isCompressed) && (description.width <= 0 || description.height <= 0)
    ensures r.Ok? && NeedsMipClamp(profile, description, isCompressed) ==>
              r.value.mipLevels <= Levels(description.width, DefaultMinimumSizeLastMip)
              && r.value.mipLevels <= Levels(description.height, DefaultMinimumSizeLastMip)
    ensures r.Ok? && NeedsMipClamp(profile, description, isCompressed) ==>
              r.value.mipLevels == Min(Min(Levels(description.width, DefaultMinimumSizeLastMip),
                                           Levels(description.height, DefaultMinimumSizeLastMip)),
                                       description.mipLevels)
  {
    if NeedsMipClamp(profile, description, isCompressed) then
      var count :- CalculateMipCount(description.width, description.height, DefaultMinimumSizeLastMip);
      Ok(description.(mipLevels := Min(count, description.mipLevels)))
    else
      Ok(description)
  }
}
