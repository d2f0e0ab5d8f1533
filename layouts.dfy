/** The image layout and access mask a texture is left in after creation,
    chosen from its roles. */
module Layouts {
  import opened Descriptions

  datatype ImageLayout =
    | Undefined
    | General
    | ColorAttachmentOptimal
    | DepthStencilAttachmentOptimal
    | ShaderReadOnlyOptimal
    | TransferDestinationOptimal

  /** Bits of a Vulkan access mask. */
  datatype Access =
    | HostWrite
    | TransferRead
    | TransferWrite
    | ColorAttachmentWrite
    | DepthStencilAttachmentWrite
    | ShaderRead
    | InputAttachmentRead

  /** The layout selected in InitializeFromImpl: render target first, then
      depth-stencil, then shader resource, else General. */
  function TargetLayout(flags: TextureFlags): ImageLayout
  {
    if flags.renderTarget then ColorAttachmentOptimal
    else if flags.depthStencil then DepthStencilAttachmentOptimal
    else if flags.shaderResource then ShaderReadOnlyOptimal
    else General
  }

  /** The access mask after the four conditional assignments that follow the
      layout selection, starting from the texture's `current` mask; a layout
      none of them names leaves the mask as it was. */
  function AccessMaskFor(layout: ImageLayout, current: set<Access>): set<Access>
  {
    var m0 := if layout == TransferDestinationOptimal then {TransferRead} else current;
    var m1 := if layout == ColorAttachmentOptimal then {ColorAttachmentWrite} else m0;
    var m2 := if layout == DepthStencilAttachmentOptimal then {DepthStencilAttachmentWrite} else m1;
    if layout == ShaderReadOnlyOptimal then {ShaderRead, InputAttachmentRead} else m2
  }

  /** The layout priority, in both directions: each layout is chosen exactly
      when its role is the highest-priority role the texture has. The
      TransferDestinationOptimal case of the access mask is never reached. */
  lemma TargetLayoutPriority(flags: TextureFlags)
    ensures TargetLayout(flags) == ColorAttachmentOptimal <==> flags.renderTarget
    ensures TargetLayout(flags) == DepthStencilAttachmentOptimal <==> !flags.renderTarget && flags.depthStencil
    ensures TargetLayout(flags) == ShaderReadOnlyOptimal
            <==> !flags.renderTarget && !flags.depthStencil && flags.shaderResource
    ensures TargetLayout(flags) == General
            <==> !flags.renderTarget && !flags.depthStencil && !flags.shaderResource
    ensures TargetLayout(flags) != TransferDestinationOptimal && TargetLayout(flags) != Undefined
  {
  }

  /** The access mask matching each selected layout; for General the mask is
      left unchanged. */
  lemma TargetAccessMask(flags: TextureFlags, current: set<Access>)
    ensures var mask := AccessMaskFor(TargetLayout(flags), current);
            && (flags.renderTarget ==> mask == {ColorAttachmentWrite})
            && (!flags.renderTarget && flags.depthStencil ==> mask == {DepthStencilAttachmentWrite})
            && ((!flags.renderTarget && !flags.depthStencil && flags.shaderResource)
                  ==> mask == {ShaderRead, InputAttachmentRead})
            && (TargetLayout(flags) == General ==> mask == current)
  {
  }

  /** The target access mask depends on the previous mask only for General. */
  lemma AccessMaskIndependentOfPrevious(flags: TextureFlags, a: set<Access>, b: set<Access>)
    requires TargetLayout(flags) != General
    ensures AccessMaskFor(TargetLayout(flags), a) == AccessMaskFor(TargetLayout(flags), b)
  {
  }
}
