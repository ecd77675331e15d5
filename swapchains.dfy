/** The swap-chain descriptor (`DXGI_SWAP_CHAIN_DESC1`), the mirror's
    descriptor derived from the game's, and what `ResizeBuffers` does to a
    descriptor. */
module SwapChains {
  import opened Common

  /** `DXGI_SCALING` */
  datatype Scaling = Stretch | NoScaling | AspectRatioStretch

  /** `DXGI_SWAP_EFFECT` */
  datatype SwapEffect = Discard | Sequential | FlipSequential | FlipDiscard

  /** `DXGI_ALPHA_MODE` */
  datatype AlphaMode = Unspecified | Premultiplied | Straight | Ignore

  /** `DXGI_SWAP_CHAIN_DESC1`; the format is the numeric `DXGI_FORMAT`. */
  datatype SwapChainDesc = SwapChainDesc(
    width: nat,
    height: nat,
    format: nat,
    stereo: bool,
    sampleCount: nat,
    sampleQuality: nat,
    bufferUsage: bv32,
    bufferCount: nat,
    scaling: Scaling,
    swapEffect: SwapEffect,
    alphaMode: AlphaMode,
    flags: bv32)

  /** `DXGI_USAGE_RENDER_TARGET_OUTPUT` */
  const UsageRenderTargetOutput: bv32 := 0x20

  /** A live swap chain: its handle and the descriptor DXGI holds for it. */
  datatype SwapChain = SwapChain(handle: SwapChainId, desc: SwapChainDesc)

  /** The shape every mirror swap chain has: single-sampled, mono,
      double-buffered flip-discard presentation with no scaling and no
      flags, used as a render-target output. */
  predicate MirrorShape(d: SwapChainDesc) {
    && !d.stereo
    && d.sampleCount == 1 && d.sampleQuality == 0
    && d.bufferUsage == UsageRenderTargetOutput
    && d.bufferCount == 2
    && d.scaling == NoScaling
    && d.swapEffect == FlipDiscard
    && d.flags == 0
  }

  /** Same image size and pixel format. */
  predicate SameImage(d: SwapChainDesc, source: SwapChainDesc) {
    d.width == source.width && d.height == source.height && d.format == source.format
  }

  /** `CopyResource` from a back buffer described by `source` into one
      described by `d` needs equal size, format and sample count. */
  predicate CopyCompatible(d: SwapChainDesc, source: SwapChainDesc) {
    SameImage(d, source) && d.sampleCount == source.sampleCount
  }

  /** The mirror's descriptor: a copy of the game's with the presentation
      fields forced; everything not forced (size, format, alpha mode) is the
      game's. */
  function MirrorDesc(source: SwapChainDesc): (d: SwapChainDesc)
    ensures MirrorShape(d)
    ensures SameImage(d, source)
    ensures d.alphaMode == source.alphaMode
  {
    source.(stereo := false, sampleCount := 1, sampleQuality := 0,
            bufferUsage := UsageRenderTargetOutput, bufferCount := 2,
            scaling := NoScaling, swapEffect := FlipDiscard, flags := 0)
  }

  /** `IDXGISwapChain::ResizeBuffers(count, width, height, format, flags)`
      on a chain described by `d`: a buffer count of 0 keeps the existing
      count; size, format and flags are replaced; sampling, stereo, scaling
      and swap effect are fixed at creation. */
  function ResizedDesc(d: SwapChainDesc, count: nat, width: nat, height: nat, format: nat, flags: bv32): (r: SwapChainDesc)
    ensures r.bufferCount == (if count == 0 then d.bufferCount else count)
    ensures r.width == width && r.height == height && r.format == format && r.flags == flags
    ensures r.(width := d.width, height := d.height, format := d.format, flags := d.flags,
               bufferCount := d.bufferCount) == d
  {
    d.(bufferCount := if count == 0 then d.bufferCount else count,
       width := width, height := height, format := format, flags := flags)
  }

  /** The resize path of `init_swapchain` (`ResizeBuffers(0, W, H, F, 0)`
      with the game's new size and format) keeps a mirror a mirror and
      makes it match the game again. */
  lemma ResizeKeepsMirrorShape(d: SwapChainDesc, source: SwapChainDesc)
    requires MirrorShape(d)
    ensures var r := ResizedDesc(d, 0, source.width, source.height, source.format, 0);
      MirrorShape(r) && SameImage(r, source)
  {
  }

  /** The back buffers of a freshly created mirror can take a plain copy of
      the game's back buffer exactly when the game's is single-sampled: this
      is why `multisampled` is recorded. */
  lemma MirrorCopyCompatibleIffSingleSampled(source: SwapChainDesc)
    requires source.sampleCount >= 1
    ensures CopyCompatible(MirrorDesc(source), source) <==> !(source.sampleCount > 1)
  {
  }

  /** A mirror created for a 4x multisampled 1920x1080 game and then resized
      to 2560x1440 has 2560x1440 single-sampled buffers. */
  lemma ResizeExample(source: SwapChainDesc)
    requires source.width == 1920 && source.height == 1080 && source.sampleCount == 4
    ensures var grown := source.(width := 2560, height := 1440);
      var r := ResizedDesc(MirrorDesc(source), 0, grown.width, grown.height, grown.format, 0);
      r.width == 2560 && r.height == 1440 && r.sampleCount == 1 && r.bufferCount == 2
  {
  }
}
