/** Stream-open negotiation: validate the client's request against the fixed
    sink and size every buffer of the pipeline (adev_open_output_stream). */
module Negotiate {
  import opened AudioDefs
  import opened StreamTypes

  /** Outcomes of the three heap allocations open performs. */
  datatype Allocation = Allocation(streamOk: bool, remixOk: bool, resamplerOk: bool)

  /** Open either yields a stream or a negative status and no stream. */
  datatype OpenResult = Opened(stream: OutStream) | OpenFailed(status: int)

  /** Number of bits set in a channel mask: the channel count Android's
      frame-size helper derives from a mask. */
  function PopCount(mask: nat): nat
    decreases mask
  {
    if mask == 0 then 0 else mask % 2 + PopCount(mask / 2)
  }

  /** The channel count open derives from the mask; 0 marks a mask it does
      not support. */
  function ChannelCount(mask: nat): (n: nat)
    ensures n == 0 <==> mask != AUDIO_CHANNEL_OUT_MONO && mask != AUDIO_CHANNEL_OUT_STEREO
    ensures n != 0 ==> n == PopCount(mask) && n <= 2
  {
    if mask == AUDIO_CHANNEL_OUT_MONO then 1
    else if mask == AUDIO_CHANNEL_OUT_STEREO then
      assert PopCount(mask) == 1 + PopCount(1);
      2
    else 0
  }

  /** The sink configuration derived from the device record. */
  function SinkConfig(dev: Device): PcmConfig {
    PcmConfig(dev.outSampleRate, dev.outChannels, dev.outPeriodSize, dev.outPeriodCount)
  }

  /** Remix scratch size: half the client buffer for a downmix, twice it for
      an upmix, none when the channel counts agree. */
  function RemixBufferSize(channels: nat, sinkChannels: nat, bufferSize: nat): nat {
    if channels != sinkChannels then
      if channels > sinkChannels then bufferSize / 2 else bufferSize * 2
    else 0
  }

  /** Resampler scratch size: one client buffer when the rates differ. */
  function ResamplerBufferSize(rate: nat, sinkRate: nat, bufferSize: nat): nat {
    if rate != sinkRate then bufferSize else 0
  }

  /** The configuration open computes for a validated request. */
  function Configure(dev: Device, req: Request, channels: nat): (c: StreamConfig)
    requires 1 <= channels <= 2
    ensures WellFormed(c)
    ensures c.sampleRate == req.sampleRate && c.channelMask == req.channelMask && c.format == req.format
    ensures c.channels == channels && c.pcm == SinkConfig(dev)
    ensures c.channels > dev.outChannels ==> 2 * c.remixBufferSize == c.bufferSize
  {
    var pcm := SinkConfig(dev);
    var bufferSize := channels * PCM16_SAMPLE_BYTES * pcm.periodSize;
    assert bufferSize == 2 * (channels * pcm.periodSize);
    StreamConfig(
      req.sampleRate, req.channelMask, req.format, channels, pcm, bufferSize,
      RemixBufferSize(channels, pcm.channels, bufferSize),
      ResamplerBufferSize(req.sampleRate, pcm.rate, bufferSize))
  }

  /** The state every new stream starts in. */
  const InitialState: StreamState := StreamState(true, NoPcm, None)

  /** adev_open_output_stream. */
  function OpenOutputStream(dev: Device, req: Request, alloc: Allocation): (r: OpenResult)
    // rejection: wrong format or a mask that is neither mono nor stereo
    ensures req.format != AUDIO_FORMAT_PCM_16_BIT
            || (req.channelMask != AUDIO_CHANNEL_OUT_MONO && req.channelMask != AUDIO_CHANNEL_OUT_STEREO)
            ==> r == OpenFailed(if alloc.streamOk then -1 else -ENOMEM)
    ensures r.OpenFailed? ==> r.status < 0
    // a failed allocation of the stream, or of a scratch buffer it needs, fails the open
    ensures !alloc.streamOk ==> r == OpenFailed(-ENOMEM)
    ensures r.Opened? ==>
              && alloc.streamOk
              && (r.stream.config.remixBufferSize != 0 ==> alloc.remixOk)
              && (r.stream.config.resamplerBufferSize != 0 ==> alloc.resamplerOk)
    ensures r.OpenFailed? && r.status == -ENOMEM ==> !alloc.streamOk || !alloc.remixOk || !alloc.resamplerOk
    // a valid request whose allocations all succeed opens
    ensures alloc == Allocation(true, true, true)
            && req.format == AUDIO_FORMAT_PCM_16_BIT
            && (req.channelMask == AUDIO_CHANNEL_OUT_MONO || req.channelMask == AUDIO_CHANNEL_OUT_STEREO)
            ==> r.Opened?
    // what an opened stream looks like
    ensures r.Opened? ==>
              var c := r.stream.config;
              && c.format == AUDIO_FORMAT_PCM_16_BIT
              && c.sampleRate == req.sampleRate
              && c.channelMask == req.channelMask
              && c.channels == PopCount(req.channelMask)
              && (c.channels == 1 <==> req.channelMask == AUDIO_CHANNEL_OUT_MONO)
              && (c.channels == 2 <==> req.channelMask == AUDIO_CHANNEL_OUT_STEREO)
              && c.pcm == SinkConfig(dev)
              && WellFormed(c)
    ensures r.Opened? ==> r.stream.state == InitialState && Consistent(r.stream.config, r.stream.state)
    // buffer sizing
    ensures r.Opened? ==>
              var c := r.stream.config;
              && (c.channels == dev.outChannels ==> c.remixBufferSize == 0)
              && (c.channels > dev.outChannels ==> 2 * c.remixBufferSize == c.bufferSize)
              && (c.channels < dev.outChannels ==> c.remixBufferSize == 2 * c.bufferSize)
              && (c.NeedsResample() ==> c.resamplerBufferSize == c.bufferSize)
              && (!c.NeedsResample() ==> c.resamplerBufferSize == 0)
    // a scratch buffer is allocated exactly when it has a size
    ensures r.Opened? ==>
              && r.stream.remixBuffer == (r.stream.config.remixBufferSize != 0)
              && r.stream.resamplerBuffer == (r.stream.config.resamplerBufferSize != 0)
  {
    if !alloc.streamOk then OpenFailed(-ENOMEM)
    else if req.format != AUDIO_FORMAT_PCM_16_BIT then OpenFailed(-1)
    else
      var channels := ChannelCount(req.channelMask);
      if channels == 0 then OpenFailed(-1)
      else
        var c := Configure(dev, req, channels);
        if c.remixBufferSize != 0 && !alloc.remixOk then OpenFailed(-ENOMEM)
        else if c.resamplerBufferSize != 0 && !alloc.resamplerOk then OpenFailed(-ENOMEM)
        else Opened(OutStream(c, InitialState, c.remixBufferSize != 0, c.resamplerBufferSize != 0))
  }

  /** On the board the sizes are concrete: the client buffer is one period
      of client frames, only a mono client needs remix scratch (one period
      of stereo sink frames), and the downmix branch is never taken. */
  lemma BoardOpenSizes(req: Request, alloc: Allocation)
    requires OpenOutputStream(Board, req, alloc).Opened?
    ensures var c := OpenOutputStream(Board, req, alloc).stream.config;
            && c.bufferSize == 2 * c.channels * OUT_PERIOD_SIZE
            && (c.channels == 1 ==> c.remixBufferSize == 2 * c.bufferSize == OUT_PERIOD_SIZE * OUT_CHANNELS * PCM16_SAMPLE_BYTES)
            && (c.channels == 2 ==> c.remixBufferSize == 0)
            && c.channels <= OUT_CHANNELS
            && (c.resamplerBufferSize != 0 <==> req.sampleRate != OUT_SAMPLE_RATE)
            && (c.resamplerBufferSize != 0 ==> c.resamplerBufferSize == c.bufferSize)
  {
  }

  /** When open fails it fails for one of the reasons the HAL names: an
      unsupported format, an unsupported mask, or a failed allocation. */
  lemma OpenFailureReasons(dev: Device, req: Request, alloc: Allocation)
    requires OpenOutputStream(dev, req, alloc).OpenFailed?
    ensures var st := OpenOutputStream(dev, req, alloc).status;
            || (st == -ENOMEM && !alloc.streamOk)
            || (st == -1 && req.format != AUDIO_FORMAT_PCM_16_BIT)
            || (st == -1 && ChannelCount(req.channelMask) == 0)
            || (st == -ENOMEM && !alloc.remixOk && ChannelCount(req.channelMask) != dev.outChannels)
            || (st == -ENOMEM && !alloc.resamplerOk && req.sampleRate != dev.outSampleRate)
  {
  }

  /** Each scratch buffer holds one sink period of the frames it carries:
      the remix scratch at the sink's channel count, the resampler scratch
      at the client's. */
  lemma ScratchHoldsOnePeriod(dev: Device, req: Request, alloc: Allocation)
    requires 1 <= dev.outChannels <= 2
    requires OpenOutputStream(dev, req, alloc).Opened?
    ensures var c := OpenOutputStream(dev, req, alloc).stream.config;
            && (c.NeedsRemix() ==> c.remixBufferSize == dev.outChannels * PCM16_SAMPLE_BYTES * dev.outPeriodSize)
            && (c.NeedsResample() ==> c.resamplerBufferSize == c.channels * PCM16_SAMPLE_BYTES * dev.outPeriodSize)
  {
  }
}
