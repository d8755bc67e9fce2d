/** The records of one output stream: the configuration fixed at open time
    and the runtime state the standby machine changes. */
module StreamTypes {
  import opened AudioDefs

  /** What the client asks for when it opens a stream. */
  datatype Request = Request(sampleRate: nat, channelMask: nat, format: nat)

  /** The tinyalsa configuration the stream later opens the sink with. */
  datatype PcmConfig = PcmConfig(rate: nat, channels: nat, periodSize: nat, periodCount: nat)

  /** Everything open computes once for the stream's lifetime. */
  datatype StreamConfig = StreamConfig(
    sampleRate: nat,
    channelMask: nat,
    format: nat,
    channels: nat,
    pcm: PcmConfig,
    bufferSize: nat,
    remixBufferSize: nat,
    resamplerBufferSize: nat)
  {
    /** Bytes per client frame: channels times two bytes of 16-bit PCM. */
    function FrameSize(): nat {
      channels * PCM16_SAMPLE_BYTES
    }

    /** The client rate differs from the sink rate. */
    predicate NeedsResample() {
      sampleRate != pcm.rate
    }

    /** The client channel count differs from the sink channel count. */
    predicate NeedsRemix() {
      channels != pcm.channels
    }
  }

  /** What the stream holds in its `pcm` pointer: NULL, or a handle that is
      ready or not. */
  datatype Pcm = NoPcm | PcmHandle(ready: bool)

  /** A live resampler: source rate, destination rate and the channel count
      it was created for. */
  datatype Resampler = Resampler(inRate: nat, outRate: nat, channels: nat)

  /** The mutable part of a stream. */
  datatype StreamState = StreamState(standby: bool, pcm: Pcm, resampler: Option<Resampler>)

  /** An open stream: configuration, runtime state, and whether each scratch
      buffer was allocated. */
  datatype OutStream = OutStream(config: StreamConfig, state: StreamState, remixBuffer: bool, resamplerBuffer: bool)

  /** The shape of every configuration open produces: mono or stereo, a
      client buffer of one sink period of client frames, remix scratch
      scaled by the channel conversion, and resampler scratch of one client
      buffer exactly when the rates differ. */
  predicate WellFormed(c: StreamConfig) {
    && 1 <= c.channels <= 2
    && c.bufferSize == c.FrameSize() * c.pcm.periodSize
    && c.remixBufferSize == (if !c.NeedsRemix() then 0
                             else if c.channels > c.pcm.channels then c.bufferSize / 2
                             else c.bufferSize * 2)
    && c.resamplerBufferSize == (if c.NeedsResample() then c.bufferSize else 0)
  }

  /** A well-formed configuration for the board's fixed sink. */
  predicate OnBoard(c: StreamConfig) {
    && WellFormed(c)
    && c.pcm == PcmConfig(OUT_SAMPLE_RATE, OUT_CHANNELS, OUT_PERIOD_SIZE, OUT_PERIOD_COUNT)
  }

  /** The handle/standby invariant the code keeps: an active stream owns a
      ready sink and exactly the resampler its rates call for; a stream in
      standby owns no resampler (it may still hold a sink handle, see
      StandbyMachine). */
  predicate Consistent(c: StreamConfig, s: StreamState) {
    && (s.standby ==> s.resampler.None?)
    && (!s.standby ==> s.pcm == PcmHandle(true) && (s.resampler.Some? <==> c.NeedsResample()))
    && (s.resampler.Some? ==> s.resampler.value == Resampler(c.sampleRate, c.pcm.rate, c.pcm.channels))
  }
}
