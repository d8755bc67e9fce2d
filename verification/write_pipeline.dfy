/** The write path of an output stream (out_write): lazy activation, the
    pacing fallback, and the byte/frame bookkeeping through the optional
    resample and remix stages. Samples themselves are not modelled, only
    how many bytes and frames flow through each stage. */
module WritePipeline {
  import opened AudioDefs
  import opened StreamTypes
  import opened StandbyMachine

  /** What the write asks usleep for: nothing, a number of microseconds, or
      a division by a zero sample rate (undefined in C). */
  datatype Pacing = NoDelay | Delay(micros: nat) | DivisionByZero

  /** x / a is the floor of x over a. */
  lemma DivIsFloor(x: nat, a: nat)
    requires a > 0
    ensures (x / a) * a <= x < (x / a + 1) * a
  {
    assert x == (x / a) * a + x % a;
  }

  /** (x / a) / b is the floor of x over a * b. */
  lemma NestedDivisionIsFloor(x: nat, a: nat, b: nat)
    requires a > 0 && b > 0
    ensures (x / a / b) * (a * b) <= x < (x / a / b + 1) * (a * b)
  {
    var q1 := x / a;
    var q := q1 / b;
    DivIsFloor(x, a);
    DivIsFloor(q1, b);
    MulMonotone(q * b, q1, a);
    assert q * (a * b) == (q * b) * a;
    MulMonotone(q1 + 1, (q + 1) * b, a);
    assert (q + 1) * (a * b) == ((q + 1) * b) * a;
  }

  lemma MulMonotone(x: nat, y: nat, a: nat)
    requires x <= y
    ensures x * a <= y * a
  {
  }

  /** Without wrap-around, the size_t pacing quotient is the floor of the
      exact duration. */
  lemma PacingIsFloor(bytes: nat, frameSize: nat, rate: nat)
    requires frameSize > 0 && rate > 0
    ensures var q := (bytes * 1000000) % SIZE_T_MODULUS / frameSize / rate;
            bytes * 1000000 < SIZE_T_MODULUS ==>
              q * (frameSize * rate) <= bytes * 1000000 < (q + 1) * (frameSize * rate)
  {
    var x := bytes * 1000000;
    if x < SIZE_T_MODULUS {
      assert x % SIZE_T_MODULUS == x;
      NestedDivisionIsFloor(x, frameSize, rate);
    }
  }

  /** The usleep argument of the pacing fallback,
      bytes * 1000000 / frameSize / rate in 32-bit size_t arithmetic. When
      the product does not wrap it is the audio's duration at the client's
      rate, rounded down to whole microseconds. */
  function PacingDelay(bytes: nat, frameSize: nat, rate: nat): (p: Pacing)
    requires frameSize > 0
    ensures p.DivisionByZero? <==> rate == 0
    ensures rate != 0 ==> p.Delay?
    ensures p.Delay? && bytes * 1000000 < SIZE_T_MODULUS ==>
              p.micros * (frameSize * rate) <= bytes * 1000000 < (p.micros + 1) * (frameSize * rate)
  {
    if rate == 0 then DivisionByZero
    else
      PacingIsFloor(bytes, frameSize, rate);
      Delay((bytes * 1000000) % SIZE_T_MODULUS / frameSize / rate)
  }

  /** The size_t product wraps exactly for writes above 4294 bytes, and a
      wrapped delay is always shorter than the audio it paces. */
  lemma PacingWrapsAboveLimit(bytes: nat, frameSize: nat, rate: nat)
    requires frameSize > 0 && rate > 0
    ensures bytes * 1000000 >= SIZE_T_MODULUS <==> bytes > 4294
    ensures bytes > 4294 ==> PacingDelay(bytes, frameSize, rate).micros * (frameSize * rate) < bytes * 1000000
  {
  }

  /** Two periods of stereo 48 kHz audio (8192 bytes, 42.67 ms) wrap the
      size_t product and are paced for only 20297 microseconds. */
  lemma PacingWrapExample()
    ensures 8192 * 1000000 >= SIZE_T_MODULUS
    ensures PacingDelay(8192, 4, 48000) == Delay(20297)
    ensures 20297 * (4 * 48000) < 8192 * 1000000 - 4 * 48000
  {
  }

  /** Input and output frame counts a resampler run reports back. */
  datatype ResampleStep = ResampleStep(consumed: nat, produced: nat)

  /** Outcomes of the calls out_write makes outside this model. */
  datatype WriteEnv = WriteEnv(pcmResult: Pcm, resamplerOk: bool, step: ResampleStep, pcmWriteOk: bool)

  /** Result of one write: the new state, the byte count returned to the
      client, the byte count handed to pcm_write (None when the sink was not
      written), the pacing requested, and any sink handle activation
      overwrote. */
  datatype WriteResult = WriteResult(state: StreamState, returned: nat, submitted: Option<nat>, pacing: Pacing, overwritten: Pcm)

  /** Frames of client input offered to the resampler. */
  function OfferedInput(c: StreamConfig, bytes: nat): nat
    requires WellFormed(c)
  {
    bytes / c.FrameSize()
  }

  /** Frames of output room offered to the resampler, counted in client
      frames. */
  function OfferedOutput(c: StreamConfig): nat
    requires WellFormed(c)
  {
    c.resamplerBufferSize / c.FrameSize()
  }

  /** The resampler's contract: it consumes and produces no more than it was
      offered. */
  predicate Honours(c: StreamConfig, bytes: nat, step: ResampleStep)
    requires WellFormed(c)
  {
    step.consumed <= OfferedInput(c, bytes) && step.produced <= OfferedOutput(c)
  }

  /** Frames produced within the offered room, at the client frame size,
      fit the resampler scratch. */
  lemma ProducedFitsScratch(c: StreamConfig, step: ResampleStep)
    ensures WellFormed(c) && step.produced <= OfferedOutput(c) ==>
              step.produced * c.FrameSize() <= c.resamplerBufferSize
  {
    if WellFormed(c) && step.produced <= OfferedOutput(c) {
      MulMonotone(step.produced, c.resamplerBufferSize / c.FrameSize(), c.FrameSize());
      DivIsFloor(c.resamplerBufferSize, c.FrameSize());
    }
  }

  /** Bytes leaving the resample stage: the input itself, or the produced
      frames at the client frame size, which stay within the resampler
      scratch when the resampler keeps to the room it was offered. */
  function StageBytes(c: StreamConfig, bytes: nat, step: ResampleStep): (r: nat)
    ensures !c.NeedsResample() ==> r == bytes
    ensures c.NeedsResample() ==> r == step.produced * c.FrameSize()
    ensures c.NeedsResample() && WellFormed(c) && step.produced <= OfferedOutput(c) ==> r <= c.resamplerBufferSize
  {
    if c.NeedsResample() then
      ProducedFitsScratch(c, step);
      step.produced * c.FrameSize()
    else bytes
  }

  /** Bytes leaving the remix stage: half for a downmix, double for an
      upmix. */
  function RemixBytes(c: StreamConfig, n: nat): (r: nat)
    ensures c.channels > c.pcm.channels ==> r == n / 2
    ensures c.channels < c.pcm.channels ==> r == 2 * n
    ensures c.channels == c.pcm.channels ==> r == n
  {
    if c.NeedsRemix() then
      if c.channels > c.pcm.channels then n / 2 else n * 2
    else n
  }

  /** Input frames the resampler consumed, at the client frame size, are
      within the input when it keeps its contract. */
  lemma ConsumedFitsInput(c: StreamConfig, bytes: nat, step: ResampleStep)
    requires WellFormed(c)
    ensures Honours(c, bytes, step) ==> step.consumed * c.FrameSize() <= bytes
  {
    if Honours(c, bytes, step) {
      MulMonotone(step.consumed, bytes / c.FrameSize(), c.FrameSize());
      DivIsFloor(bytes, c.FrameSize());
    }
  }

  /** The byte count out_write reports: the input bytes, or the input frames
      the resampler consumed at the client frame size. */
  function ProcessedBytes(c: StreamConfig, bytes: nat, step: ResampleStep): (r: nat)
    requires WellFormed(c)
    ensures !c.NeedsResample() ==> r == bytes
    ensures c.NeedsResample() ==> r == step.consumed * c.FrameSize()
    ensures Honours(c, bytes, step) ==> r <= bytes
    ensures r % c.FrameSize() == 0 || r == bytes
  {
    if c.NeedsResample() then
      ConsumedFitsInput(c, bytes, step);
      step.consumed * c.FrameSize()
    else bytes
  }

  /** out_write. */
  function Write(c: StreamConfig, s: StreamState, bytes: nat, env: WriteEnv): (w: WriteResult)
    requires WellFormed(c) && Consistent(c, s)
    ensures Consistent(c, w.state)
    // the sink is written exactly when the stream ends up active
    ensures w.submitted.Some? <==> !w.state.standby
    ensures !s.standby ==> w.submitted.Some? && w.state == s && w.overwritten == NoPcm
    // the sink is skipped exactly when lazy activation fails
    ensures w.submitted.None? <==> s.standby && LeaveStandby(c, s, env.pcmResult, env.resamplerOk).status != 0
    ensures w.overwritten == LeaveStandby(c, s, env.pcmResult, env.resamplerOk).overwritten
    // failed lazy activation: everything reported consumed, paced at the client rate
    ensures w.submitted.None? ==>
              && w.returned == bytes
              && w.pacing == PacingDelay(bytes, c.FrameSize(), c.sampleRate)
              && w.state == LeaveStandby(c, s, env.pcmResult, env.resamplerOk).state
    // the returned count
    ensures w.submitted.Some? && !c.NeedsResample() ==> w.returned == bytes
    ensures w.submitted.Some? && c.NeedsResample() ==> w.returned == env.step.consumed * c.FrameSize()
    ensures w.returned % c.FrameSize() == 0 || w.returned == bytes
    ensures Honours(c, bytes, env.step) ==> w.returned <= bytes
    // a failed sink write is paced, not reported
    ensures w.submitted.Some? ==> w.pacing == (if env.pcmWriteOk then NoDelay else PacingDelay(bytes, c.FrameSize(), c.sampleRate))
    // the remix stage halves, doubles or keeps the bytes sent to the sink
    ensures w.submitted.Some? ==>
              var pre := StageBytes(c, bytes, env.step);
              && (c.channels > c.pcm.channels ==> w.submitted.value == pre / 2)
              && (c.channels < c.pcm.channels ==> w.submitted.value == 2 * pre)
              && (c.channels == c.pcm.channels ==> w.submitted.value == pre)
  {
    var fs := c.FrameSize();
    var a := LeaveStandby(c, s, env.pcmResult, env.resamplerOk);
    if s.standby && a.status != 0 then
      WriteResult(a.state, bytes, None, PacingDelay(bytes, fs, c.sampleRate), a.overwritten)
    else
      var processed := ProcessedBytes(c, bytes, env.step);
      var sent := RemixBytes(c, StageBytes(c, bytes, env.step));
      var pacing := if env.pcmWriteOk then NoDelay else PacingDelay(bytes, fs, c.sampleRate);
      WriteResult(a.state, processed, Some(sent), pacing, a.overwritten)
  }

  /** A failed sink write changes neither what the client is told nor the
      stream's state; only the pacing differs. */
  lemma SinkFailureInvisible(c: StreamConfig, s: StreamState, bytes: nat, env: WriteEnv)
    requires WellFormed(c) && Consistent(c, s)
    ensures var ok := Write(c, s, bytes, env.(pcmWriteOk := true));
            var failed := Write(c, s, bytes, env.(pcmWriteOk := false));
            && ok.returned == failed.returned
            && ok.state == failed.state
            && ok.submitted == failed.submitted
  {
  }

  /** A write on a stream whose format matches the sink forwards exactly the
      bytes it was given and reports them all consumed. */
  lemma PassThroughWrite(c: StreamConfig, s: StreamState, bytes: nat, env: WriteEnv)
    requires WellFormed(c) && Consistent(c, s)
    requires !c.NeedsResample() && !c.NeedsRemix()
    ensures var w := Write(c, s, bytes, env);
            w.returned == bytes && (w.submitted.Some? ==> w.submitted.value == bytes)
  {
  }

  /** A zero-length write returns 0 whenever the resampler keeps its
      contract. */
  lemma ZeroLengthWrite(c: StreamConfig, s: StreamState, env: WriteEnv)
    requires WellFormed(c) && Consistent(c, s)
    requires Honours(c, 0, env.step)
    ensures Write(c, s, 0, env).returned == 0
  {
  }

  /** The remix stage keeps the frame count: the frames handed to the sink
      (at the sink's frame size) are the frames leaving the resample stage
      (at the client's frame size), for mono and stereo sinks. */
  lemma RemixKeepsFrames(c: StreamConfig, s: StreamState, bytes: nat, env: WriteEnv)
    requires WellFormed(c) && Consistent(c, s)
    requires 1 <= c.pcm.channels <= 2
    ensures var w := Write(c, s, bytes, env);
            w.submitted.Some? ==>
              w.submitted.value / (c.pcm.channels * PCM16_SAMPLE_BYTES)
              == StageBytes(c, bytes, env.step) / c.FrameSize()
  {
  }

  /** With rate conversion, the sink receives exactly the frames the
      resampler produced, at the sink's frame size, for mono and stereo
      sinks. */
  lemma SinkGetsProducedFrames(c: StreamConfig, s: StreamState, bytes: nat, env: WriteEnv)
    requires WellFormed(c) && Consistent(c, s)
    requires 1 <= c.pcm.channels <= 2 && c.NeedsResample()
    ensures var w := Write(c, s, bytes, env);
            w.submitted.Some? ==> w.submitted.value == env.step.produced * c.pcm.channels * PCM16_SAMPLE_BYTES
  {
  }

  /** On the board a mono client's upmixed data fits the remix scratch
      without resampling exactly when the write is at most one client
      buffer; with resampling it always fits if the resampler keeps its
      contract. */
  lemma BoardUpmixFitsScratch(c: StreamConfig, s: StreamState, bytes: nat, env: WriteEnv)
    requires OnBoard(c) && Consistent(c, s) && c.channels == 1
    ensures var w := Write(c, s, bytes, env);
            w.submitted.Some? ==>
              && (!c.NeedsResample() ==> (w.submitted.value <= c.remixBufferSize <==> bytes <= c.bufferSize))
              && (c.NeedsResample() && Honours(c, bytes, env.step) ==> w.submitted.value <= c.remixBufferSize)
  {
  }

  /** Bytes the resampler writes into its scratch in one run: it works in
      frames of its own channel count. */
  function ResamplerOutputBytes(r: Resampler, step: ResampleStep): nat {
    step.produced * r.channels * PCM16_SAMPLE_BYTES
  }

  /** Bytes the resampler reads from the client buffer in one run, again in
      frames of its own channel count. */
  function ResamplerInputBytes(r: Resampler, step: ResampleStep): nat {
    step.consumed * r.channels * PCM16_SAMPLE_BYTES
  }

  /** For a stereo client on the board the resampler's output fits its
      scratch, and its input lies within the client buffer, whenever the
      resampler keeps its contract. */
  lemma StereoResamplerFitsScratch(c: StreamConfig, s: StreamState, bytes: nat, step: ResampleStep)
    requires OnBoard(c) && Consistent(c, s) && c.channels == 2
    requires !s.standby && c.NeedsResample() && Honours(c, bytes, step)
    ensures ResamplerOutputBytes(s.resampler.value, step) <= c.resamplerBufferSize
    ensures ResamplerInputBytes(s.resampler.value, step) <= bytes
  {
  }

  /** For a mono client on the board the resampler, created for the sink's
      two channels, may legally produce every frame it is offered, and that
      writes twice the scratch buffer's size. */
  lemma MonoResamplerOverrunsScratch(c: StreamConfig, s: StreamState, bytes: nat)
    requires OnBoard(c) && Consistent(c, s) && c.channels == 1
    requires !s.standby && c.NeedsResample()
    ensures var full := ResampleStep(0, OfferedOutput(c));
            && Honours(c, bytes, full)
            && ResamplerOutputBytes(s.resampler.value, full) == 2 * c.resamplerBufferSize
            && ResamplerOutputBytes(s.resampler.value, full) > c.resamplerBufferSize
  {
  }

  /** For a mono client on the board the resampler reads two-channel frames
      from a mono buffer: it reads twice the bytes out_write reports
      consumed, and consuming every offered frame, which is within its
      contract, reads twice the client's buffer. */
  lemma MonoResamplerOverreadsInput(c: StreamConfig, s: StreamState, bytes: nat, env: WriteEnv)
    requires OnBoard(c) && Consistent(c, s) && c.channels == 1
    requires !s.standby && c.NeedsResample()
    ensures ResamplerInputBytes(s.resampler.value, env.step) == 2 * Write(c, s, bytes, env).returned
    ensures var full := ResampleStep(OfferedInput(c, bytes), 0);
            && Honours(c, bytes, full)
            && (bytes % 2 == 0 ==>
                  && Write(c, s, bytes, env.(step := full)).returned == bytes
                  && ResamplerInputBytes(s.resampler.value, full) == 2 * bytes)
  {
  }
}
