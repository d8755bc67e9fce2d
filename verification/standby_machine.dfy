/** The standby/active machine of an output stream: out_standby,
    out_leave_standby and the close path. The sink open, its readiness and
    resampler creation are outside this model; their outcomes are inputs. */
module StandbyMachine {
  import opened AudioDefs
  import opened StreamTypes

  /** Result of out_standby: the new state and the status it returns. */
  datatype StandbyResult = StandbyResult(state: StreamState, status: int)

  /** Result of out_leave_standby: the new state, the status, and the sink
      handle the stream held before that pcm_open overwrote without closing. */
  datatype Activation = Activation(state: StreamState, status: int, overwritten: Pcm)

  /** out_standby: an active stream closes its sink, releases its resampler
      and enters standby; a stream already in standby is left alone. */
  function Standby(s: StreamState): (r: StandbyResult)
    ensures r.status == 0
    ensures r.state.standby
    ensures !s.standby ==> r.state.pcm == NoPcm && r.state.resampler == None
    ensures s.standby ==> r.state == s
  {
    if !s.standby then StandbyResult(StreamState(true, NoPcm, None), 0)
    else StandbyResult(s, 0)
  }

  /** out_standby is idempotent: a second call changes nothing and also
      returns 0. */
  lemma StandbyIdempotent(s: StreamState)
    ensures Standby(Standby(s).state) == Standby(s)
  {
  }

  /** out_standby keeps the handle/standby invariant. */
  lemma StandbyKeepsConsistent(c: StreamConfig, s: StreamState)
    requires Consistent(c, s)
    ensures Consistent(c, Standby(s).state)
  {
  }

  /** The resampler out_leave_standby creates: client rate to sink rate, with
      the SINK's channel count. */
  function CreatedResampler(c: StreamConfig): Resampler {
    Resampler(c.sampleRate, c.pcm.rate, c.pcm.channels)
  }

  /** out_leave_standby. `pcmResult` is what pcm_open returned (NULL, or a
      handle with its readiness); `resamplerOk` is whether create_resampler
      succeeded. */
  function LeaveStandby(c: StreamConfig, s: StreamState, pcmResult: Pcm, resamplerOk: bool): (a: Activation)
    ensures !s.standby ==> a == Activation(s, 0, NoPcm)
    ensures a.status == 0 || a.status == -1
    ensures a.status == 0 <==> !a.state.standby
    ensures s.standby ==>
              && (a.status == 0 <==> pcmResult == PcmHandle(true) && (c.NeedsResample() ==> resamplerOk))
              && a.state.pcm == pcmResult
              && a.overwritten == s.pcm
    // the resampler is created for the sink's channel count, not the client's
    ensures s.standby && a.status == 0 ==>
              a.state.resampler == (if c.NeedsResample() then Some(Resampler(c.sampleRate, c.pcm.rate, c.pcm.channels)) else None)
    ensures Consistent(c, s) ==> Consistent(c, a.state)
  {
    if s.standby then
      if pcmResult != PcmHandle(true) then
        Activation(StreamState(true, pcmResult, s.resampler), -1, s.pcm)
      else if c.NeedsResample() && !resamplerOk then
        Activation(StreamState(true, pcmResult, None), -1, s.pcm)
      else
        var resampler := if c.NeedsResample() then Some(CreatedResampler(c)) else None;
        Activation(StreamState(false, pcmResult, resampler), 0, s.pcm)
    else
      Activation(s, 0, NoPcm)
  }

  /** A failed activation still holds the handle pcm_open gave it, and a
      later out_standby does not close it because the stream is already in
      standby. When resampler creation is what failed, that handle is a
      ready, open sink. */
  lemma FailedActivationHoldsPcm(c: StreamConfig, s: StreamState, resamplerOk: bool)
    requires s.standby && c.NeedsResample() && !resamplerOk
    ensures var a := LeaveStandby(c, s, PcmHandle(true), resamplerOk);
            && a.status == -1
            && a.state.standby
            && a.state.pcm == PcmHandle(true)
            && Standby(a.state).state.pcm == PcmHandle(true)
  {
  }

  /** Retrying activation after such a failure overwrites the held handle
      without closing it. */
  lemma RetryOverwritesHeldPcm(c: StreamConfig, s: StreamState, pcmResult: Pcm, resamplerOk: bool)
    requires s.standby && c.NeedsResample()
    ensures var first := LeaveStandby(c, s, PcmHandle(true), false);
            LeaveStandby(c, first.state, pcmResult, resamplerOk).overwritten == PcmHandle(true)
  {
  }

  /** The resources a stream can hold. */
  datatype Resource = SinkHandle | ResamplerHandle | ResamplerScratch | RemixScratch

  /** What adev_close_output_stream releases. */
  datatype Release = Release(pcmClosed: bool, resamplerReleased: bool, resamplerBufferFreed: bool, remixBufferFreed: bool)

  /** Resources an open stream holds. */
  function Held(o: OutStream): set<Resource> {
    (if o.state.pcm != NoPcm then {SinkHandle} else {})
    + (if o.state.resampler.Some? then {ResamplerHandle} else {})
    + (if o.resamplerBuffer then {ResamplerScratch} else {})
    + (if o.remixBuffer then {RemixScratch} else {})
  }

  /** Resources a release frees. */
  function Freed(r: Release): set<Resource> {
    (if r.pcmClosed then {SinkHandle} else {})
    + (if r.resamplerReleased then {ResamplerHandle} else {})
    + (if r.resamplerBufferFreed then {ResamplerScratch} else {})
    + (if r.remixBufferFreed then {RemixScratch} else {})
  }

  /** adev_close_output_stream: an active stream is put in standby first,
      then the resampler scratch is freed. The remix scratch is not freed. */
  function CloseOutputStream(o: OutStream): (r: Release)
    requires Consistent(o.config, o.state)
    ensures Freed(r) <= Held(o)
    ensures !r.remixBufferFreed
    ensures r.resamplerBufferFreed == o.resamplerBuffer
    ensures !o.state.standby ==> SinkHandle in Freed(r) && (ResamplerHandle in Held(o) ==> ResamplerHandle in Freed(r))
    ensures o.state.standby ==> SinkHandle !in Freed(r)
  {
    var active := !o.state.standby;
    Release(active, active && o.state.resampler.Some?, o.resamplerBuffer, false)
  }

  /** Close leaves nothing behind exactly when the stream has no remix
      scratch and, if in standby, holds no sink handle from a failed
      activation. */
  lemma CloseLeaksExactly(o: OutStream)
    requires Consistent(o.config, o.state)
    ensures Held(o) - Freed(CloseOutputStream(o)) ==
              (if o.remixBuffer then {RemixScratch} else {})
              + (if o.state.standby && o.state.pcm != NoPcm then {SinkHandle} else {})
  {
  }
}
