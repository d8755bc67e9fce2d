/** Sequences of client calls on one open stream: the standby/write calls the
    framework makes between open and close. */
module StreamLifecycle {
  import opened AudioDefs
  import opened StreamTypes
  import opened Negotiate
  import opened StandbyMachine
  import opened WritePipeline

  /** A client call that changes stream state. */
  datatype Call = StandbyCall | WriteCall(bytes: nat, env: WriteEnv)

  /** The state after one call. */
  function Step(c: StreamConfig, s: StreamState, call: Call): (r: StreamState)
    requires WellFormed(c) && Consistent(c, s)
    ensures Consistent(c, r)
    ensures call.StandbyCall? ==> r.standby
  {
    match call
    case StandbyCall =>
      StandbyKeepsConsistent(c, s);
      Standby(s).state
    case WriteCall(bytes, env) => Write(c, s, bytes, env).state
  }

  /** The state after a sequence of calls; every reachable state keeps the
      handle/standby invariant. */
  function Run(c: StreamConfig, s: StreamState, calls: seq<Call>): (r: StreamState)
    requires WellFormed(c) && Consistent(c, s)
    ensures Consistent(c, r)
    ensures calls != [] && calls[|calls| - 1].StandbyCall? ==> r.standby && r.resampler.None?
    decreases |calls|
  {
    if calls == [] then s
    else
      var r := Run(c, Step(c, s, calls[0]), calls[1..]);
      assert calls[1..] != [] ==> calls[1..][|calls[1..]| - 1] == calls[|calls| - 1];
      r
  }

  /** Lazy activation: without a write the sink is never opened, whatever
      standby calls come in between. */
  lemma {:induction false} NoWriteNoSink(c: StreamConfig, s: StreamState, calls: seq<Call>)
    requires WellFormed(c) && Consistent(c, s)
    requires s.standby && s.pcm == NoPcm
    requires forall i :: 0 <= i < |calls| ==> calls[i].StandbyCall?
    ensures Run(c, s, calls) == s
    decreases |calls|
  {
    if calls != [] {
      assert Step(c, s, calls[0]) == s;
      NoWriteNoSink(c, s, calls[1..]);
    }
  }

  /** A stream that is opened and closed without a write never touches the
      sink, and close leaves behind only the remix scratch it never frees. */
  lemma {:induction false} OpenThenCloseWithoutWrite(dev: Device, req: Request, alloc: Allocation, calls: seq<Call>)
    requires OpenOutputStream(dev, req, alloc).Opened?
    requires forall i :: 0 <= i < |calls| ==> calls[i].StandbyCall?
    ensures var o := OpenOutputStream(dev, req, alloc).stream;
            var last := o.(state := Run(o.config, o.state, calls));
            && last.state == InitialState
            && !CloseOutputStream(last).pcmClosed
            && Held(last) - Freed(CloseOutputStream(last)) == (if o.remixBuffer then {RemixScratch} else {})
  {
    var o := OpenOutputStream(dev, req, alloc).stream;
    NoWriteNoSink(o.config, o.state, calls);
    CloseLeaksExactly(o.(state := Run(o.config, o.state, calls)));
  }
}
