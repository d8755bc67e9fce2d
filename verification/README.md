# Output-stream pipeline of the targa uTab 7 audio HAL, in Dafny

This project models the output side of the device's audio hardware
abstraction layer (`audio/audio_hw.c`). The hardware sink is fixed at
48000 Hz, 2 channels, two periods of 1024 frames. On top of it the HAL
adapts a client stream of 16-bit PCM, mono or stereo, at any rate:

- **Open** (`Negotiate`) validates the format and channel mask. It derives
  the channel count, sizes the client buffer and the resampler and remix
  scratch buffers, and starts the stream in standby.
- **Standby machine** (`StandbyMachine`) covers `out_standby`,
  `out_leave_standby` and the close path. A stream's handles are a PCM
  handle and an optional resampler.
- **Write** (`WritePipeline`) covers `out_write`:
  - lazy activation;
  - the pacing fallback;
  - the byte and frame bookkeeping through the optional resample and
    mono/stereo remix stages;
  - the byte count returned to the client.
- **Call sequences** (`StreamLifecycle`) chain standby and write calls on
  one stream.
- **Routing** (`Routing`) is the speaker / wired-headphone table of mixer
  controls in `out_set_parameters`, applied best effort.

Everything is a pure function over immutable records. Some outcomes come
from code outside the model: pcm_open and its readiness, create_resampler,
one run of the resampler, pcm_write, the heap allocations, the mixer, and
rejected control writes. These outcomes are parameters.

The model follows the code as written. Where the code keeps or leaks a
resource, over-reads or over-writes a buffer, or overflows, lemmas state
the code's behaviour:

- A failed activation keeps the PCM handle pcm_open returned
  (`FailedActivationHoldsPcm`). A later `out_standby` does not close it, and
  the next activation overwrites it (`RetryOverwritesHeldPcm`). The
  invariant `Consistent` therefore allows a stream in standby to hold a
  handle.
- Close frees the resampler scratch but never the remix scratch
  (`CloseLeaksExactly`, `OpenThenCloseWithoutWrite`).
- The resampler is created for the sink's two channels. The write path,
  however, offers it input and room counted in client frames. For a mono
  client this lets a resampler that keeps its own contract write twice the
  scratch buffer (`MonoResamplerOverrunsScratch`). On the input side it
  reads two-channel frames from the mono buffer: twice the bytes
  `out_write` reports consumed, and up to twice the client's buffer
  (`MonoResamplerOverreadsInput`). For a stereo client both sides fit
  (`StereoResamplerFitsScratch`).
- The pacing delay `bytes * 1000000 / frame_size / rate` is computed in
  32-bit `size_t`. It wraps exactly for writes above 4294 bytes, and a
  wrapped delay is always shorter than the audio (`PacingWrapsAboveLimit`;
  8192 bytes of stereo at 48000 Hz get 20297 µs, `PacingWrapExample`). A
  zero client rate divides by zero (`Pacing.DivisionByZero`).
- On the board the sink has two channels, so the downmix branch is dead
  (`BoardOpenSizes`).

Android constants come from `system/audio.h` and `errno.h`, which are not
part of this model:

- `AUDIO_FORMAT_PCM_16_BIT` = 0x1;
- mono = 0x1 and stereo = 0x3;
- speaker = 0x2 and wired headphone = 0x8;
- `ENOMEM` = 12.

Every file is given to Dafny together:
`dafny verify *.dfy`.

## Model

| member | source | states |
|---|---|---|
| Negotiate.OpenOutputStream | audio/audio_hw.c:463-594 | Open fails with no stream when the format is not 16-bit PCM or the mask is neither mono nor stereo. The status is -1, or -ENOMEM if the stream allocation failed first. A failed stream allocation always fails the open with -ENOMEM, and so does a failed allocation of a scratch buffer the stream needs. A valid request whose allocations succeed opens. An opened stream has 1 or 2 channels, equal to the bits set in its mask. It starts in standby with no PCM handle and no resampler. Its remix scratch is half the buffer for a downmix, twice it for an upmix, and none otherwise. Its resampler scratch is one buffer exactly when the rates differ. Each scratch buffer is allocated exactly when its size is non-zero. |
| Negotiate.ChannelCount | audio/audio_hw.c:510-524 | The channel count is 0, meaning rejected, exactly for masks other than mono and stereo. Otherwise it is the number of bits set in the mask, which is what the frame-size helper uses. |
| Negotiate.Configure | audio/audio_hw.c:538-562 | The configuration of a validated request is well formed: the client buffer is one sink period of client frames, the remix scratch is none, half or twice that buffer, and the resampler scratch is one buffer exactly when the rates differ. A downmix gets exactly half the buffer. |
| Negotiate.BoardOpenSizes | audio/audio_hw.c:538-562 | On the board the buffer is 2 × channels × 1024 bytes. A mono client gets remix scratch of twice the buffer, one period of stereo sink frames. A stereo client gets none. The resampler scratch is non-zero exactly when the rate is not 48000, and then equals the buffer. |
| Negotiate.OpenFailureReasons | audio/audio_hw.c:474-581 | Every failed open is one of five: the stream allocation failed, the format was wrong, the mask was wrong, the remix allocation failed for a channel conversion, or the resampler allocation failed for a rate conversion. |
| Negotiate.ScratchHoldsOnePeriod | audio/audio_hw.c:538-562 | For a sink of one or two channels, the remix scratch of an opened stream that converts channels holds exactly one sink period of sink frames, and the resampler scratch of one that converts rates holds one sink period of client frames. |
| StandbyMachine.Standby | audio/audio_hw.c:121-136 | Standby always returns 0 and always leaves the stream in standby. On an active stream it drops the PCM handle and the resampler. On a stream already in standby it changes nothing. |
| StandbyMachine.StandbyIdempotent | audio/audio_hw.c:121-136 | A second standby call changes nothing and returns the same status. |
| StandbyMachine.StandbyKeepsConsistent | audio/audio_hw.c:121-136 | Standby preserves the handle/standby invariant. |
| StandbyMachine.LeaveStandby | audio/audio_hw.c:138-161 | On an active stream leaving standby is a no-op returning 0. From standby it returns 0, and the stream becomes active, exactly when the PCM opened ready and, if the rates differ, the resampler was created. Otherwise it returns -1 and stays in standby. In both cases the stream keeps the handle pcm_open returned. The resampler is created from the client rate to the sink rate with the sink's channel count. The invariant is preserved. |
| StandbyMachine.FailedActivationHoldsPcm | audio/audio_hw.c:143-156 | When resampler creation fails, leaving standby returns -1 in standby while holding a ready PCM handle, and a following standby does not release it. |
| StandbyMachine.RetryOverwritesHeldPcm | audio/audio_hw.c:141-156 | Retrying activation after that failure overwrites the held handle without closing it. |
| StandbyMachine.CloseOutputStream | audio/audio_hw.c:596-607 | Close frees only what the stream holds. It never frees the remix scratch, and frees the resampler scratch exactly when it was allocated. It closes the PCM handle and the resampler of an active stream, and does not close the PCM handle of a stream in standby. |
| StandbyMachine.CloseLeaksExactly | audio/audio_hw.c:596-607 | After close, the resources left behind are exactly the remix scratch, if allocated, plus any PCM handle a standby stream held from a failed activation. |
| WritePipeline.PacingDelay | audio/audio_hw.c:308-309 | The pacing delay divides by zero exactly when the client rate is 0, and is a delay for every other rate. When the 32-bit product does not wrap, that delay is the audio's duration at the client rate and frame size, rounded down to whole microseconds. |
| WritePipeline.PacingWrapsAboveLimit | audio/audio_hw.c:308-309 | For any non-zero frame size and rate, the size_t product wraps exactly when the write is above 4294 bytes, and a wrapped delay is then strictly shorter than the audio's duration. |
| WritePipeline.PacingWrapExample | audio/audio_hw.c:308-309 | An 8192-byte stereo write at 48000 Hz wraps the size_t product and is paced for 20297 µs, not about 42667 µs. |
| WritePipeline.ProcessedBytes | audio/audio_hw.c:319-331 | The count out_write reports is `bytes` without rate conversion and the consumed frames at the client frame size with it. It is therefore `bytes` or a whole number of client frames, and never exceeds `bytes` when the resampler consumes no more than it was offered. |
| WritePipeline.StageBytes | audio/audio_hw.c:317-331 | Without rate conversion the resample stage passes the input bytes on. With it, the stage yields the produced frames at the client frame size, which fit the resampler scratch whenever the resampler produces no more than the room it was offered. |
| WritePipeline.RemixBytes | audio/audio_hw.c:333-347 | The remix stage halves the bytes for a downmix, doubles them for an upmix, and passes them on unchanged when the channel counts agree. |
| WritePipeline.Write | audio/audio_hw.c:298-356 | The write keeps the handle/standby invariant, and the sink is written exactly when the stream ends up active. The sink is skipped exactly when the stream was in standby and activation failed; the write then returns exactly `bytes` with the pacing delay. Any handle activation overwrites is reported. Without rate conversion it returns `bytes`. With rate conversion it returns consumed frames × client frame size, and this is at most `bytes` when the resampler keeps to what it was offered. For a mono client that count is half of what the resampler actually read (see `MonoResamplerOverreadsInput`). A failed sink write only adds the pacing delay. The remix stage halves, doubles or keeps the bytes sent to the sink. |
| WritePipeline.SinkFailureInvisible | audio/audio_hw.c:349-355 | A failed pcm_write changes neither the returned count, nor the state, nor what was submitted. |
| WritePipeline.PassThroughWrite | audio/audio_hw.c:313-320 | On a stream matching the sink's rate and channels, a write returns `bytes` and submits exactly `bytes`. |
| WritePipeline.ZeroLengthWrite | audio/audio_hw.c:313-331 | A zero-length write returns 0 when the resampler keeps its contract. |
| WritePipeline.RemixKeepsFrames | audio/audio_hw.c:333-347 | For a mono or stereo sink, the frames submitted, counted at the sink frame size, equal the frames leaving the resample stage, counted at the client frame size. |
| WritePipeline.SinkGetsProducedFrames | audio/audio_hw.c:321-349 | With rate conversion and a mono or stereo sink, the bytes handed to pcm_write are exactly the frames the resampler produced at the sink's frame size, after any remix. |
| WritePipeline.BoardUpmixFitsScratch | audio/audio_hw.c:333-347 | On the board, take a mono client without resampling. The upmixed bytes fit the remix scratch exactly when the write is at most one client buffer. With resampling they always fit, provided the resampler keeps its contract. |
| WritePipeline.StereoResamplerFitsScratch | audio/audio_hw.c:315-329 | For a stereo client the resampler's output, counted in its own two-channel frames, fits the resampler scratch, and the input it reads lies within the client's `bytes`. |
| WritePipeline.MonoResamplerOverrunsScratch | audio/audio_hw.c:315-329 | For a mono client the resampler was created for 2 channels (line 152) but is offered room in mono frames. Producing every offered frame is within its contract and writes twice the scratch size. |
| WritePipeline.MonoResamplerOverreadsInput | audio/audio_hw.c:315-330 | For a mono client the resampler, created for 2 channels (line 152), reads twice the bytes out_write reports consumed. Consuming every offered frame is within its contract; for an even `bytes` it then reads 2 × `bytes` from the client's buffer while out_write returns `bytes`. |
| StreamLifecycle.Step | audio/audio_hw.c:121-356 | One standby or write call keeps the handle/standby invariant, and a standby call ends in standby. |
| StreamLifecycle.Run | audio/audio_hw.c:121-356 | Every state reachable by standby and write calls keeps the handle/standby invariant. A sequence ending in standby leaves no resampler. |
| StreamLifecycle.NoWriteNoSink | audio/audio_hw.c:305-311 | Without a write the sink is never opened, whatever standby calls come in between. |
| StreamLifecycle.OpenThenCloseWithoutWrite | audio/audio_hw.c:596-607 | A stream opened and closed with only standby calls never touches the sink. Close then leaves behind only the remix scratch. |
| Routing.RouteTable | audio/audio_hw.c:179-272 | Speaker selects "Jack Function"=Speaker and "Speaker Function"=On, every speaker-path control at its on level (switch 1, volume 31), and every headphone-path control at 0. Wired headphone is the mirror image. Any other route selects nothing. |
| Routing.RouteCoversControls | audio/audio_hw.c:179-268 | Either route sets every routing control — both enumerated functions and every control of both paths — and each exactly once. |
| Routing.RoutesAreComplementary | audio/audio_hw.c:180-268 | Each route table is the other mirrored row by row: the other jack function, the other speaker function, and the other end of each control's range. |
| Routing.TableNames | audio/audio_hw.c:183-266 | Both tables name the same eleven controls, once each, in the same order and with rows of the same kind. |
| Routing.Overwrite | audio/audio_hw.c:183-190 | Applying a row never changes a control's kind or number of values. An enumerated row selects its choice unless the set is rejected, when the old selection stays. A numeric row gives every value whose set is accepted the row's value; a rejected value keeps its old value and the other values are still set. A row of the other kind leaves the control alone. |
| Routing.SetValues | audio/audio_hw.c:188-190 | The per-value loop keeps the number of values; each accepted index takes the row's value and each rejected index keeps its old value. |
| Routing.ApplySetting | audio/audio_hw.c:187-190 | A row changes only the control it names, keeps that control's shape, and changes nothing when the mixer has no control of that name. |
| Routing.ApplyTable | audio/audio_hw.c:182-222 | Applying a table keeps the mixer's controls. It leaves controls the table does not name untouched, and never changes a control's shape. |
| Routing.ApplyTableSetsRow | audio/audio_hw.c:182-222 | Application is best effort: each named control ends as its own row sets it, whatever faults the other rows hit. |
| Routing.ApplyTableValueRow | audio/audio_hw.c:187-222 | Every value of a numeric control a table names ends at that row's value, except the values whose set was rejected, which keep their old value; the control keeps its number of values. |
| Routing.RejectedValueIsLocal | audio/audio_hw.c:187-222 | In a table application, a rejected set on value j of a numeric control leaves value j at its old value, and every other value of that control ends as it would without the rejection, at the row's value if accepted. |
| Routing.ApplyTableEnumRow | audio/audio_hw.c:183-186 | In a table application, an enumerated control ends at its row's choice unless that set is rejected, when its old selection stays, whatever faults other rows hit. |
| Routing.SetParameters | audio/audio_hw.c:168-280 | Without a mixer it returns 0 and changes nothing. With a mixer it returns the routing-key lookup's result. A present key applies the route's table to the mixer, whatever the faults; an absent key or an unrecognised route leaves the mixer unchanged. Controls outside the route tables are never touched. |
| Routing.RouteDrivesPaths | audio/audio_hw.c:187-267 | Every value of each numeric control in the chosen route ends at the level its path calls for — on for the selected output's path and 0 for the other — except the values whose set was rejected, which keep their old value. |
| Routing.RouteSelectsFunctions | audio/audio_hw.c:179-231 | "Jack Function" and "Speaker Function" end at the chosen route's choice unless that set was rejected, when they keep their old selection, whatever faults the other rows hit. |
| Routing.LastRouteWins | audio/audio_hw.c:180-268 | With no rejected write, applying one route and then another leaves the mixer as the second route alone would. |
| Routing.ApplyTableOverrides | audio/audio_hw.c:182-267 | With no faults, a table applied after a parallel table, same controls in the same order and kind, gives what it gives alone. |

## Left out

- tinyalsa's pcm_open, pcm_is_ready, pcm_write and pcm_close are foreign I/O. Their success or failure is an input.
- The resampler from audio_utils is not part of this model. One run is an input pair of consumed and produced frame counts, and `Honours` states the bound on them. A failed create_resampler is assumed to leave the handle NULL.
- The sample-level rule of the downmix/upmix primitives is not part of this model. Only their byte and frame effect is modelled, so nothing is claimed about averaging or round trips of samples.
- str_parms parsing, atoi, mixer_open and control lookup by name are not modelled. The route arrives as a parsed integer, the lookup result as an integer, and the mixer as a map from control names to controls.
- Routing.Overwrite: a row only takes on a control of its own kind (an enumerated row on an enumerated control, a numeric row on a numeric control), and a rejected enumerated choice is a fault in the input. tinyalsa's own type checks are not modelled.
- usleep is not modelled; only its argument is computed. Logging is left out throughout.
- The input-stream stubs, the getters and setters that return constants, and the function-pointer and module registration code are not modelled. They hold no logic of the pipeline.
- Open's failure paths are not tracked in detail: the frees of the stream struct, and of the remix buffer when the resampler buffer allocation fails. Open only reports the status.
- `size_t` is taken as 32 bits, as on the ARM target. Only the pacing product is reduced modulo 2^32. `bytes` itself is unbounded, and the cast of the returned count to `ssize_t` is not modelled.
- Concurrency is not modelled. The framework serialises calls on a stream, and routing touches no stream state.
