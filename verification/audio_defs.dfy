/** Fixed hardware capability of the output sink and the platform constants
    the output-stream path of the audio HAL relies on. */
module AudioDefs {

  /** A value that may be absent (a NULL pointer in the HAL). */
  datatype Option<+T> = None | Some(value: T)

  /** The sink's fixed configuration: 48 kHz, stereo, two 1024-frame periods. */
  const OUT_SAMPLE_RATE: nat := 48000
  const OUT_CHANNELS: nat := 2
  const OUT_PERIOD_SIZE: nat := 1024
  const OUT_PERIOD_COUNT: nat := 2

  /** Bytes in one sample of 16-bit linear PCM. */
  const PCM16_SAMPLE_BYTES: nat := 2

  /** Android's audio constants (system/audio.h, not part of this model). */
  const AUDIO_FORMAT_PCM_16_BIT: nat := 0x1
  const AUDIO_CHANNEL_OUT_MONO: nat := 0x1
  const AUDIO_CHANNEL_OUT_STEREO: nat := 0x3
  const AUDIO_DEVICE_OUT_SPEAKER: int := 0x2
  const AUDIO_DEVICE_OUT_WIRED_HEADPHONE: int := 0x8

  /** errno value returned (negated) when an allocation fails. */
  const ENOMEM: int := 12

  /** size_t is 32 bits wide on the ARM target, so size_t products wrap modulo 2^32. */
  const SIZE_T_MODULUS: nat := 0x1_0000_0000

  /** The per-device capability record filled in when the device is opened. */
  datatype Device = Device(outSampleRate: nat, outChannels: nat, outPeriodSize: nat, outPeriodCount: nat)

  /** The one device this HAL ever opens. */
  const Board: Device := Device(OUT_SAMPLE_RATE, OUT_CHANNELS, OUT_PERIOD_SIZE, OUT_PERIOD_COUNT)
}
