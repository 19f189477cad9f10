/** Waveforms and the audio collaborators of the dataset. Sample values are
    never inspected by the modelled code, so samples and spectrograms are
    opaque; loading, noise injection, pitch shifting, segmentation and the
    mel transform are functions supplied from outside. */
module Audio {
  import opened Python

  /** One audio sample; its value is irrelevant to the control logic. */
  type Sample(==, !new)

  /** The mel spectrogram of one waveform segment. */
  type MelSpec(==)

  type Wave = seq<Sample>

  /** An augmentation: (waveform, strength, deterministic) to waveform. */
  type AugFn = (Wave, real, bool) -> Wave

  /** Canonical sample rate the audio is resampled to. */
  const BASE_SAMPLE_RATE: nat := 16000

  /** Number of leading samples kept before patching or returning raw audio. */
  const PATCH_SOURCE_LEN: nat := 478912

  /** Arguments of the mel-spectrogram transform. */
  datatype MelConfig = MelConfig(sampleRate: nat, nMels: nat, nFft: nat, hopLength: nat)

  /** The `mel_spec_params` dictionary handed to the datasets. */
  datatype MelSpecParams = MelSpecParams(frames: nat, bands: nat, windowSize: nat, hopSize: nat, e0: real)

  /** The external functions: audio loading with resampling to mono,
      gaussian_noise_injection, pitch_shift, splitsongs and the mel transform. */
  datatype Primitives = Primitives(
    load: string -> Wave,
    noise: AugFn,
    pitch: AugFn,
    split: Wave -> seq<Wave>,
    mel: (MelConfig, Wave) -> MelSpec)

  /** `wave[:478912]`. */
  function Truncate(w: Wave): (r: Wave)
    ensures |r| == Min(|w|, PATCH_SOURCE_LEN)
    ensures r == w[..|r|]
  {
    Prefix(w, PATCH_SOURCE_LEN)
  }

  /** Samples after the first 478912 never reach the result. */
  lemma TruncateIgnoresTail(w: Wave, tail: Wave)
    requires |w| >= PATCH_SOURCE_LEN
    ensures Truncate(w + tail) == Truncate(w)
  {
    assert (w + tail)[..PATCH_SOURCE_LEN] == w[..PATCH_SOURCE_LEN];
  }
}
