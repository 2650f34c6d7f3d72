/** The audio-features record every component consumes (src/types/audio.ts),
    and the value the app starts with (src/App.tsx). */
module AudioTypes {

  datatype Option<T> = None | Some(value: T)

  /** One frame's worth of audio analysis. Continuous quantities are `real`. */
  datatype AudioFeatures = AudioFeatures(
    rms: real,
    spectralCentroid: real,
    spectralRolloff: real,
    spectralFlatness: real,
    zcr: real,
    mfcc: seq<real>,
    beat: bool,
    bpm: real,
    energy: real,
    valence: real,
    arousal: real)

  /** Number of mel-frequency cepstral coefficients every producer emits. */
  const MfccCount: nat := 13

  /** `bpm || 120`, as the app and the code editor read the tempo: a
      missing (zero) tempo counts as 120, and any other is kept. */
  function EffectiveBpm(bpm: real): (r: real)
    ensures r != 0.0
    ensures bpm == 0.0 ==> r == 120.0
    ensures bpm != 0.0 ==> r == bpm
  {
    if bpm == 0.0 then 120.0 else bpm
  }

  /** `new Array(n).fill(v)`. */
  function Filled(n: nat, v: real): (r: seq<real>)
    ensures |r| == n
    ensures forall k :: 0 <= k < n ==> r[k] == v
  {
    seq(n, _ => v)
  }
}
