/** The top-level app state (src/App.tsx): the current feature record, the
    playback clock and its 100 ms ticker, and the scene chosen from the
    tempo. */
module App {
  import opened AudioTypes

  /** The record the app starts with: silence at 120 bpm. */
  function InitialFeatures(): (r: AudioFeatures)
    ensures r.bpm == 120.0 && r.energy == 0.0 && !r.beat && r.rms == 0.0
    ensures |r.mfcc| == MfccCount && forall k :: 0 <= k < MfccCount ==> r.mfcc[k] == 0.0
    ensures r.valence == 0.5 && r.arousal == 0.5
  {
    AudioFeatures(0.0, 0.0, 0.0, 0.0, 0.0, Filled(MfccCount, 0.0), false, 120.0, 0.0, 0.5, 0.5)
  }

  /** The tempo at which scene 0 ends. */
  const MinBpm: real := 125.0

  /** The seconds one ticker step adds. */
  const TickSeconds: real := 0.1

  /** `max(0, floor(bpm - 125))` of the effective tempo: the whole beats per
      minute above 125, and 0 at or below it. */
  function SceneForBpm(bpm: real): (r: nat)
    ensures var d := EffectiveBpm(bpm) - MinBpm;
      && (d < 0.0 ==> r == 0)
      && (d >= 0.0 ==> r as real <= d < r as real + 1.0)
  {
    var scene := (EffectiveBpm(bpm) - MinBpm).Floor;
    if scene < 0 then 0 else scene
  }

  /** Below 126 bpm the app stays in scene 0. */
  lemma SlowTempoIsSceneZero(bpm: real)
    requires EffectiveBpm(bpm) < MinBpm + 1.0
    ensures SceneForBpm(bpm) == 0
  {
  }

  /** A faster (present) tempo never selects an earlier scene. */
  lemma SceneMonotone(bpm1: real, bpm2: real)
    requires 0.0 < bpm1 <= bpm2
    ensures SceneForBpm(bpm1) <= SceneForBpm(bpm2)
  {
  }

  /** The app starts in scene 0. */
  lemma InitialSceneIsZero()
    ensures SceneForBpm(InitialFeatures().bpm) == 0
  {
    SlowTempoIsSceneZero(InitialFeatures().bpm);
  }

  /** `Math.max(0, x)`. */
  function NonNegative(x: real): (r: real)
    ensures r >= 0.0
    ensures x >= 0.0 ==> r == x
    ensures x < 0.0 ==> r == 0.0
  {
    if x < 0.0 then 0.0 else x
  }

  /** The app's React state. `ticking` says whether the 100 ms interval
      exists. */
  class AppState {
    var audioFeatures: AudioFeatures
    var isPlaying: bool
    var currentTime: real
    var duration: real
    var currentScene: nat
    var currentBpm: real
    var isAudioReady: bool
    var isAudioContextReady: bool
    var ticking: bool

    /** The clock and duration are never negative, and the ticker runs
        exactly while playing. */
    predicate Valid()
      reads this
    {
      currentTime >= 0.0 && duration >= 0.0 && ticking == isPlaying
    }

    constructor ()
      ensures Valid()
      ensures audioFeatures == InitialFeatures() && !isPlaying && currentTime == 0.0 && duration == 0.0
      ensures currentScene == 0 && currentBpm == 120.0 && !isAudioReady && !isAudioContextReady
    {
      audioFeatures, isPlaying, currentTime, duration := InitialFeatures(), false, 0.0, 0.0;
      currentScene, currentBpm, isAudioReady, isAudioContextReady := 0, 120.0, false, false;
      ticking := false;
    }

    /** One step of the ticker: while it runs the clock advances 0.1 s. */
    method Tick()
      requires Valid()
      modifies this
      ensures Valid()
      ensures ticking ==> currentTime == old(currentTime) + TickSeconds
      ensures !ticking ==> currentTime == old(currentTime)
      ensures isPlaying == old(isPlaying) && ticking == old(ticking) && duration == old(duration)
      ensures currentScene == old(currentScene) && audioFeatures == old(audioFeatures)
    {
      if ticking {
        currentTime := currentTime + TickSeconds;
      }
    }

    /** The effect on `audioFeatures.bpm`: the tempo is recorded and the
        scene chosen from it. */
    method OnBpm()
      requires Valid()
      modifies this
      ensures Valid()
      ensures currentBpm == EffectiveBpm(audioFeatures.bpm) && currentScene == SceneForBpm(audioFeatures.bpm)
      ensures audioFeatures == old(audioFeatures) && isPlaying == old(isPlaying) && ticking == old(ticking)
      ensures currentTime == old(currentTime) && duration == old(duration)
    {
      currentBpm := EffectiveBpm(audioFeatures.bpm);
      currentScene := SceneForBpm(audioFeatures.bpm);
    }

    /** `handleFeaturesUpdate`: the record is replaced; a changed tempo
        re-runs the scene effect. */
    method HandleFeaturesUpdate(features: AudioFeatures)
      requires Valid()
      modifies this
      ensures Valid()
      ensures audioFeatures == features
      ensures features.bpm != old(audioFeatures).bpm ==>
        currentBpm == EffectiveBpm(features.bpm) && currentScene == SceneForBpm(features.bpm)
      ensures features.bpm == old(audioFeatures).bpm ==>
        currentBpm == old(currentBpm) && currentScene == old(currentScene)
      ensures isPlaying == old(isPlaying) && ticking == old(ticking)
      ensures currentTime == old(currentTime) && duration == old(duration)
    {
      var bpmChanged := features.bpm != audioFeatures.bpm;
      audioFeatures := features;
      if bpmChanged {
        OnBpm();
      }
    }

    /** `handlePlayStateChange`, followed by the effect on `isPlaying`:
        stopping resets the clock and the scene and clears the ticker;
        starting leaves them and runs the ticker. */
    method HandlePlayStateChange(playing: bool)
      requires Valid()
      modifies this
      ensures Valid()
      ensures isPlaying == playing && ticking == playing
      ensures !playing ==> currentTime == 0.0 && currentScene == 0
      ensures playing ==> currentTime == old(currentTime) && currentScene == old(currentScene)
      ensures audioFeatures == old(audioFeatures) && duration == old(duration) && currentBpm == old(currentBpm)
    {
      isPlaying := playing;
      if !playing {
        currentTime := 0.0;
        currentScene := 0;
      }
      ticking := isPlaying;
    }

    /** `handleTimeUpdate`: a reported time is clamped at 0. */
    method HandleTimeUpdate(time: real)
      requires Valid()
      modifies this
      ensures Valid()
      ensures currentTime == NonNegative(time)
      ensures isPlaying == old(isPlaying) && ticking == old(ticking) && duration == old(duration)
      ensures currentScene == old(currentScene) && audioFeatures == old(audioFeatures)
    {
      currentTime := NonNegative(time);
    }

    /** `handleDurationChange`: a reported duration is clamped at 0. */
    method HandleDurationChange(dur: real)
      requires Valid()
      modifies this
      ensures Valid()
      ensures duration == NonNegative(dur)
      ensures isPlaying == old(isPlaying) && ticking == old(ticking) && currentTime == old(currentTime)
      ensures currentScene == old(currentScene) && audioFeatures == old(audioFeatures)
    {
      duration := NonNegative(dur);
    }

    /** `handleAudioReady` and `handleAudioContextReady`. */
    method HandleAudioReady(ready: bool)
      modifies this
      ensures isAudioReady == ready
      ensures isAudioContextReady == old(isAudioContextReady) && isPlaying == old(isPlaying) && ticking == old(ticking)
      ensures currentTime == old(currentTime) && duration == old(duration) && currentScene == old(currentScene)
      ensures audioFeatures == old(audioFeatures) && currentBpm == old(currentBpm)
    {
      isAudioReady := ready;
    }

    method HandleAudioContextReady(ready: bool)
      modifies this
      ensures isAudioContextReady == ready
      ensures isAudioReady == old(isAudioReady) && isPlaying == old(isPlaying) && ticking == old(ticking)
      ensures currentTime == old(currentTime) && duration == old(duration) && currentScene == old(currentScene)
      ensures audioFeatures == old(audioFeatures) && currentBpm == old(currentBpm)
    {
      isAudioContextReady := ready;
    }
  }

  /** The clock after `n` ticker steps from `t`. */
  function ClockAfter(t: real, n: nat): real
  {
    if n == 0 then t else ClockAfter(t, n - 1) + TickSeconds
  }

  /** `n` steps of the running ticker add `n` tenths of a second. */
  lemma {:induction false} ClockAfterTicks(t: real, n: nat)
    ensures ClockAfter(t, n) == t + (n as real) * TickSeconds
  {
    if n > 0 {
      ClockAfterTicks(t, n - 1);
    }
  }

  /** Running the ticker `n` times while playing. */
  method RunTicker(app: AppState, n: nat)
    requires app.Valid() && app.isPlaying
    modifies app
    ensures app.Valid()
    ensures app.currentTime == old(app.currentTime) + (n as real) * TickSeconds
    ensures app.isPlaying && app.currentScene == old(app.currentScene)
  {
    var i := 0;
    while i < n
      invariant 0 <= i <= n
      invariant app.Valid() && app.isPlaying
      invariant app.currentTime == ClockAfter(old(app.currentTime), i)
      invariant app.currentScene == old(app.currentScene)
    {
      app.Tick();
      i := i + 1;
    }
    ClockAfterTicks(old(app.currentTime), n);
  }
}
