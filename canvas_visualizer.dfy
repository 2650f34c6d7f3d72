/** The per-frame state of the p5 visualiser (src/components/CanvasVisualizer.tsx):
    exponential smoothing of the audio features, a beat flash with a
    cooldown, the rotation through four scenes and the cross-fade ramp.
    The drawing itself is not modelled; a frame is what `draw` hands to the
    scene renderer. */
module CanvasVisualizer {
  import opened AudioTypes

  /** Weight of the new input in each smoothing step. */
  const SmoothingFactor: real := 0.1

  /** Minimum time between two flashes, in seconds. */
  const BeatCooldown: real := 0.1

  /** A scene is shown at least this long without a loud bass ... */
  const SceneDuration: real := 90.0

  /** ... and at least this long with one. */
  const EarlySceneChange: real := 45.0

  /** Smoothed bass above this allows the early scene change. */
  const EnergyThreshold: real := 0.5

  const SceneCount: int := 4

  /** Growth of the cross-fade value per frame. */
  const TransitionStep: real := 0.008

  /** Cross-fade value where fading out turns into fading in. */
  const FadeSwitch: real := 0.95

  // ---------------------------------------------------------------------
  // Formulas
  // ---------------------------------------------------------------------

  /** One smoothing step: `prev * (1 - 0.1) + input * 0.1`. The value moves a
      tenth of the way towards the input and so stays between the two. */
  function Smooth(prev: real, input: real): (r: real)
    ensures r - prev == SmoothingFactor * (input - prev)
    ensures prev <= input ==> prev <= r <= input
    ensures input <= prev ==> input <= r <= prev
  {
    prev * (1.0 - SmoothingFactor) + input * SmoothingFactor
  }

  /** The smoothed value after a run of frames with the given inputs. */
  function SmoothAll(start: real, inputs: seq<real>): real
    decreases |inputs|
  {
    if inputs == [] then start else SmoothAll(Smooth(start, inputs[0]), inputs[1..])
  }

  /** Inputs in [lo, hi] keep a smoothed value that starts in [lo, hi] there,
      however many frames pass; in particular features in [0, 1] give
      smoothed values in [0, 1]. */
  lemma {:induction false} SmoothAllBounded(start: real, inputs: seq<real>, lo: real, hi: real)
    requires lo <= start <= hi
    requires forall k :: 0 <= k < |inputs| ==> lo <= inputs[k] <= hi
    ensures lo <= SmoothAll(start, inputs) <= hi
    decreases |inputs|
  {
    if inputs != [] {
      SmoothAllBounded(Smooth(start, inputs[0]), inputs[1..], lo, hi);
    }
  }

  /** A flash needs a beat and more than the cooldown since the last flash. */
  predicate ShouldFlash(beat: bool, currentTime: real, lastBeatTime: real)
  {
    beat && currentTime - lastBeatTime > BeatCooldown
  }

  /** Scene change: after 90 s, or after 45 s when the smoothed bass is loud. */
  predicate ShouldChangeScene(currentTime: real, lastSceneChange: real, smoothedBass: real)
  {
    || currentTime - lastSceneChange > SceneDuration
    || (smoothedBass > EnergyThreshold && currentTime - lastSceneChange > EarlySceneChange)
  }

  /** The cross-fade ramp of one frame: it grows only while below 1. */
  function Ramp(t: real): (r: real)
    ensures t < 1.0 ==> r == t + TransitionStep
    ensures t >= 1.0 ==> r == t
  {
    if t < 1.0 then t + TransitionStep else t
  }

  /** Started anywhere in [0, 1 + step), the ramp stays there. */
  lemma RampBounded(t: real)
    requires 0.0 <= t < 1.0 + TransitionStep
    ensures 0.0 <= Ramp(t) < 1.0 + TransitionStep
    ensures t <= Ramp(t)
  {
  }

  /** The tint alpha of the scene: fading out (`1 - t`) up to 0.95, then
      fading in (`(t - 0.95) * 20`), reaching full strength at `t = 1`. */
  function Alpha(t: real): (r: real)
    ensures 0.0 <= t < FadeSwitch ==> 1.0 - FadeSwitch < r <= 1.0
    ensures FadeSwitch <= t <= 1.0 ==> 0.0 <= r <= 1.0
    ensures t == 1.0 ==> r == 1.0
  {
    if t < FadeSwitch then 1.0 - t else (t - FadeSwitch) * 20.0
  }

  /** The fade-out half darkens and the fade-in half brightens as the ramp
      grows. */
  lemma AlphaShape(t: real, u: real)
    requires t < u
    ensures u < FadeSwitch ==> Alpha(u) < Alpha(t)
    ensures FadeSwitch <= t ==> Alpha(t) < Alpha(u)
  {
  }

  /** The features handed to the renderer: the smoothed energy, centroid and
      loudness and the cooldown-filtered beat replace the raw ones; every
      other field is passed through. */
  function SmoothedFeatures(f: AudioFeatures, bass: real, treble: real, volume: real, flash: bool): (r: AudioFeatures)
    ensures r.energy == bass && r.spectralCentroid == treble && r.rms == volume && r.beat == flash
    ensures r.spectralRolloff == f.spectralRolloff && r.spectralFlatness == f.spectralFlatness
    ensures r.zcr == f.zcr && r.mfcc == f.mfcc && r.bpm == f.bpm
    ensures r.valence == f.valence && r.arousal == f.arousal
  {
    f.(energy := bass, spectralCentroid := treble, rms := volume, beat := flash)
  }

  /** Orbs drawn by the vaporwave scene: `3 + floor(5 * bass)`. */
  function OrbCount(bass: real): (r: int)
    ensures 0.0 <= bass <= 1.0 ==> 3 <= r <= 8
    ensures 0.0 <= bass < 0.2 ==> r == 3
  {
    3 + (bass * 5.0).Floor
  }

  /** More bass never means fewer orbs. */
  lemma OrbCountMonotone(a: real, b: real)
    requires a <= b
    ensures OrbCount(a) <= OrbCount(b)
  {
    assert a * 5.0 <= b * 5.0;
  }

  // ---------------------------------------------------------------------
  // The draw step
  // ---------------------------------------------------------------------

  /** The closure variables of the sketch. */
  datatype VisState = VisState(
    ready: bool,
    sceneTransition: real,
    currentSceneIndex: int,
    lastSceneChange: real,
    smoothedBass: real,
    smoothedTreble: real,
    smoothedVolume: real,
    lastBeatTime: real)

  /** What one frame renders: the scene, its features and its tint alpha. */
  datatype Frame = Frame(scene: int, features: AudioFeatures, alpha: real)

  /** The closure's starting values. */
  const Initial: VisState := VisState(false, 0.0, 0, 0.0, 0.0, 0.0, 0.0, 0.0)

  /** The state after one `draw` call, and the frame it renders (none before
      the sketch is ready). */
  function Step(s: VisState, f: AudioFeatures, isPlaying: bool, currentTime: real): (VisState, Option<Frame>)
  {
    if !s.ready then (s, None)
    else
      var bass := Smooth(s.smoothedBass, f.energy);
      var treble := Smooth(s.smoothedTreble, f.spectralCentroid);
      var volume := Smooth(s.smoothedVolume, f.rms);
      var flash := ShouldFlash(f.beat, currentTime, s.lastBeatTime);
      var lastBeat := if flash then currentTime else s.lastBeatTime;
      var change := ShouldChangeScene(currentTime, s.lastSceneChange, bass) && isPlaying;
      var scene := if change then (s.currentSceneIndex + 1) % SceneCount else s.currentSceneIndex;
      var lastChange := if change then currentTime else s.lastSceneChange;
      var transition := Ramp(if change then 0.0 else s.sceneTransition);
      var next := VisState(true, transition, scene, lastChange, bass, treble, volume, lastBeat);
      (next, Some(Frame(scene, SmoothedFeatures(f, bass, treble, volume, flash), Alpha(transition))))
  }

  /** What every reachable state satisfies: a scene in 0..3 and a cross-fade
      value in [0, 1.008). */
  predicate Inv(s: VisState)
  {
    0 <= s.currentSceneIndex < SceneCount && 0.0 <= s.sceneTransition < 1.0 + TransitionStep
  }

  /** Each frame keeps the invariant, and the frame's alpha is then never
      negative. */
  lemma StepKeepsInv(s: VisState, f: AudioFeatures, isPlaying: bool, currentTime: real)
    requires Inv(s)
    ensures Inv(Step(s, f, isPlaying, currentTime).0)
    ensures Step(s, f, isPlaying, currentTime).1.Some? ==> Step(s, f, isPlaying, currentTime).1.value.alpha >= 0.0
  {
    var s' := Step(s, f, isPlaying, currentTime).0;
    if s.ready {
      RampBounded(if ShouldChangeScene(currentTime, s.lastSceneChange, s'.smoothedBass) && isPlaying then 0.0 else s.sceneTransition);
    }
  }

  /** Scenes rotate one step at a time, only while playing, and only when
      the time rule allows it; a change restarts the cross-fade and the
      scene clock. */
  lemma SceneRotation(s: VisState, f: AudioFeatures, isPlaying: bool, currentTime: real)
    requires s.ready
    ensures var s' := Step(s, f, isPlaying, currentTime).0;
      && (s'.currentSceneIndex != s.currentSceneIndex ==>
            isPlaying && ShouldChangeScene(currentTime, s.lastSceneChange, s'.smoothedBass))
      && (!isPlaying ==>
            s'.currentSceneIndex == s.currentSceneIndex && s'.lastSceneChange == s.lastSceneChange)
      && (isPlaying && ShouldChangeScene(currentTime, s.lastSceneChange, s'.smoothedBass) ==>
            && s'.currentSceneIndex == (s.currentSceneIndex + 1) % SceneCount
            && s'.lastSceneChange == currentTime
            && s'.sceneTransition == TransitionStep)
  {
  }

  /** Two flashes in consecutive frames are more than the cooldown apart:
      a flash records its time, and only a flash does. */
  lemma FlashSpacing(s: VisState, f1: AudioFeatures, p1: bool, t1: real, f2: AudioFeatures, p2: bool, t2: real)
    requires s.ready
    requires Step(s, f1, p1, t1).1.value.features.beat
    ensures var s1 := Step(s, f1, p1, t1).0;
      && s1.lastBeatTime == t1
      && (Step(s1, f2, p2, t2).1.value.features.beat ==> t2 - t1 > BeatCooldown)
      && (!Step(s1, f2, p2, t2).1.value.features.beat ==> Step(s1, f2, p2, t2).0.lastBeatTime == t1)
  {
  }

  /** Before the sketch is ready, a draw call changes nothing and renders
      nothing. */
  lemma NotReadyIdle(s: VisState, f: AudioFeatures, isPlaying: bool, currentTime: real)
    requires !s.ready
    ensures Step(s, f, isPlaying, currentTime) == (s, None)
  {
  }

  /** The p5 sketch, its closure variables as fields. */
  class Sketch {
    var ready: bool
    var sceneTransition: real
    var currentSceneIndex: int
    var lastSceneChange: real
    var smoothedBass: real
    var smoothedTreble: real
    var smoothedVolume: real
    var lastBeatTime: real

    function State(): VisState
      reads this
    {
      VisState(ready, sceneTransition, currentSceneIndex, lastSceneChange,
        smoothedBass, smoothedTreble, smoothedVolume, lastBeatTime)
    }

    constructor ()
      ensures State() == Initial && Inv(State())
    {
      ready, sceneTransition, currentSceneIndex, lastSceneChange := false, 0.0, 0, 0.0;
      smoothedBass, smoothedTreble, smoothedVolume, lastBeatTime := 0.0, 0.0, 0.0, 0.0;
    }

    /** The watermark-load callbacks (loaded or failed alike) mark the sketch
        ready. */
    method MarkReady()
      modifies this
      ensures State() == old(State()).(ready := true)
    {
      ready := true;
    }

    /** `sketch.draw`. */
    method Draw(f: AudioFeatures, isPlaying: bool, currentTime: real) returns (frame: Option<Frame>)
      modifies this
      ensures (State(), frame) == Step(old(State()), f, isPlaying, currentTime)
      ensures old(Inv(State())) ==> Inv(State())
    {
      if Inv(State()) {
        StepKeepsInv(State(), f, isPlaying, currentTime);
      }
      if !ready {
        return None;
      }
      smoothedBass := smoothedBass * (1.0 - SmoothingFactor) + f.energy * SmoothingFactor;
      smoothedTreble := smoothedTreble * (1.0 - SmoothingFactor) + f.spectralCentroid * SmoothingFactor;
      smoothedVolume := smoothedVolume * (1.0 - SmoothingFactor) + f.rms * SmoothingFactor;
      var shouldFlash := false;
      if f.beat && currentTime - lastBeatTime > BeatCooldown {
        shouldFlash := true;
        lastBeatTime := currentTime;
      }
      var shouldChangeScene :=
        currentTime - lastSceneChange > SceneDuration
        || (smoothedBass > EnergyThreshold && currentTime - lastSceneChange > EarlySceneChange);
      if shouldChangeScene && isPlaying {
        currentSceneIndex := (currentSceneIndex + 1) % SceneCount;
        lastSceneChange := currentTime;
        sceneTransition := 0.0;
      }
      if sceneTransition < 1.0 {
        sceneTransition := sceneTransition + TransitionStep;
      }
      var features := f.(energy := smoothedBass, spectralCentroid := smoothedTreble,
        rms := smoothedVolume, beat := shouldFlash);
      var alpha := if sceneTransition < FadeSwitch then 1.0 - sceneTransition
        else (sceneTransition - FadeSwitch) * 20.0;
      frame := Some(Frame(currentSceneIndex, features, alpha));
    }
  }
}
