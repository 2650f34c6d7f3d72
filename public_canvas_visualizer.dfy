/** The per-frame state of the second copy of the visualiser
    (public/code/CanvasVisualizer.tsx). It smooths and filters the features
    as the first one does, but takes its scene from a property instead of
    rotating on its own; a new scene restarts the cross-fade. */
module PublicCanvasVisualizer {
  import opened AudioTypes
  import CV = CanvasVisualizer

  /** The closure variables that `draw` updates. */
  datatype PubState = PubState(
    ready: bool,
    sceneTransition: real,
    currentSceneIndex: int,
    smoothedBass: real,
    smoothedTreble: real,
    smoothedVolume: real,
    lastBeatTime: real)

  const Initial: PubState := PubState(false, 0.0, 0, 0.0, 0.0, 0.0, 0.0)

  /** The state after one `draw` call with scene property `currentScene`,
      and the frame it renders. */
  function Step(s: PubState, f: AudioFeatures, currentTime: real, currentScene: int): (PubState, Option<CV.Frame>)
  {
    if !s.ready then (s, None)
    else
      var bass := CV.Smooth(s.smoothedBass, f.energy);
      var treble := CV.Smooth(s.smoothedTreble, f.spectralCentroid);
      var volume := CV.Smooth(s.smoothedVolume, f.rms);
      var flash := CV.ShouldFlash(f.beat, currentTime, s.lastBeatTime);
      var lastBeat := if flash then currentTime else s.lastBeatTime;
      var transition := CV.Ramp(if currentScene != s.currentSceneIndex then 0.0 else s.sceneTransition);
      var next := PubState(true, transition, currentScene, bass, treble, volume, lastBeat);
      (next, Some(CV.Frame(currentScene, CV.SmoothedFeatures(f, bass, treble, volume, flash), CV.Alpha(transition))))
  }

  /** After a frame the sketch shows the scene the property asks for. The
      cross-fade restarts from zero exactly when that scene differs from the
      one shown before; otherwise it keeps ramping while below 1. */
  lemma FollowsSceneProperty(s: PubState, f: AudioFeatures, currentTime: real, currentScene: int)
    requires s.ready
    ensures var s' := Step(s, f, currentTime, currentScene).0;
      && s'.currentSceneIndex == currentScene
      && (currentScene != s.currentSceneIndex ==> s'.sceneTransition == CV.TransitionStep)
      && (currentScene == s.currentSceneIndex ==> s'.sceneTransition == CV.Ramp(s.sceneTransition))
  {
  }

  /** Frames keep the cross-fade value in [0, 1.008). */
  lemma StepKeepsRamp(s: PubState, f: AudioFeatures, currentTime: real, currentScene: int)
    requires 0.0 <= s.sceneTransition < 1.0 + CV.TransitionStep
    ensures 0.0 <= Step(s, f, currentTime, currentScene).0.sceneTransition < 1.0 + CV.TransitionStep
  {
    if s.ready {
      CV.RampBounded(if currentScene != s.currentSceneIndex then 0.0 else s.sceneTransition);
    }
  }

  /** Flashes are more than the cooldown apart, and only a flash moves the
      recorded beat time. */
  lemma FlashRule(s: PubState, f: AudioFeatures, currentTime: real, currentScene: int)
    requires s.ready
    ensures var (s', frame) := Step(s, f, currentTime, currentScene);
      && frame.Some?
      && (frame.value.features.beat <==> f.beat && currentTime - s.lastBeatTime > CV.BeatCooldown)
      && s'.lastBeatTime == (if frame.value.features.beat then currentTime else s.lastBeatTime)
  {
  }

  /** The p5 sketch of this copy, its closure variables as fields. */
  class Sketch {
    var ready: bool
    var sceneTransition: real
    var currentSceneIndex: int
    var smoothedBass: real
    var smoothedTreble: real
    var smoothedVolume: real
    var lastBeatTime: real

    function State(): PubState
      reads this
    {
      PubState(ready, sceneTransition, currentSceneIndex, smoothedBass, smoothedTreble,
        smoothedVolume, lastBeatTime)
    }

    constructor ()
      ensures State() == Initial
    {
      ready, sceneTransition, currentSceneIndex := false, 0.0, 0;
      smoothedBass, smoothedTreble, smoothedVolume, lastBeatTime := 0.0, 0.0, 0.0, 0.0;
    }

    /** The watermark-load callbacks mark the sketch ready. */
    method MarkReady()
      modifies this
      ensures State() == old(State()).(ready := true)
    {
      ready := true;
    }

    /** `sketch.draw`, reading the latest scene property. */
    method Draw(f: AudioFeatures, currentTime: real, currentScene: int) returns (frame: Option<CV.Frame>)
      modifies this
      ensures (State(), frame) == Step(old(State()), f, currentTime, currentScene)
      ensures ready ==> currentSceneIndex == currentScene
    {
      if !ready {
        return None;
      }
      smoothedBass := smoothedBass * (1.0 - CV.SmoothingFactor) + f.energy * CV.SmoothingFactor;
      smoothedTreble := smoothedTreble * (1.0 - CV.SmoothingFactor) + f.spectralCentroid * CV.SmoothingFactor;
      smoothedVolume := smoothedVolume * (1.0 - CV.SmoothingFactor) + f.rms * CV.SmoothingFactor;
      var shouldFlash := false;
      if f.beat && currentTime - lastBeatTime > CV.BeatCooldown {
        shouldFlash := true;
        lastBeatTime := currentTime;
      }
      var targetSceneIndex := currentScene;
      if targetSceneIndex != currentSceneIndex {
        currentSceneIndex := targetSceneIndex;
        sceneTransition := 0.0;
      }
      if sceneTransition < 1.0 {
        sceneTransition := sceneTransition + CV.TransitionStep;
      }
      var features := f.(energy := smoothedBass, spectralCentroid := smoothedTreble,
        rms := smoothedVolume, beat := shouldFlash);
      var alpha := if sceneTransition < CV.FadeSwitch then 1.0 - sceneTransition
        else (sceneTransition - CV.FadeSwitch) * 20.0;
      frame := Some(CV.Frame(currentSceneIndex, features, alpha));
    }
  }
}
