/** The Meyda-based audio controller
    (src/components/AudioControllerMeyda.tsx): an `<audio>` element whose
    events drive the ready and playing flags, and an analyser callback that
    turns Meyda's feature object, whose entries may be missing, into a full
    feature record. */
module AudioControllerMeyda {
  import opened AudioTypes
  import AudioController

  /** The analyser's feature object: each entry may be absent. */
  datatype MeydaFrame = MeydaFrame(
    rms: Option<real>,
    spectralCentroid: Option<real>,
    spectralRolloff: Option<real>,
    spectralFlatness: Option<real>,
    zcr: Option<real>,
    mfcc: Option<seq<real>>)

  /** `x || 0`: an absent number (or zero) reads as zero. */
  function OrZero(x: Option<real>): (r: real)
    ensures x.None? ==> r == 0.0
    ensures x.Some? ==> r == x.value
  {
    if x.Some? then x.value else 0.0
  }

  /** The callback's record: absent numbers become 0 and absent
      coefficients 13 zeros (a present list, even an empty one, is kept);
      the beat fires only on a present loudness above 0.1; tempo, energy,
      valence and arousal follow the loudness. */
  function FeaturesFromMeyda(m: MeydaFrame): (r: AudioFeatures)
    ensures r.rms == OrZero(m.rms)
    ensures r.spectralCentroid == OrZero(m.spectralCentroid) && r.spectralRolloff == OrZero(m.spectralRolloff)
    ensures r.spectralFlatness == OrZero(m.spectralFlatness) && r.zcr == OrZero(m.zcr)
    ensures m.mfcc.Some? ==> r.mfcc == m.mfcc.value
    ensures m.mfcc.None? ==> |r.mfcc| == MfccCount && forall k :: 0 <= k < MfccCount ==> r.mfcc[k] == 0.0
    ensures r.beat <==> m.rms.Some? && m.rms.value > 0.1
    ensures r.energy <= 1.0
    ensures r.rms * 5.0 <= 1.0 ==> r.energy == r.rms * 5.0
    ensures r.rms * 5.0 > 1.0 ==> r.energy == 1.0
    ensures r.bpm == 120.0 + r.rms * 60.0
    ensures r.valence == 0.5 + r.rms * 0.3 && r.arousal == r.rms * 2.0
  {
    var rms := OrZero(m.rms);
    AudioFeatures(
      rms,
      OrZero(m.spectralCentroid),
      OrZero(m.spectralRolloff),
      OrZero(m.spectralFlatness),
      OrZero(m.zcr),
      if m.mfcc.Some? then m.mfcc.value else Filled(MfccCount, 0.0),
      m.rms.Some? && m.rms.value > 0.1,
      120.0 + rms * 60.0,
      if 1.0 < rms * 5.0 then 1.0 else rms * 5.0,
      0.5 + rms * 0.3,
      rms * 2.0)
  }

  /** A frame with no loudness is silence: no beat, the base tempo, no
      energy, neutral valence and no arousal. */
  lemma MissingRmsIsSilent(m: MeydaFrame)
    requires m.rms.None?
    ensures var f := FeaturesFromMeyda(m);
      && !f.beat && f.rms == 0.0 && f.bpm == 120.0 && f.energy == 0.0
      && f.valence == 0.5 && f.arousal == 0.0
  {
  }

  /** Given the same loudness, this controller derives the same beat, tempo,
      energy, valence and arousal as the Tone.js controller. */
  lemma AgreesWithTone(m: MeydaFrame, rms: real)
    requires m.rms == Some(rms)
    ensures var f, g := FeaturesFromMeyda(m), AudioController.FeaturesFromRms(rms);
      && f.rms == g.rms && f.beat == g.beat && f.bpm == g.bpm
      && f.energy == g.energy && f.valence == g.valence && f.arousal == g.arousal
  {
  }

  /** What `togglePlayback` asks of the audio element. */
  datatype Command = Play | Pause

  /** The playing flag the element's resulting event sets. */
  function PlayingAfter(c: Command): (r: bool)
    ensures r <==> c == Play
  {
    c.Play?
  }

  /** `togglePlayback`: without an audio element nothing is asked; a playing
      element is paused, a paused one played. */
  function Toggle(hasAudio: bool, isPlaying: bool): (r: Option<Command>)
    ensures !hasAudio <==> r.None?
    ensures r.Some? ==> (r.value == Pause <==> isPlaying)
  {
    if !hasAudio then None else if isPlaying then Some(Pause) else Some(Play)
  }

  /** A toggle followed by the event it triggers flips the playing flag. */
  lemma ToggleFlips(isPlaying: bool)
    ensures Toggle(true, isPlaying).Some?
    ensures PlayingAfter(Toggle(true, isPlaying).value) == !isPlaying
  {
  }

  /** The component's state. `analyzing` says whether a Meyda analyser is
      running; `effectReady` and `effectFile` are the values of `isReady`
      and `selectedFile` the analyser effect last ran with; the last values
      passed to `onAudioReady`, `onPlayStateChange`, `onDurationChange` and
      `onTimeUpdate` are kept in the four reports. */
  class Player {
    var selectedFile: string
    var fileName: string
    var isPlaying: bool
    var isReady: bool
    var duration: real
    var currentTime: real
    var analyzing: bool
    var effectReady: bool
    var effectFile: string
    var readyReport: Option<bool>
    var playReport: Option<bool>
    var durationReport: Option<real>
    var timeReport: Option<real>

    /** The analyser runs exactly when the effect last ran with a ready,
        selected file: the effect's cleanup stops it on every re-run. */
    predicate AnalyserFollowsEffect()
      reads this
    {
      analyzing <==> effectReady && effectFile != ""
    }

    /** The first render, with the mount run of the analyser effect, which
        starts nothing. */
    constructor ()
      ensures selectedFile == "" && fileName == "" && !isPlaying && !isReady
      ensures duration == 0.0 && currentTime == 0.0 && !analyzing
      ensures effectReady == isReady && effectFile == selectedFile
      ensures readyReport == None && playReport == None && durationReport == None && timeReport == None
      ensures AnalyserFollowsEffect()
    {
      selectedFile, fileName, isPlaying, isReady := "", "", false, false;
      duration, currentTime, analyzing := 0.0, 0.0, false;
      effectReady, effectFile := false, "";
      readyReport, playReport, durationReport, timeReport := None, None, None, None;
    }

    /** `handleFileSelect`: an empty choice is ignored; otherwise the file
        and its display name are recorded, the flags cleared, and the app
        hears "not ready". */
    method HandleFileSelect(selectedPath: string)
      modifies this
      ensures selectedPath == "" ==>
        && selectedFile == old(selectedFile) && fileName == old(fileName)
        && isReady == old(isReady) && isPlaying == old(isPlaying) && readyReport == old(readyReport)
      ensures selectedPath != "" ==>
        && selectedFile == selectedPath
        && fileName == AudioController.FileNameFor(AudioController.AvailableAudioFiles, selectedPath)
        && !isReady && !isPlaying && readyReport == Some(false)
      ensures analyzing == old(analyzing) && playReport == old(playReport)
      ensures effectReady == old(effectReady) && effectFile == old(effectFile)
      ensures duration == old(duration) && currentTime == old(currentTime)
      ensures durationReport == old(durationReport) && timeReport == old(timeReport)
    {
      if selectedPath == "" {
        return;
      }
      selectedFile := selectedPath;
      fileName := AudioController.FileNameFor(AudioController.AvailableAudioFiles, selectedPath);
      isReady := false;
      isPlaying := false;
      readyReport := Some(false);
    }

    /** The commit after a render: when `isReady` or `selectedFile` differs
        from the values the analyser effect last ran with, the previous
        run's cleanup stops its analyser and the effect runs again, starting
        a new analyser and telling the app "ready" when the file is ready
        and selected. Unchanged dependencies leave the effect alone. */
    method OnReadyOrFile()
      requires AnalyserFollowsEffect()
      modifies this
      ensures AnalyserFollowsEffect()
      ensures effectReady == isReady && effectFile == selectedFile
      ensures analyzing <==> isReady && selectedFile != ""
      ensures (old(effectReady) != isReady || old(effectFile) != selectedFile) && isReady && selectedFile != "" ==>
        readyReport == Some(true)
      ensures !((old(effectReady) != isReady || old(effectFile) != selectedFile) && isReady && selectedFile != "") ==>
        readyReport == old(readyReport)
      ensures selectedFile == old(selectedFile) && fileName == old(fileName)
      ensures isReady == old(isReady) && isPlaying == old(isPlaying) && playReport == old(playReport)
      ensures duration == old(duration) && currentTime == old(currentTime)
      ensures durationReport == old(durationReport) && timeReport == old(timeReport)
    {
      if effectReady != isReady || effectFile != selectedFile {
        analyzing := false;
        effectReady, effectFile := isReady, selectedFile;
        if isReady && selectedFile != "" {
          analyzing := true;
          readyReport := Some(true);
        }
      }
    }

    /** `loadedmetadata`: the duration is recorded and reported, and the
        player becomes ready. */
    method OnLoadedMetadata(audioDuration: real)
      modifies this
      ensures duration == audioDuration && durationReport == Some(audioDuration) && isReady
      ensures selectedFile == old(selectedFile) && fileName == old(fileName) && isPlaying == old(isPlaying)
      ensures analyzing == old(analyzing) && readyReport == old(readyReport) && playReport == old(playReport)
      ensures effectReady == old(effectReady) && effectFile == old(effectFile)
      ensures currentTime == old(currentTime) && timeReport == old(timeReport)
    {
      duration := audioDuration;
      durationReport := Some(audioDuration);
      isReady := true;
    }

    /** `timeupdate`: the element's time is recorded and reported. */
    method OnTimeUpdate(audioTime: real)
      modifies this
      ensures currentTime == audioTime && timeReport == Some(audioTime)
      ensures selectedFile == old(selectedFile) && fileName == old(fileName) && isPlaying == old(isPlaying)
      ensures isReady == old(isReady) && analyzing == old(analyzing)
      ensures effectReady == old(effectReady) && effectFile == old(effectFile)
      ensures readyReport == old(readyReport) && playReport == old(playReport)
      ensures duration == old(duration) && durationReport == old(durationReport)
    {
      currentTime := audioTime;
      timeReport := Some(audioTime);
    }

    /** `play` and `pause`: the playing flag follows the element, and the
        app hears it. */
    method OnPlayEvent(playing: bool)
      modifies this
      ensures isPlaying == playing && playReport == Some(playing)
      ensures selectedFile == old(selectedFile) && fileName == old(fileName)
      ensures isReady == old(isReady) && analyzing == old(analyzing) && readyReport == old(readyReport)
      ensures effectReady == old(effectReady) && effectFile == old(effectFile)
      ensures duration == old(duration) && currentTime == old(currentTime)
      ensures durationReport == old(durationReport) && timeReport == old(timeReport)
    {
      isPlaying := playing;
      playReport := Some(playing);
    }

    /** What the play/pause button asks of the element. */
    function TogglePlayback(hasAudio: bool): (r: Option<Command>)
      reads this
      ensures !hasAudio ==> r == None
      ensures hasAudio ==> r.Some? && PlayingAfter(r.value) == !isPlaying
    {
      ToggleFlips(isPlaying);
      Toggle(hasAudio, isPlaying)
    }
  }
}
