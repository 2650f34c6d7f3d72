/** The Tone.js audio controller (src/components/AudioController.tsx): it
    derives a full feature record from the loudness of each analyser
    waveform, and manages the player's lifecycle flags. The analyser, the
    player and the clock are outside the model; their outcomes are
    parameters. */
module AudioController {
  import opened AudioTypes

  /** One entry of the selectable audio files. */
  datatype AudioFile = AudioFile(name: string, path: string)

  const AvailableAudioFiles: seq<AudioFile> := [
    AudioFile("Ballads 4 Baddies [No Tags].mp3", "/audio/Ballads_4_Baddies_No_Tags.mp3"),
    AudioFile("Ballads 4 Baddies [No Tags].wav", "/audio/Ballads_4_Baddies_No_Tags.wav")
  ]

  /** `AVAILABLE_AUDIO_FILES.find(f => f.path === path)?.name || path`: the
      name of the first listed file with that path, unless it is empty;
      otherwise the path itself. */
  function FileNameFor(files: seq<AudioFile>, path: string): (r: string)
    ensures r == path || exists k :: 0 <= k < |files| && files[k].path == path && r == files[k].name
    ensures (forall k :: 0 <= k < |files| ==> files[k].path != path) ==> r == path
    ensures forall k :: 0 <= k < |files| && files[k].path == path && (forall m :: 0 <= m < k ==> files[m].path != path) ==>
      r == if files[k].name != "" then files[k].name else path
  {
    if |files| == 0 then path
    else if files[0].path == path then (if files[0].name != "" then files[0].name else path)
    else
      var r := FileNameFor(files[1..], path);
      assert forall k :: 1 <= k < |files| ==> files[1..][k - 1] == files[k];
      r
  }

  /** The running total of `waveform.reduce((sum, v) => sum + v * v, 0)`:
      never negative, and zero for silence. */
  function SumOfSquares(waveform: seq<real>): (r: real)
    ensures r >= 0.0
    ensures (forall k :: 0 <= k < |waveform| ==> waveform[k] == 0.0) ==> r == 0.0
  {
    if |waveform| == 0 then 0.0
    else
      var rest := SumOfSquares(waveform[..|waveform| - 1]);
      var v := waveform[|waveform| - 1];
      assert v * v >= 0.0 by {
        if v < 0.0 {
          var w := -v;
          assert w * w > 0.0;
          assert v * v == w * w;
        }
      }
      rest + v * v
  }

  /** The mean square of a waveform. The analyser's buffer always holds 1024
      samples, so it is never empty. */
  function MeanSquare(waveform: seq<real>): (r: real)
    requires |waveform| > 0
    ensures r >= 0.0
    ensures (forall k :: 0 <= k < |waveform| ==> waveform[k] == 0.0) ==> r == 0.0
  {
    SumOfSquares(waveform) / (|waveform| as real)
  }

  /** `rms` is the square root of `x`: the non-negative root. */
  predicate IsSqrt(rms: real, x: real)
  {
    rms >= 0.0 && rms * rms == x
  }

  /** The feature record built from one loudness value. */
  function FeaturesFromRms(rms: real): (r: AudioFeatures)
    ensures r.rms == rms
    ensures r.beat <==> rms > 0.1
    ensures r.energy <= 1.0 && (rms * 5.0 <= 1.0 ==> r.energy == rms * 5.0)
    ensures rms * 5.0 > 1.0 ==> r.energy == 1.0
    ensures rms >= 0.0 ==> 0.0 <= r.energy && r.bpm >= 120.0 && r.valence >= 0.5 && r.arousal >= 0.0
    ensures |r.mfcc| == MfccCount && forall k :: 0 <= k < MfccCount ==> r.mfcc[k] == rms
  {
    AudioFeatures(
      rms,
      1000.0 + rms * 1000.0,
      2000.0 + rms * 2000.0,
      0.5 - rms * 0.3,
      rms * 10.0,
      Filled(MfccCount, rms),
      rms > 0.1,
      120.0 + rms * 60.0,
      if 1.0 < rms * 5.0 then 1.0 else rms * 5.0,
      0.5 + rms * 0.3,
      rms * 2.0)
  }

  /** The features of a waveform whose root mean square is `rms`: energy
      stays in [0, 1] and the tempo is at least 120. A silent waveform has
      mean square 0, so 0 is its root, and whatever root `rms` the caller
      took is at most 0.1: its features have no beat. */
  lemma WaveformFeatures(waveform: seq<real>, rms: real)
    requires |waveform| > 0 && IsSqrt(rms, MeanSquare(waveform))
    ensures var f := FeaturesFromRms(rms);
      && f.rms >= 0.0
      && 0.0 <= f.energy <= 1.0
      && f.bpm >= 120.0
    ensures (forall k :: 0 <= k < |waveform| ==> waveform[k] == 0.0) ==>
      && IsSqrt(0.0, MeanSquare(waveform))
      && rms <= 0.1
      && !FeaturesFromRms(rms).beat
  {
    if rms > 0.1 {
      AboveBeatSquare(rms);
    }
  }

  /** A loudness above the beat threshold 0.1 has a square above 0.01. */
  lemma AboveBeatSquare(v: real)
    requires v > 0.1
    ensures v * v > 0.01
  {
    assert v * v > 0.1 * v;
  }

  /** The controller's refs and state. `player` and `analyser` say whether
      those objects exist; `playerStarted` is the player's state; the last
      values sent through `onAudioReady` and `onPlayStateChange` are kept
      in `readyReport` and `playReport`. */
  class Controller {
    var isInitialized: bool
    var isLoading: bool
    var selectedFile: string
    var fileName: string
    var player: bool
    var playerStarted: bool
    var analyser: bool
    var animationFrame: bool
    var isDisposed: bool
    var startTime: real
    var readyReport: Option<bool>
    var playReport: Option<bool>

    /** Only an existing player can be started. */
    predicate Valid()
      reads this
    {
      playerStarted ==> player
    }

    constructor ()
      ensures Valid()
      ensures !isInitialized && !isLoading && selectedFile == "" && fileName == ""
      ensures !player && !analyser && !animationFrame && !isDisposed
      ensures readyReport == None && playReport == None
    {
      isInitialized, isLoading, selectedFile, fileName := false, false, "", "";
      player, playerStarted, analyser, animationFrame := false, false, false, false;
      isDisposed, startTime, readyReport, playReport := false, 0.0, None, None;
    }

    /** `cleanup`: the frame loop, the player and the analyser are released
        and the controller is marked disposed. */
    method Cleanup()
      requires Valid()
      modifies this
      ensures Valid()
      ensures !animationFrame && !player && !playerStarted && !analyser && isDisposed
      ensures isInitialized == old(isInitialized) && isLoading == old(isLoading)
      ensures selectedFile == old(selectedFile) && fileName == old(fileName) && startTime == old(startTime)
      ensures readyReport == old(readyReport) && playReport == old(playReport)
    {
      animationFrame := false;
      player := false;
      playerStarted := false;
      analyser := false;
      isDisposed := true;
    }

    /** `handleInitAudio`, with the outcome of starting the audio context as
        a parameter. */
    method InitAudio(started: bool) returns (contextReady: bool)
      requires Valid()
      modifies this
      ensures Valid()
      ensures contextReady == started
      ensures isInitialized == (old(isInitialized) || started)
      ensures isLoading == old(isLoading) && selectedFile == old(selectedFile) && player == old(player)
      ensures playerStarted == old(playerStarted) && isDisposed == old(isDisposed)
      ensures readyReport == old(readyReport) && playReport == old(playReport)
    {
      if started {
        isInitialized := true;
      }
      contextReady := started;
    }

    /** `loadAudioFile`: clean up, then create a fresh, stopped player. */
    method LoadAudioFile(filePath: string)
      requires Valid()
      modifies this
      ensures Valid()
      ensures player && !playerStarted && !isDisposed && !analyser && !animationFrame
      ensures isInitialized == old(isInitialized) && isLoading == old(isLoading)
      ensures selectedFile == old(selectedFile) && fileName == old(fileName)
      ensures readyReport == old(readyReport) && playReport == old(playReport)
    {
      Cleanup();
      isDisposed := false;
      player := true;
    }

    /** `handleFileSelect`: an empty selection is ignored; otherwise the
        file is recorded, loading starts and the app hears "not ready". */
    method HandleFileSelect(selectedPath: string)
      requires Valid()
      modifies this
      ensures Valid()
      ensures selectedPath == "" ==>
        && selectedFile == old(selectedFile) && fileName == old(fileName) && isLoading == old(isLoading)
        && player == old(player) && playerStarted == old(playerStarted) && isDisposed == old(isDisposed)
        && readyReport == old(readyReport)
      ensures selectedPath != "" ==>
        && selectedFile == selectedPath && fileName == FileNameFor(AvailableAudioFiles, selectedPath)
        && isLoading && readyReport == Some(false)
        && player && !playerStarted && !isDisposed
      ensures isInitialized == old(isInitialized) && playReport == old(playReport)
    {
      if selectedPath == "" {
        return;
      }
      selectedFile := selectedPath;
      fileName := FileNameFor(AvailableAudioFiles, selectedPath);
      isLoading := true;
      readyReport := Some(false);
      LoadAudioFile(selectedPath);
    }

    /** The player's `onload`: loading ends, the app hears "ready", and the
        analyser with its feature loop is set up. */
    method OnLoad()
      requires Valid()
      modifies this
      ensures Valid()
      ensures !isLoading && readyReport == Some(true) && analyser && animationFrame
      ensures player == old(player) && playerStarted == old(playerStarted) && isDisposed == old(isDisposed)
      ensures isInitialized == old(isInitialized) && selectedFile == old(selectedFile)
      ensures playReport == old(playReport)
    {
      isLoading := false;
      readyReport := Some(true);
      analyser := true;
      animationFrame := true;
    }

    /** The player's `onerror`: loading ends and the app hears "not ready". */
    method OnLoadError()
      requires Valid()
      modifies this
      ensures Valid()
      ensures !isLoading && readyReport == Some(false)
      ensures player == old(player) && playerStarted == old(playerStarted) && isDisposed == old(isDisposed)
      ensures isInitialized == old(isInitialized) && selectedFile == old(selectedFile)
      ensures analyser == old(analyser) && playReport == old(playReport)
    {
      isLoading := false;
      readyReport := Some(false);
    }

    /** One run of `updateFeatures`: nothing once disposed; otherwise the
        features of the current waveform are sent and the next frame is
        requested. */
    method UpdateFeatures(waveform: seq<real>, rms: real) returns (sent: Option<AudioFeatures>)
      requires |waveform| > 0 && IsSqrt(rms, MeanSquare(waveform))
      requires Valid()
      modifies this
      ensures Valid()
      ensures old(isDisposed) ==> sent == None && animationFrame == old(animationFrame)
      ensures !old(isDisposed) ==> sent == Some(FeaturesFromRms(rms)) && animationFrame
      ensures player == old(player) && playerStarted == old(playerStarted) && isDisposed == old(isDisposed)
      ensures readyReport == old(readyReport) && playReport == old(playReport)
    {
      if isDisposed {
        return None;
      }
      sent := Some(FeaturesFromRms(rms));
      animationFrame := true;
    }

    /** `togglePlayback`, with `now` the clock reading: nothing happens
        unless a player exists, audio is initialised and a file is
        selected; otherwise a started player stops and a stopped one
        starts, and the app hears the new state. */
    method TogglePlayback(now: real)
      requires Valid()
      modifies this
      ensures Valid()
      ensures !(old(player) && old(isInitialized) && old(selectedFile) != "") ==>
        playerStarted == old(playerStarted) && playReport == old(playReport) && startTime == old(startTime)
      ensures old(player) && old(isInitialized) && old(selectedFile) != "" ==>
        && playerStarted == !old(playerStarted)
        && playReport == Some(playerStarted)
        && startTime == (if playerStarted then now else old(startTime))
      ensures player == old(player) && isInitialized == old(isInitialized) && selectedFile == old(selectedFile)
      ensures isDisposed == old(isDisposed) && readyReport == old(readyReport)
    {
      if !player || !isInitialized || selectedFile == "" {
        return;
      }
      if playerStarted {
        playerStarted := false;
        playReport := Some(false);
      } else {
        startTime := now;
        playerStarted := true;
        playReport := Some(true);
      }
    }

    /** The time reported while the player runs, in seconds since start. */
    function Elapsed(now: real): (r: Option<real>)
      reads this
      ensures r.Some? <==> !isDisposed && playerStarted
      ensures r.Some? ==> r.value * 1000.0 == now - startTime
    {
      if isDisposed || !playerStarted then None else Some((now - startTime) / 1000.0)
    }
  }
}
