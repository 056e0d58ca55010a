/** The earlier recorder component: idle / recording / stopped, a preview player that
    keeps at most one audio element audible, and a plain upload. */
module Recorder {
  import opened Wrappers
  import opened Text
  import opened Media
  import opened UploadClient

  const START_ERROR: string := "Failed to start recording. Please check microphone permissions."
  const PLAY_ERROR: string := "Failed to play recording"
  const NO_RECORDING_ERROR: string := "No recording to upload"

  datatype Phase = Idle | Recording | Stopped

  /** An audio element created for preview: its source, whether it is playing, and its
      position in seconds. */
  datatype Element = Element(src: string, playing: bool, position: real)

  /** The component's state. `elements` are all audio elements created so far, in order;
      `current` is the index of the one the component still references. */
  datatype Draft = Draft(
    phase: Phase,
    error: Option<string>,
    isPlaying: bool,
    uploading: bool,
    uploadSuccess: Option<string>,
    chunks: seq<Chunk>,
    recorder: Recorder,
    stopPending: bool,
    audioUrl: Option<string>,
    elements: seq<Element>,
    current: Option<nat>)

  const Initial: Draft := Draft(Idle, None, false, false, None, [], NoRecorder, false, None, [], None)

  /** The reference points at an existing element, and no element other than the
      referenced one is playing. */
  predicate OneAudible(d: Draft) {
    && (d.current.Some? ==> d.current.value < |d.elements|)
    && forall k :: 0 <= k < |d.elements| && d.elements[k].playing ==> d.current == Some(k)
  }

  /** Start: clears the error; with the microphone granted a fresh recorder captures into
      an empty chunk list, otherwise only the error is set. */
  function Start(d: Draft, micGranted: bool): (r: Draft)
    ensures micGranted ==> r == d.(error := None, recorder := Capturing, chunks := [], phase := Recording)
    ensures !micGranted ==> r == d.(error := Some(START_ERROR))
  {
    if micGranted then d.(error := None, recorder := Capturing, chunks := [], phase := Recording)
    else d.(error := Some(START_ERROR))
  }

  /** Stop: has an effect only while recording with a capturing recorder. */
  function Stop(d: Draft): (r: Draft)
    ensures d.phase == Recording && d.recorder == Capturing ==> r == d.(recorder := Inactive, stopPending := true)
    ensures !(d.phase == Recording && d.recorder == Capturing) ==> r == d
  {
    if d.recorder != NoRecorder && d.phase == Recording then
      if d.recorder == Capturing then d.(recorder := Inactive, stopPending := true) else d
    else d
  }

  /** Non-empty data chunks are appended. */
  function DataAvailable(d: Draft, chunk: Chunk): (r: Draft)
    ensures (d.recorder == Capturing || d.stopPending) && |chunk| > 0 ==> r.chunks == d.chunks + [chunk]
    ensures !((d.recorder == Capturing || d.stopPending) && |chunk| > 0) ==> r == d
    ensures r.(chunks := d.chunks) == d
  {
    if (d.recorder == Capturing || d.stopPending) && |chunk| > 0 then d.(chunks := d.chunks + [chunk]) else d
  }

  /** The recorder's stop event: the chunks become a playable object URL and the phase
      moves to stopped. */
  function RecorderStopped(d: Draft, objectUrl: string): (r: Draft)
    ensures d.stopPending ==> r.phase == Stopped && r.audioUrl == Some(objectUrl) && !r.stopPending
    ensures !d.stopPending ==> r == d
  {
    if d.stopPending then d.(stopPending := false, audioUrl := Some(objectUrl), phase := Stopped) else d
  }

  /** Reset: the object URL is revoked and chunks, phase, error, playing flag and upload
      result are cleared. The audio element itself is left alone. */
  function Reset(d: Draft): (r: Draft)
    ensures r.phase == Idle && r.chunks == [] && r.error == None && !r.isPlaying
    ensures r.uploadSuccess == None && r.audioUrl == None
    ensures r.elements == d.elements && r.current == d.current && r.recorder == d.recorder
  {
    d.(audioUrl := None, chunks := [], phase := Idle, error := None, isPlaying := false, uploadSuccess := None)
  }

  /** Preview: without a recorded URL nothing happens. Otherwise the referenced element is
      paused and rewound, a new element for the URL replaces it and is played; a rejected
      play reports an error. */
  function PlayRecording(d: Draft, started: bool): (r: Draft)
    requires OneAudible(d)
    ensures d.audioUrl.None? ==> r == d
    ensures d.audioUrl.Some? ==>
      && |r.elements| == |d.elements| + 1
      && r.current == Some(|d.elements|)
      && r.elements[|d.elements|] == Element(d.audioUrl.value, started, 0.0)
      && (d.current.Some? ==> !r.elements[d.current.value].playing && r.elements[d.current.value].position == 0.0)
      && (r.isPlaying <==> started)
      && (!started ==> r.error == Some(PLAY_ERROR))
    ensures OneAudible(r)
  {
    match d.audioUrl
    case None => d
    case Some(url) =>
      var paused :=
        if d.current.Some? then d.elements[d.current.value := d.elements[d.current.value].(playing := false, position := 0.0)]
        else d.elements;
      var r := d.(elements := paused + [Element(url, started, 0.0)], current := Some(|d.elements|), isPlaying := started);
      if started then r else r.(error := Some(PLAY_ERROR))
  }

  /** The referenced element ended: nothing is playing. */
  function Ended(d: Draft): (r: Draft)
    requires OneAudible(d)
    ensures !r.isPlaying && OneAudible(r)
    ensures forall k :: 0 <= k < |r.elements| ==> !r.elements[k].playing
  {
    var els := if d.current.Some? then d.elements[d.current.value := d.elements[d.current.value].(playing := false)] else d.elements;
    d.(elements := els, isPlaying := false)
  }

  /** The referenced element failed: nothing is playing and an error is shown. */
  function ElementError(d: Draft): (r: Draft)
    requires OneAudible(d)
    ensures !r.isPlaying && r.error == Some(PLAY_ERROR) && OneAudible(r)
  {
    Ended(d).(error := Some(PLAY_ERROR))
  }

  /** Stop preview: without an element nothing happens; otherwise the element is paused
      and rewound and the component is not playing. */
  function StopPlayback(d: Draft): (r: Draft)
    requires OneAudible(d)
    ensures d.current.None? ==> r == d
    ensures d.current.Some? ==>
      && !r.isPlaying
      && |r.elements| == |d.elements|
      && !r.elements[d.current.value].playing && r.elements[d.current.value].position == 0.0
      && forall k :: 0 <= k < |r.elements| ==> !r.elements[k].playing
    ensures OneAudible(r)
  {
    match d.current
    case None => d
    case Some(i) =>
      d.(elements := d.elements[i := d.elements[i].(playing := false, position := 0.0)], isPlaying := false)
  }

  /** Two previews in a row leave exactly the second element audible. */
  lemma SecondPlayReleasesFirst(d: Draft)
    requires OneAudible(d) && d.audioUrl.Some?
    ensures var r := PlayRecording(PlayRecording(d, true), true);
      && r.current == Some(|d.elements| + 1)
      && r.elements[|d.elements| + 1].playing
      && forall k :: 0 <= k < |r.elements| && k != |d.elements| + 1 ==> !r.elements[k].playing
  {
  }

  /** The calls the upload makes: at most one POST of the recording. */
  datatype UploadResult = UploadResult(draft: Draft, requested: Option<string>)

  function RecordingFileName(now: nat): string {
    "recording-" + NatToString(now) + ".webm"
  }

  /** Upload: with no chunks only an error and no request; otherwise one request, then the
      returned URL on success or an error, and never left uploading. */
  function Upload(d: Draft, now: nat, outcome: FetchOutcome): (r: UploadResult)
    ensures |d.chunks| == 0 ==> r == UploadResult(d.(error := Some(NO_RECORDING_ERROR)), None)
    ensures |d.chunks| > 0 ==>
      && r.requested == Some(RecordingFileName(now))
      && !r.draft.uploading
      && r.draft.(error := d.error, uploadSuccess := d.uploadSuccess, uploading := d.uploading) == d
    ensures |d.chunks| > 0 && outcome.Responded? && outcome.ok ==>
      r.draft.uploadSuccess == outcome.body.url && r.draft.error == None
    ensures |d.chunks| > 0 && !(outcome.Responded? && outcome.ok) ==>
      r.draft.uploadSuccess == None && r.draft.error.Some?
    ensures |d.chunks| > 0 && outcome.Threw? ==> r.draft.error == Some(ThrownError(outcome.message))
    ensures |d.chunks| > 0 && outcome.Responded? && !outcome.ok ==> r.draft.error == Some(ResponseError(outcome.body))
  {
    if |d.chunks| == 0 then UploadResult(d.(error := Some(NO_RECORDING_ERROR)), None)
    else
      var busy := d.(uploading := true, error := None, uploadSuccess := None);
      var done :=
        match outcome
        case Threw(msg) => busy.(error := Some(ThrownError(msg)))
        case Responded(ok, body) =>
          if ok then busy.(uploadSuccess := body.url) else busy.(error := Some(ResponseError(body)));
      UploadResult(done.(uploading := false), Some(RecordingFileName(now)))
  }

  datatype Event =
    | StartPressed(micGranted: bool)
    | StopPressed
    | Data(chunk: Chunk)
    | RecorderStop(objectUrl: string)
    | ResetPressed
    | PlayPressed(started: bool)
    | PlaybackEnded
    | PlaybackError
    | StopPlaybackPressed
    | UploadPressed(now: nat, outcome: FetchOutcome)

  function Apply(d: Draft, e: Event): (r: Draft)
    requires OneAudible(d)
    ensures OneAudible(r)
  {
    match e
    case StartPressed(g) => Start(d, g)
    case StopPressed => Stop(d)
    case Data(c) => DataAvailable(d, c)
    case RecorderStop(u) => RecorderStopped(d, u)
    case ResetPressed => Reset(d)
    case PlayPressed(s) => PlayRecording(d, s)
    case PlaybackEnded => Ended(d)
    case PlaybackError => ElementError(d)
    case StopPlaybackPressed => StopPlayback(d)
    case UploadPressed(now, o) => Upload(d, now, o).draft
  }

  function ApplyAll(d: Draft, events: seq<Event>): (r: Draft)
    requires OneAudible(d)
    ensures OneAudible(r)
    decreases |events|
  {
    if |events| == 0 then d else ApplyAll(Apply(d, events[0]), events[1..])
  }

  /** However the user drives the component, at most one preview element is audible. */
  lemma AtMostOneAudible(events: seq<Event>, i: int, j: int)
    requires 0 <= i < j < |ApplyAll(Initial, events).elements|
    ensures !(ApplyAll(Initial, events).elements[i].playing && ApplyAll(Initial, events).elements[j].playing)
  {
  }
}
