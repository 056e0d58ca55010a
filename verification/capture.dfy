/** The voice recording modal: an idle / recording / recorded machine driven by button
    presses, a one-second timer with a 60-second ceiling and the media recorder's events,
    and the send workflow that uploads the audio and then inserts a database row. */
module Capture {
  import opened Wrappers
  import opened Types
  import opened Text
  import opened UploadClient
  import opened Media

  const MAX_RECORDING_TIME: nat := 60
  const START_ERROR: string := "Failed to start recording. Please check microphone permissions."
  const NO_RECORDING_ERROR: string := "No recording to upload"
  const GUEST_USER: string := "guest_user"

  datatype Phase = Idle | Recording | Recorded

  /** The modal's state. `stopPending` records that the recorder was told to stop and its
      stop event has not been delivered yet. */
  datatype Modal = Modal(
    phase: Phase,
    time: nat,
    finalTime: nat,
    chunks: seq<Chunk>,
    error: Option<string>,
    uploading: bool,
    closing: bool,
    recorder: Recorder,
    stopPending: bool)

  const Initial: Modal := Modal(Idle, 0, 0, [], None, false, false, NoRecorder, false)

  /** The invariant the machine keeps: both clocks stay within the ceiling, a recording
      has a recorder, a pending stop belongs to a recorder, and no stored chunk is empty. */
  predicate Valid(m: Modal) {
    && m.time <= MAX_RECORDING_TIME
    && m.finalTime <= MAX_RECORDING_TIME
    && (m.phase == Recording ==> m.recorder != NoRecorder)
    && (m.stopPending ==> m.recorder != NoRecorder)
    && forall k :: 0 <= k < |m.chunks| ==> |m.chunks[k]| > 0
  }

  /** `recorder.stop()`: a capturing recorder stops and will deliver its stop event; a
      stopped one ignores the call. */
  function StopRecorder(m: Modal): (r: Modal)
    ensures m.recorder == Capturing ==> r == m.(recorder := Inactive, stopPending := true)
    ensures m.recorder != Capturing ==> r == m
  {
    if m.recorder == Capturing then m.(recorder := Inactive, stopPending := true) else m
  }

  /** Start: clears the error; with the microphone granted, a fresh recorder starts with no
      chunks and the clock at zero; otherwise only the error is set. */
  function Start(m: Modal, micGranted: bool): (r: Modal)
    ensures micGranted ==>
      && r.phase == Recording && r.time == 0 && r.chunks == [] && r.error == None
      && r.recorder == Capturing
      && r.finalTime == m.finalTime && r.uploading == m.uploading && r.stopPending == m.stopPending
    ensures !micGranted ==> r == m.(error := Some(START_ERROR))
  {
    if micGranted then
      m.(error := None, recorder := Capturing, chunks := [], phase := Recording, time := 0)
    else
      m.(error := Some(START_ERROR))
  }

  /** The stop button: only while recording with a recorder, it freezes the final time and
      stops the recorder; the phase changes when the stop event arrives. */
  function StopPressed(m: Modal): (r: Modal)
    ensures m.phase == Recording && m.recorder != NoRecorder ==>
      r.finalTime == m.time && r.phase == Recording && r.time == m.time && r.chunks == m.chunks
      && r.stopPending == (m.stopPending || m.recorder == Capturing)
    ensures !(m.phase == Recording && m.recorder != NoRecorder) ==> r == m
  {
    if m.recorder != NoRecorder && m.phase == Recording then StopRecorder(m.(finalTime := m.time)) else m
  }

  /** One timer tick; the timer only runs while recording. Below the ceiling the clock
      advances by one; at the ceiling it stays there and the stop button's logic runs. */
  function Tick(m: Modal): (r: Modal)
    ensures m.phase != Recording ==> r == m
    ensures m.phase == Recording && m.time < MAX_RECORDING_TIME ==> r == m.(time := m.time + 1)
    ensures m.phase == Recording && m.time >= MAX_RECORDING_TIME ==>
      r.time == MAX_RECORDING_TIME && r == StopPressed(m).(time := MAX_RECORDING_TIME)
    ensures Valid(m) ==> r.time <= MAX_RECORDING_TIME
  {
    if m.phase != Recording then m
    else if m.time >= MAX_RECORDING_TIME then StopPressed(m).(time := MAX_RECORDING_TIME)
    else m.(time := m.time + 1)
  }

  /** A data event from the recorder: non-empty chunks are appended, empty ones dropped.
      Data only comes from a recorder that is capturing or about to deliver its stop. */
  function DataAvailable(m: Modal, chunk: Chunk): (r: Modal)
    ensures (m.recorder == Capturing || m.stopPending) && |chunk| > 0 ==> r == m.(chunks := m.chunks + [chunk])
    ensures !((m.recorder == Capturing || m.stopPending) && |chunk| > 0) ==> r == m
  {
    if (m.recorder == Capturing || m.stopPending) && |chunk| > 0 then m.(chunks := m.chunks + [chunk]) else m
  }

  /** The recorder's stop event: the recording is now available. */
  function RecorderStopped(m: Modal): (r: Modal)
    ensures m.stopPending ==> r == m.(stopPending := false, phase := Recorded)
    ensures !m.stopPending ==> r == m
  {
    if m.stopPending then m.(stopPending := false, phase := Recorded) else m
  }

  /** The reset the modal performs, as written: it stops a capturing recorder, whose stop
      handler stays attached, then clears everything. */
  function ResetAsWritten(m: Modal): (r: Modal)
    ensures r.phase == Idle && r.chunks == [] && r.time == 0 && r.finalTime == 0
    ensures r.error == None && !r.uploading
    ensures r.stopPending <==> m.stopPending || m.recorder == Capturing
  {
    StopRecorder(m).(chunks := [], phase := Idle, time := 0, finalTime := 0, error := None, uploading := false)
  }

  /** Reset, corrected: the recorder is released together with its handlers, so no stop
      event from it can arrive afterwards. */
  function Reset(m: Modal): (r: Modal)
    ensures r.phase == Idle && r.chunks == [] && r.time == 0 && r.finalTime == 0
    ensures r.error == None && !r.uploading && r.closing == m.closing
    ensures r.recorder == NoRecorder && !r.stopPending
  {
    Modal(Idle, 0, 0, [], None, false, m.closing, NoRecorder, false)
  }

  /** Which reset the modal runs: the one in the component, or the corrected one. */
  datatype ResetKind = AsWritten | Corrected

  function ResetBy(kind: ResetKind, m: Modal): Modal {
    match kind
    case AsWritten => ResetAsWritten(m)
    case Corrected => Reset(m)
  }

  /** The modal was closed: the parent's open flag went false, so the modal resets and the
      closing animation flag is cleared. With the reset as written a capturing recorder
      still owes its stop event; with the corrected one the modal is back at its start. */
  function Closed(m: Modal, kind: ResetKind): (r: Modal)
    ensures r.phase == Idle && r.chunks == [] && r.time == 0 && r.finalTime == 0
    ensures r.error == None && !r.uploading && !r.closing
    ensures kind == Corrected ==> r == Initial
    ensures kind == AsWritten ==> (r.stopPending <==> m.stopPending || m.recorder == Capturing)
  {
    ResetBy(kind, m).(closing := false)
  }

  datatype Event =
    | StartPressed(micGranted: bool)
    | StopButton
    | TimerTick
    | Data(chunk: Chunk)
    | RecorderStop
    | ResetPressed
    | ModalClosed

  /** One event of the modal. `kind` chooses the reset behind the reset button and the
      close effect. */
  function Apply(m: Modal, kind: ResetKind, e: Event): Modal {
    match e
    case StartPressed(g) => Start(m, g)
    case StopButton => StopPressed(m)
    case TimerTick => Tick(m)
    case Data(c) => DataAvailable(m, c)
    case RecorderStop => RecorderStopped(m)
    case ResetPressed => ResetBy(kind, m)
    case ModalClosed => Closed(m, kind)
  }

  function ApplyAll(m: Modal, kind: ResetKind, events: seq<Event>): Modal
    decreases |events|
  {
    if |events| == 0 then m else ApplyAll(Apply(m, kind, events[0]), kind, events[1..])
  }

  /** Every event keeps the invariant, whichever reset the modal runs. */
  lemma ApplyKeepsValid(m: Modal, kind: ResetKind, e: Event)
    requires Valid(m)
    ensures Valid(Apply(m, kind, e))
  {
  }

  /** Any run of events keeps the invariant, with the reset as written or corrected; in
      particular the clock never exceeds the ceiling. */
  lemma {:induction false} RunKeepsValid(m: Modal, kind: ResetKind, events: seq<Event>)
    requires Valid(m)
    ensures Valid(ApplyAll(m, kind, events))
    ensures ApplyAll(m, kind, events).time <= MAX_RECORDING_TIME
    decreases |events|
  {
    if |events| > 0 {
      ApplyKeepsValid(m, kind, events[0]);
      RunKeepsValid(Apply(m, kind, events[0]), kind, events[1..]);
    }
  }

  function Ticks(m: Modal, n: nat): Modal
    decreases n
  {
    if n == 0 then m else Ticks(Tick(m), n - 1)
  }

  /** From a fresh start with no stop pending, `n` ticks bring the clock to `min(n, 60)`;
      the stop is requested on the tick after the clock reaches 60, freezing the final
      time at 60. */
  lemma {:induction false} TicksFromStart(m: Modal, n: nat)
    requires m.phase == Recording && m.time == 0 && m.recorder == Capturing && !m.stopPending
    ensures Ticks(m, n).phase == Recording
    ensures Ticks(m, n).time == (if n <= MAX_RECORDING_TIME then n else MAX_RECORDING_TIME)
    ensures Ticks(m, n).stopPending <==> n > MAX_RECORDING_TIME
    ensures n > MAX_RECORDING_TIME ==> Ticks(m, n).finalTime == MAX_RECORDING_TIME && Ticks(m, n).recorder == Inactive
    ensures n <= MAX_RECORDING_TIME ==> Ticks(m, n).finalTime == m.finalTime && Ticks(m, n).recorder == Capturing
    decreases n
  {
    if n > 0 {
      TicksFromStart(m, n - 1);
      TicksOneMore(m, n - 1);
    }
  }

  /** `Ticks(m, n + 1)` is one more tick after `Ticks(m, n)`. */
  lemma {:induction false} TicksOneMore(m: Modal, n: nat)
    ensures Ticks(m, n + 1) == Tick(Ticks(m, n))
    decreases n
  {
    if n > 0 {
      TicksOneMore(Tick(m), n - 1);
    }
  }

  /** The ceiling: a capture left running for 61 or more ticks ends, once the recorder's
      stop event arrives, in `recorded` with both clocks at exactly 60. */
  lemma CeilingStopsCapture(m: Modal, n: nat)
    requires m.phase == Recording && m.time == 0 && m.recorder == Capturing && !m.stopPending
    requires n > MAX_RECORDING_TIME
    ensures RecorderStopped(Ticks(m, n)).phase == Recorded
    ensures RecorderStopped(Ticks(m, n)).time == MAX_RECORDING_TIME
    ensures RecorderStopped(Ticks(m, n)).finalTime == MAX_RECORDING_TIME
  {
    TicksFromStart(m, n);
  }

  /** Nothing starts a recording except the start button. */
  predicate NoStart(events: seq<Event>) {
    forall k :: 0 <= k < |events| ==> !events[k].StartPressed?
  }

  /** Quiescent: idle with no recorder and nothing pending. */
  predicate Settled(m: Modal) {
    m.phase == Idle && m.recorder == NoRecorder && !m.stopPending
  }

  /** After the corrected reset the modal stays idle whatever the recorder, the timer or the
      buttons do, until the user starts a new recording. */
  lemma {:induction false} ResetSettles(m: Modal, events: seq<Event>)
    requires Settled(m)
    requires NoStart(events)
    ensures Settled(ApplyAll(m, Corrected, events))
    ensures ApplyAll(m, Corrected, events).phase == Idle
    decreases |events|
  {
    if |events| > 0 {
      assert !events[0].StartPressed?;
      ResetSettles(Apply(m, Corrected, events[0]), events[1..]);
    }
  }

  /** The reset as written does not settle: cancelling a running capture and then
      receiving the recorder's stop event leaves the modal in `recorded`. */
  lemma ResetAsWrittenResurfaces()
    ensures ResetAsWritten(Start(Initial, true)).phase == Idle
    ensures RecorderStopped(ResetAsWritten(Start(Initial, true))).phase == Recorded
  {
  }

  /** The same run through the modal as written: start, reset, then the recorder's last
      data and its stop event. The modal ends `recorded`, holding the chunk delivered
      after the reset, while the corrected modal ends idle and empty. */
  lemma {:induction false} CancelledCaptureResurfaces(c: Chunk)
    requires |c| > 0
    ensures var events := [StartPressed(true), ResetPressed, Data(c), RecorderStop];
      && ApplyAll(Initial, AsWritten, events).phase == Recorded
      && ApplyAll(Initial, AsWritten, events).chunks == [c]
      && ApplyAll(Initial, Corrected, events).phase == Idle
      && ApplyAll(Initial, Corrected, events).chunks == []
  {
    var events := [StartPressed(true), ResetPressed, Data(c), RecorderStop];
    forall kind: ResetKind ensures ApplyAll(Initial, kind, events)
        == Apply(Apply(Apply(Apply(Initial, kind, events[0]), kind, events[1]), kind, events[2]), kind, events[3]) {
      RunStep(Initial, kind, events);
      RunStep(Apply(Initial, kind, events[0]), kind, events[1..]);
      RunStep(Apply(Apply(Initial, kind, events[0]), kind, events[1]), kind, events[2..]);
      RunStep(Apply(Apply(Apply(Initial, kind, events[0]), kind, events[1]), kind, events[2]), kind, events[3..]);
      assert events[3..][1..] == [];
    }
  }

  /** A run is its first event followed by the rest of the run. */
  lemma RunStep(m: Modal, kind: ResetKind, events: seq<Event>)
    requires |events| > 0
    ensures ApplyAll(m, kind, events) == ApplyAll(Apply(m, kind, events[0]), kind, events[1..])
  {
  }

  /** The categories offered by the modal, as stored in the row description. */
  datatype Category = Story | Music | Nature | Other

  function CategoryName(c: Category): string {
    match c
    case Story => "story"
    case Music => "music"
    case Nature => "nature"
    case Other => "other"
  }

  /** The row handed to the insert action. Coordinates are the numbers before their
      conversion to strings; `None` when no location is known. */
  datatype AudioRow = AudioRow(
    username: string,
    audioname: string,
    audioUrl: Option<string>,
    coordinateX: Option<real>,
    coordinateY: Option<real>,
    description: string,
    moderated: bool)

  /** The calls the send workflow makes to its collaborators, in order. */
  datatype Call = UploadRequest(fileName: string, audio: seq<Chunk>) | InsertRequest(row: AudioRow)

  /** How the insert action ended. */
  datatype InsertOutcome = Inserted | InsertThrew(message: Option<string>)

  datatype SendResult = SendResult(modal: Modal, calls: seq<Call>)

  /** The file name the modal gives the upload. */
  function VoiceFileName(now: nat): string {
    "voice-story-" + NatToString(now) + ".webm"
  }

  /** The row inserted after a successful upload. */
  function RowFor(fileName: string, url: Option<string>, location: Option<Coord>, category: Category): AudioRow {
    AudioRow(GUEST_USER, fileName, url,
             if location.Some? then Some(location.value.longitude) else None,
             if location.Some? then Some(location.value.latitude) else None,
             CategoryName(category) + " recording via voice modal",
             false)
  }

  /** Send: with no chunks it only reports the missing recording. Otherwise it uploads;
      only an ok response leads to the insert, and only a completed insert closes the modal.
      Every failure is reported, and the modal is never left uploading. */
  function Send(m: Modal, location: Option<Coord>, category: Category, now: nat,
                upload: FetchOutcome, insert: InsertOutcome): (r: SendResult)
    ensures |m.chunks| == 0 ==> r == SendResult(m.(error := Some(NO_RECORDING_ERROR)), [])
    ensures |m.chunks| > 0 ==>
      && 1 <= |r.calls| <= 2
      && r.calls[0] == UploadRequest(VoiceFileName(now), m.chunks)
      && !r.modal.uploading
      && r.modal.(error := m.error, uploading := m.uploading, closing := m.closing) == m
    ensures |m.chunks| > 0 ==> (|r.calls| == 2 <==> upload.Responded? && upload.ok)
    ensures |r.calls| == 2 ==>
      && r.calls[1].InsertRequest?
      && !r.calls[1].row.moderated
      && r.calls[1].row.audioUrl == upload.body.url
      && (location.Some? ==>
            r.calls[1].row.coordinateX == Some(location.value.longitude)
            && r.calls[1].row.coordinateY == Some(location.value.latitude))
      && (location.None? ==> r.calls[1].row.coordinateX == None && r.calls[1].row.coordinateY == None)
    ensures |m.chunks| > 0 ==>
      (r.modal.error == None <==> upload.Responded? && upload.ok && insert.Inserted?)
    ensures |m.chunks| > 0 ==> (r.modal.closing <==> m.closing || (upload.Responded? && upload.ok && insert.Inserted?))
    ensures |m.chunks| > 0 && upload.Responded? && !upload.ok ==> r.modal.error == Some(ResponseError(upload.body))
    ensures |m.chunks| > 0 && upload.Threw? ==> r.modal.error == Some(ThrownError(upload.message))
    ensures |m.chunks| > 0 && upload.Responded? && upload.ok && insert.InsertThrew? ==>
      r.modal.error == Some(ThrownError(insert.message))
  {
    if |m.chunks| == 0 then SendResult(m.(error := Some(NO_RECORDING_ERROR)), [])
    else
      var fileName := VoiceFileName(now);
      var uploadCall := UploadRequest(fileName, m.chunks);
      var busy := m.(uploading := true, error := None);
      match upload
      case Threw(msg) => SendResult(busy.(error := Some(ThrownError(msg)), uploading := false), [uploadCall])
      case Responded(ok, body) =>
        if !ok then SendResult(busy.(error := Some(ResponseError(body)), uploading := false), [uploadCall])
        else
          var calls := [uploadCall, InsertRequest(RowFor(fileName, body.url, location, category))];
          match insert
          case Inserted => SendResult(busy.(closing := true, uploading := false), calls)
          case InsertThrew(msg) => SendResult(busy.(error := Some(ThrownError(msg)), uploading := false), calls)
  }

  /** A failed upload never reaches the database. */
  lemma FailedUploadInsertsNothing(m: Modal, location: Option<Coord>, category: Category, now: nat,
                                   upload: FetchOutcome, insert: InsertOutcome)
    requires !(upload.Responded? && upload.ok)
    ensures forall k :: 0 <= k < |Send(m, location, category, now, upload, insert).calls| ==>
      !Send(m, location, category, now, upload, insert).calls[k].InsertRequest?
  {
  }

  /** A failed insert after a stored upload is reported exactly as an upload that threw
      the same message: one catch handles both, so the modal ends in the same state and
      only the calls made tell the two apart. */
  lemma InsertFailureReadsAsUploadFailure(m: Modal, location: Option<Coord>, category: Category, now: nat,
                                          body: UploadBody, message: Option<string>, insert: InsertOutcome)
    requires |m.chunks| > 0
    ensures var failedInsert := Send(m, location, category, now, Responded(true, body), InsertThrew(message));
      var failedUpload := Send(m, location, category, now, Threw(message), insert);
      && |failedInsert.calls| == 2 && |failedUpload.calls| == 1
      && failedInsert.modal == failedUpload.modal
      && failedInsert.modal.error == Some(ThrownError(message))
  {
  }
}
