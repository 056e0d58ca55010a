# Location-gated audio recordings, modelled in Dafny

The application is a mobile web app for leaving and finding voice recordings at places.
This project models its core logic as pure Dafny functions over immutable state records
and proves properties of that logic. The modelled parts are:

- **The proximity engine** (`Proximity`, `Distances`). The nearby panel keeps a persistent
  set of loaded recording ids. It loads a recording within 20 m and unloads it beyond 40 m;
  in the band between, membership is unchanged (hysteresis). It shows the loaded
  recordings in list order and makes a card playable within 10 m.
- **The map** (`MapView`). Markers are interactable within 40 m, and a marker click is
  gated on that flag. The camera follows the user, pans or sets the view after a
  significant move, and a manual move switches following off. There is also a tile-layer
  table per map style.
- **The capture lifecycle** (`Capture`, `Progress`, `TimeFormat`, `Text`,
  `UploadClient`). The voice recording modal is an idle / recording / recorded machine
  with a one-second timer and a 60-second ceiling. The media recorder's events are
  inputs. Sending uploads the audio first and inserts a database row only after a
  successful upload. The progress bar and the `m:ss` timer text are modelled too. The
  modal's event machine is modelled twice: once with its reset as written, and once with
  the corrected reset of the finding below.
- **The earlier recorder** (`Recorder`). It has its own idle / recording / stopped
  machine, a preview player that keeps at most one audio element audible, and a plain
  upload.
- **Recording cards** (`Card`). Each card creates one audio handle lazily; playback is
  gated on interactability. The module also covers the audio events, description
  truncation and the card's progress bar.
- **Location state** (`Geolocation`, `LocationView`). The location hook and its copy in
  the GPS panel are modelled: single-shot and watched readings, the error-code messages,
  the guarded stop and the panel's clear. Also the watch subscriptions live in the
  browser, the hemisphere letters, the status badges and the buttons offered.
- **The permission dialog** (`Permissions`). It covers the checkbox toggles, the
  continue workflow (microphone, then location), and open/close/Escape handling.
- **The home page** (`Home`). It covers the mapping from database rows to recordings,
  the initial load, the hero → app transition and the mobile-width gate, which shows the notice until a narrow window is measured.
- **The upload endpoint** (`UploadRoute`, `UploadExchange`). It covers the missing-file
  check, timestamp sanitisation, the generated file name and the response shapes. The
  exchange module joins the endpoint's answer to what each recorder does with it.

Distances are an abstract function `Geo = (Coord, Coord) -> Meters` with non-negative
real values, so every threshold rule becomes exact comparison logic. Browser services
(media recorder, audio elements, geolocation, timers, clock) and external services
(database insert, blob storage, HTTP) become event constructors or outcome parameters.

Some behaviour a reader might expect of such an application is not what the code does.
In each case the model follows the code:

- Starting a watch is not idempotent. Each call opens a new subscription. The effect on
  the watch-id change closes the previous one, so at most one stays live
  (`Geolocation.RunKeepsTidy`).
- Readings are never compared by timestamp; every reading replaces the location.
- Nearby cards are playable within 10 m, while map markers unlock within the configured
  interaction distance of 40 m. Both thresholds are kept literally.
- Each recording card owns its own audio handle. There is no application-wide
  single-playback rule; only the earlier recorder's preview keeps one element audible.
- Recordings with unusable coordinates are not filtered out.
- A database insert that fails after a successful upload is not reported separately. The
  insert action rethrows the database error (`src/actions/audio-actions.ts:25-28`), and the modal's single catch shows it as
  "Failed to upload recording: …", the same text as a failed upload
  (`Capture.InsertFailureReadsAsUploadFailure`).

## Model

| member | source | states |
|---|---|---|
| Distances.ThresholdOrder | src/config/distances.ts:1-5 | Load (20 m) is below unload (40 m), so the hysteresis band is 20 m wide, and the interaction distance equals the unload distance. |
| Proximity.LocalThresholdsMatchConfig | src/components/HomePage/NearbyRecording.tsx:7-9 | The panel's own load and unload constants equal the configured ones. |
| Proximity.Visit | src/components/HomePage/NearbyRecording.tsx:61-71 | One loop iteration touches only that recording's id. The id is added only when it was absent and within 20 m, and removed only when it was present and beyond 40 m. Membership afterwards is exactly the reference rule `LoadedAfter`. |
| Proximity.Sweep | src/components/HomePage/NearbyRecording.tsx:50-74 | Ids of recordings not in the current list keep their previous membership. |
| Proximity.UpdateLoaded | src/components/HomePage/NearbyRecording.tsx:44-75 | With no user location the set becomes empty; otherwise unlisted ids are untouched. |
| Proximity.SweepDecides | src/components/HomePage/NearbyRecording.tsx:53-71 | With distinct ids, every listed recording ends up loaded exactly when the reference rule says so, given its previous membership and distance. |
| Proximity.UpdateLoadedIds | src/components/HomePage/NearbyRecording.tsx:44-75 | The loop over the recordings computes the update. The no-location case empties the set, unlisted ids are untouched, and with distinct ids each listed id follows the load/unload/band rule. |
| Proximity.VisibleRecordings | src/components/HomePage/NearbyRecording.tsx:77-80 | The visible list is the order-preserving subsequence of the recordings whose id is loaded. A recording is in it iff it is listed and loaded; when all are loaded it is the whole list. |
| Proximity.RenderNearby | src/components/HomePage/NearbyRecording.tsx:82-114 | Nothing is rendered without a location or without a visible recording. Otherwise there is one card per visible recording, in order, with its distance, playable iff the distance is at most 10 m. |
| Proximity.BandKeepsMembership | src/components/HomePage/NearbyRecording.tsx:61-71 | With distinct ids (which the database keys give, see `Home.MapRowsKeepsIds`): over any number of updates in which the recording stays between 20 m (exclusive) and 40 m (inclusive), its loaded status never changes. |
| Proximity.NoLoadWithoutApproach | src/components/HomePage/NearbyRecording.tsx:63-66 | With distinct ids (which the database keys give, see `Home.MapRowsKeepsIds`): an unloaded recording stays unloaded until some update sees it within 20 m. |
| Proximity.LoadedAreWithinUnload | src/components/HomePage/NearbyRecording.tsx:67-70 | With distinct ids (which the database keys give, see `Home.MapRowsKeepsIds`): after an update every loaded listed recording lies within 40 m. |
| MapView.MarkInteractable | src/components/InteractiveMap.tsx:183-199 | Without a location the recordings come back unchanged. Otherwise the list has the same length and order, every field but the flag is preserved, and the flag is set iff the distance is at most 40 m. |
| MapView.MarkerClickGate | src/components/InteractiveMap.tsx:430-435 | A marker click reaches the handler iff a handler exists and the user is within the interaction distance of that recording. |
| MapView.LoadedImpliesUnlockedMarker | src/components/InteractiveMap.tsx:194-197 | With distinct ids (which the database keys give, see `Home.MapRowsKeepsIds`): every recording the nearby panel has loaded is unlocked on the map. |
| MapView.PlayableCardImpliesUnlockedMarker | src/components/HomePage/NearbyRecording.tsx:111 | A card the panel makes playable lies within the map's interaction distance. |
| MapView.OnLocation | src/components/InteractiveMap.tsx:326-362 | The camera moves iff the map exists, a location is known, following is on, and the move is significant (no previous location, or more than 5 m). It pans iff there was a previous location and the zoom is at least 14; otherwise it sets the view at max(default zoom, current zoom). The previous location is updated whenever the map exists and a location is known, and the auto-move time is stamped only on a move. |
| MapView.OnMoveStart | src/components/InteractiveMap.tsx:269-276 | A manual move switches following off iff more than 1000 ms have passed since the last automatic move; nothing else changes. |
| MapView.UnfollowedCameraStays | src/components/InteractiveMap.tsx:269-276 | Once following is off, no later location or move event turns it back on or moves the camera. |
| MapView.AutoMoveKeepsFollowing | src/components/InteractiveMap.tsx:342-343 | The move start caused by the camera's own movement, within a second, does not switch following off. |
| MapView.TileLayerConfig | src/components/InteractiveMap.tsx:202-260 | Max zoom is 17 for terrain, 19 for default and 20 otherwise. A filter exists (non-empty) only for green and blue. Subdomains are set exactly for the Carto servers, and minimal and blue share the light Carto tiles. |
| MapView.FirstLocationSetsView | src/components/InteractiveMap.tsx:326-362 | With the map's default zoom of 16, the first reading after the map appears sets the view at max(16, current zoom) on that reading. Following stays on, and the reading and move time are remembered. |
| MapView.DefaultStyleIsGreenVoyager | src/components/InteractiveMap.tsx:202-260 | The default style is green: Carto Voyager tiles with the green filter on the tile pane. |
| MapView.TilePaneFilter | src/components/InteractiveMap.tsx:305-323 | The tile pane gets a non-empty filter iff the style is green or blue, and it is the style's filter. |
| Text.NatToString | src/components/VoiceRecordingModal.tsx:203-207 | Decimal printing yields at least one digit, only digits, and one digit exactly for numbers below ten. |
| Text.DecimalRoundTrip | src/components/VoiceRecordingModal.tsx:203-207 | Reading the printed digits back gives the number. |
| Text.PadStart2 | src/components/VoiceRecordingModal.tsx:206 | Padding to two leaves long strings alone and prefixes short ones with zeros. |
| TimeFormat.PaddedSecondsValue | src/components/VoiceRecordingModal.tsx:205-206 | The padded seconds field is two digits denoting the seconds. |
| TimeFormat.FormatTimeRoundTrip | src/components/VoiceRecordingModal.tsx:203-207 | The `m:ss` text parses back to the number of seconds it was printed from. |
| TimeFormat.CardFormatTime | src/components/HomePage/RecordingCard.tsx:27-31 | The card's formatter on a non-negative real position equals the modal's formatter on its floor. |
| UploadClient.ResponseError | src/components/VoiceRecordingModal.tsx:190-192 | A non-ok response shows the body's error when it is a non-empty string, otherwise "Upload failed". |
| UploadClient.ThrownError | src/components/VoiceRecordingModal.tsx:193-197 | A thrown failure shows "Failed to upload recording: " followed by the error's message, or "Unknown error". |
| Capture.Start | src/components/VoiceRecordingModal.tsx:106-149 | A granted start clears error and chunks, enters recording with the clock at 0 and a capturing recorder. A refused start only sets the start error. |
| Capture.StopPressed | src/components/VoiceRecordingModal.tsx:65-70 | Stop acts only while recording with a recorder. It freezes the final time at the clock and stops the recorder; the phase changes later. |
| Capture.Tick | src/components/VoiceRecordingModal.tsx:81-104 | Ticks only matter while recording. Below 60 the clock advances by one; at 60 it stays at 60 and the stop logic runs. The clock never exceeds 60. |
| Capture.DataAvailable | src/components/VoiceRecordingModal.tsx:122-126 | Only non-empty chunks from a live recorder are appended. |
| Capture.RecorderStopped | src/components/VoiceRecordingModal.tsx:128-138 | The recorder's stop event moves the modal to recorded. |
| Capture.ResetAsWritten | src/components/VoiceRecordingModal.tsx:42-56 | As written, reset clears phase, chunks, both clocks, error and uploading, and it leaves a stop event pending whenever the recorder was capturing. |
| Capture.Reset | src/components/VoiceRecordingModal.tsx:42-56 | The corrected reset clears the same fields and also releases the recorder, so no stop event is pending. |
| Capture.Closed | src/components/VoiceRecordingModal.tsx:72-78 | When the parent closes the modal, it resets and clears the closing flag: idle, no chunks, both clocks at 0, no error, not uploading. With the reset as written, a capturing recorder still owes its stop event; with the corrected reset the modal is back at its initial state. |
| Capture.ApplyKeepsValid | src/components/VoiceRecordingModal.tsx:81-104 | Every event keeps the invariant (clocks at most 60, a recorder while recording or while a stop is pending, no empty chunk), both for the modal as written and for the one with the corrected reset. |
| Capture.RunKeepsValid | src/components/VoiceRecordingModal.tsx:80-104 | Any run of events keeps the invariant with either reset, so the clock never exceeds 60. |
| Capture.TicksFromStart | src/components/VoiceRecordingModal.tsx:83-90 | From a fresh start, n ticks put the clock at min(n, 60). The stop is requested only once n exceeds 60, and then the final time is 60. |
| Capture.CeilingStopsCapture | src/components/VoiceRecordingModal.tsx:83-90 | A capture left running past the ceiling ends, once its stop event arrives, recorded with both clocks at 60. |
| Capture.ResetSettles | src/components/VoiceRecordingModal.tsx:42-56 | After the corrected reset the modal stays idle under any events until the start button is pressed. |
| Capture.ResetAsWrittenResurfaces | src/components/VoiceRecordingModal.tsx:42-45 | With the reset as written, cancelling a running capture and then receiving the stop event leaves the modal recorded. |
| Capture.CancelledCaptureResurfaces | src/components/VoiceRecordingModal.tsx:122-138 | The run start, reset, last data, stop event ends `recorded` with the post-reset chunk in the modal as written; with the corrected reset it ends idle and empty. |
| Capture.Send | src/components/VoiceRecordingModal.tsx:151-201 | No chunks: only "No recording to upload", and no calls. Otherwise the upload goes first and the insert happens iff the upload responded ok. The inserted row is unmoderated, carries the returned URL and has X = longitude, Y = latitude. The error is clear iff both steps succeed, the modal closes iff they do, and it is never left uploading. A non-ok response shows the body's error or "Upload failed". A thrown upload and a thrown insert both show "Failed to upload recording: " followed by the message. |
| Capture.InsertFailureReadsAsUploadFailure | src/components/VoiceRecordingModal.tsx:174-197 | An insert that fails after a stored upload leaves the modal in exactly the state a thrown upload with the same message leaves it: both show "Failed to upload recording: …". Only the calls made differ: two against one. |
| Capture.FailedUploadInsertsNothing | src/components/VoiceRecordingModal.tsx:176-192 | A failed or non-ok upload never leads to a database insert. |
| Progress.ShownTime | src/components/RecordingProgressBar.tsx:23-26 | The shown time is the final time once recorded, the running clock otherwise. |
| Progress.BarProgressWidth | src/components/RecordingProgressBar.tsx:20-28 | Idle gives 0. Otherwise the width is the shown time's share of the maximum in percent, capped at 100, full iff the time has reached the maximum. It always lies in [0, 100]. |
| Progress.ModalProgressWidth | src/components/VoiceRecordingModal.tsx:210-222 | The modal's width lies in [0, 100] and is 0 when idle. |
| Progress.ModalMatchesBar | src/components/VoiceRecordingModal.tsx:210-222 | The modal's width rule equals the progress bar's rule with the maximum at 60. |
| Progress.WidthMonotone | src/components/RecordingProgressBar.tsx:20-28 | A later clock value never gives a narrower bar. |
| Progress.TickWidensBar | src/components/VoiceRecordingModal.tsx:210-222 | A timer tick never narrows the bar, and after it the bar is full iff the clock is at 60. |
| Progress.DisplayTime | src/components/RecordingProgressBar.tsx:30-38 | For whatever `formatTime` the bar is given: the text is the shown time printed by it (the final time once recorded, else the clock), then " / ", then the printed maximum. |
| Progress.ModalFormatReadsBack | src/components/RecordingProgressBar.tsx:30-38 | With the modal's `m:ss` formatter, the part before " / " parses back to the shown time and the text ends with the formatted maximum. |
| Progress.TimerText | src/components/RecordingProgressBar.tsx:91-96 | The timer text is shown iff the phase is not idle, and it is the display time for the given formatter. |
| Recorder.Start | src/components/AudioRecorder.tsx:19-61 | A granted start captures into an empty chunk list with the error cleared; a refused one only sets the start error. |
| Recorder.Stop | src/components/AudioRecorder.tsx:63-67 | Stop has an effect only while recording with a capturing recorder. |
| Recorder.DataAvailable | src/components/AudioRecorder.tsx:35-39 | Only non-empty chunks are appended, and nothing else changes. |
| Recorder.RecorderStopped | src/components/AudioRecorder.tsx:41-51 | The stop event makes the recording playable and moves the phase to stopped. |
| Recorder.Reset | src/components/AudioRecorder.tsx:69-80 | Reset gives idle, no chunks, no error, not playing, no upload URL, no object URL; the audio element is untouched. |
| Recorder.PlayRecording | src/components/AudioRecorder.tsx:82-104 | Without a recorded URL nothing happens. Otherwise the previous element is paused and rewound, a new element is referenced, and a rejected play sets the error. At most one element stays audible. |
| Recorder.Ended | src/components/AudioRecorder.tsx:93 | After the ended event nothing is playing. |
| Recorder.ElementError | src/components/AudioRecorder.tsx:94-97 | An element error stops playing and shows "Failed to play recording". |
| Recorder.StopPlayback | src/components/AudioRecorder.tsx:106-112 | Without an element nothing happens; otherwise it is paused and rewound to 0 and nothing plays. |
| Recorder.SecondPlayReleasesFirst | src/components/AudioRecorder.tsx:82-91 | Two previews in a row leave exactly the second element playing. |
| Recorder.Upload | src/components/AudioRecorder.tsx:114-153 | No chunks: an error and no request. Otherwise exactly one request; success stores the returned URL, and the component is never left uploading. A non-ok response shows the body's error or "Upload failed"; a throw shows "Failed to upload recording: " followed by the message, and no URL is kept. |
| Recorder.Apply | src/components/AudioRecorder.tsx:82-112 | Every event keeps at most one element audible. |
| Recorder.ApplyAll | src/components/AudioRecorder.tsx:82-112 | Any run of events keeps at most one element audible. |
| Recorder.AtMostOneAudible | src/components/AudioRecorder.tsx:82-91 | From the initial state, no two audio elements ever play at once. |
| Card.HandlePlayPause | src/components/HomePage/RecordingCard.tsx:46-98 | Out of range: only "Gå närmare för att lyssna". The first permitted press creates the one handle and plays it, or reports the play error. Later presses keep the same handle and toggle pause/play. |
| Card.PressPlay | src/components/HomePage/RecordingCard.tsx:179-180 | The play button does nothing while loading. |
| Card.LoadedMetadata | src/components/HomePage/RecordingCard.tsx:60-63 | Metadata sets the duration and ends loading. |
| Card.TimeUpdate | src/components/HomePage/RecordingCard.tsx:65-67 | A time update sets the current position. |
| Card.Ended | src/components/HomePage/RecordingCard.tsx:69-72 | The ended event stops playing and rewinds the shown position to 0. |
| Card.LoadError | src/components/HomePage/RecordingCard.tsx:74-77 | A load error ends loading and shows "Kunde inte ladda ljudfilen". |
| Card.InteractabilityChanged | src/components/HomePage/RecordingCard.tsx:130-136 | Going out of range with a handle pauses playback; otherwise nothing changes. |
| Card.RunKeepsSingleHandle | src/components/HomePage/RecordingCard.tsx:52-58 | Under any events a card creates at most one audio element, for its own URL, and plays only with one. |
| Card.OutOfRangeStaysSilent | src/components/HomePage/RecordingCard.tsx:47-50 | If every press happens out of range, a silent card stays silent. |
| Card.TruncatedDescription | src/components/HomePage/RecordingCard.tsx:33-38 | Missing or empty gives "Ingen beskrivning". Longer than 16 gives the first 16 characters plus "...". Otherwise it is unchanged. |
| Card.TruncationKeepsPrefix | src/components/HomePage/RecordingCard.tsx:34-38 | The shown text always starts with as much of the description as fits. |
| Card.CardProgressWidth | src/components/HomePage/RecordingCard.tsx:207-208 | 0 when the duration is not positive. Otherwise the width times the duration equals 100 times the position; it lies in [0, 100] for positions inside the track and is full iff the position is the duration. |
| Geolocation.ErrorMessage | src/hooks/useUserLocation.ts:33-48 | Codes 1, 2 and 3 map to their three fixed messages; any other code keeps the mode's default ("Failed to get location" or "Failed to watch location"). |
| Geolocation.ErrorMessageRoundTrip | src/hooks/useUserLocation.ts:76-91 | The message identifies a known code in either mode, and no other code is mistaken for one. |
| Geolocation.ToLocation | src/hooks/useUserLocation.ts:24-29 | The stored location keeps exactly the reading's latitude, longitude, accuracy and timestamp. |
| Geolocation.GetCurrentPosition | src/hooks/useUserLocation.ts:13-20 | Without support only the not-supported error is set; otherwise loading starts and the error is cleared. |
| Geolocation.PositionReceived | src/hooks/useUserLocation.ts:22-32 | A single-shot reading replaces the location wholesale and ends loading. |
| Geolocation.PositionFailed | src/hooks/useUserLocation.ts:33-48 | A single-shot failure shows the mapped message and ends loading. |
| Geolocation.StartWatching | src/hooks/useUserLocation.ts:57-100 | Without support only the error is set. Otherwise the error clears, watching is on, the new id is held and live, the previously held subscription is closed, and the one-live-watch invariant is kept. |
| Geolocation.WatchReading | src/hooks/useUserLocation.ts:66-75 | A reading from a live subscription replaces the location; a cleared subscription delivers nothing. |
| Geolocation.WatchFailed | src/hooks/useUserLocation.ts:76-91 | A watch error shows the mapped message and turns watching off, but keeps the watch id. |
| Geolocation.StopWatching | src/hooks/useUserLocation.ts:102-108 | No watch id: nothing. Otherwise the subscription is cleared, the id forgotten and watching off; no subscription remains live. |
| Geolocation.ClearLocation | src/components/GPSLocation.tsx:116-122 | Clear empties location and error, and stops the watch only when the panel believes it is watching. |
| Geolocation.ApplyKeepsTidy | src/hooks/useUserLocation.ts:110-116 | Every event keeps live subscriptions within the held id, and watching implies holding one. |
| Geolocation.RunKeepsTidy | src/hooks/useUserLocation.ts:110-116 | Any run keeps that invariant, so at most one subscription is ever live. |
| Geolocation.WatchSurvivesError | src/components/GPSLocation.tsx:82-121 | After a watch error, Clear does not stop the subscription, and its next reading brings a location back. |
| LocationView.FormatCoordinate | src/components/LocationControls.tsx:26-35 | The magnitude is the absolute value. Latitude gets N when ≥ 0, else S; longitude gets E when ≥ 0, else W. |
| LocationView.FormatCoordinateRoundTrip | src/components/GPSLocation.tsx:132-141 | Magnitude and hemisphere letter give back the signed coordinate. |
| LocationView.StatusOf | src/components/GPSLocation.tsx:173-177 | The badge status is watching first, then located, then no data. |
| LocationView.LabelsDistinguishStatus | src/components/LocationControls.tsx:56 | Distinct statuses get distinct labels in both the panel ("Watching Location..." / "Location Available" / "No Location Data") and the controls ("Tracking" / "Located" / "No GPS"). |
| LocationView.ControlsFor | src/components/LocationControls.tsx:60-99 | Get Location is disabled iff loading or watching. Track is offered iff not watching, otherwise Stop. Clear appears iff a location and a clear handler exist. The error shows iff it is present and non-empty. |
| LocationView.HintShown | src/components/GPSLocation.tsx:293-301 | The panel's hint shows iff there is no location, no error and no request in flight, so it never shows beside the coordinates or an error. |
| LocationView.ControlsConsistent | src/components/LocationControls.tsx:63-92 | Whenever Get Location is enabled, Track is offered; Clear appears only beside the coordinates. |
| LocationView.ClearShowsNoData | src/components/GPSLocation.tsx:116-122 | After the panel's Clear the badge reads "No Location Data" and no Clear button remains. |
| Permissions.Toggle | src/components/HomePage/PermissionModal.tsx:44-50 | Toggling flips exactly that box, leaves the other alone and hides the warning. |
| Permissions.ToggleTwiceRestores | src/components/HomePage/PermissionModal.tsx:44-48 | Toggling the same box twice restores the boxes. |
| Permissions.ToggleCompletes | src/components/HomePage/PermissionModal.tsx:44-50 | One click enables continue iff it ticks the clicked box while the other box is already ticked. |
| Permissions.TogglesParity | src/components/HomePage/PermissionModal.tsx:44-50 | After any run of clicks, a box is ticked iff its starting state was flipped an odd number of times. |
| Permissions.ContinueEnabledAfterClicks | src/components/HomePage/PermissionModal.tsx:80-93 | From a freshly opened dialog, continue is enabled iff each box was clicked an odd number of times. |
| Permissions.Continue | src/components/HomePage/PermissionModal.tsx:52-78 | With a box unticked: warning, no browser request, no grant. Otherwise the microphone is asked first and the location only after a microphone grant. The parent is told iff both succeed, and any refusal shows the warning. |
| Permissions.Close | src/components/HomePage/PermissionModal.tsx:26-35 | Closing starts the fade-out and keeps boxes and warning. |
| Permissions.Escape | src/components/HomePage/PermissionModal.tsx:109-118 | Escape closes only while open. |
| Permissions.BackdropClick | src/components/HomePage/PermissionModal.tsx:36-42 | A click starts closing iff its target is the backdrop element itself; a click on the panel or its contents leaves the dialog unchanged. |
| Permissions.OpenChanged | src/components/HomePage/PermissionModal.tsx:83-93 | Opening resets both boxes, the warning and the closing flag; a close ends the fade-out. |
| Permissions.FreshDialogAsksNothing | src/components/HomePage/PermissionModal.tsx:53-56 | Continue on a freshly opened dialog never grants and never asks the browser. |
| Permissions.BothTicksReachBrowser | src/components/HomePage/PermissionModal.tsx:58-77 | Once both boxes are ticked, continue reaches the browser and grants iff both requests succeed. |
| Permissions.ClosingStaysRenderedUntilClosed | src/components/HomePage/PermissionModal.tsx:120 | A closing dialog stays on screen until the parent reports it closed. |
| Home.ToRecording | src/components/HomePage/HomePage.tsx:61-69 | The field mapping is id→id, created_at→createdAt, audioname→title, audio_url→audioUrl and description→description; latitude comes from coordinateX and longitude from coordinateY. |
| Home.MapRows | src/components/HomePage/HomePage.tsx:60-69 | Row mapping keeps count and order. |
| Home.MapRowsKeepsIds | src/components/HomePage/HomePage.tsx:61-62 | The recordings carry exactly the rows' ids, so distinct keys give distinct ids. |
| Home.Loaded | src/components/HomePage/HomePage.tsx:53-80 | Falsy data or a failure keeps the current recordings, non-list data gives none, and rows are mapped. |
| Home.StoredCoordinatesSwap | src/components/HomePage/HomePage.tsx:66-67 | A recording written at a position by the send workflow reads back with latitude and longitude exchanged. |
| Home.PermissionsGranted | src/components/HomePage/HomePage.tsx:92-97 | Granting closes the dialog, enters the app and requests a position. |
| Home.Apply | src/components/HomePage/HomePage.tsx:82-113 | No handler changes the view except to the app, and only a grant enters it. |
| Home.NoWayBackToHero | src/components/HomePage/HomePage.tsx:43-101 | No run returns to the hero view, and a run without a grant stays there. |
| Home.ScreenFor | src/components/HomePage/HomePage.tsx:115-149 | The notice is shown whenever the width hook's state is not mobile, whatever the view. That includes the first render, before any measurement, because the state starts false (HomePage.tsx:16). Once a narrow window is measured, the page shows the hero (with the dialog when open) or the app. |
| Home.LatestWidth | src/components/HomePage/HomePage.tsx:18-23 | A run has no last measurement iff it contains no mount or resize reading; otherwise it is the width of a reading that no later reading follows. |
| Home.LatestMeasurementDecides | src/components/HomePage/HomePage.tsx:16-23 | After any run, the page counts as mobile exactly when the last measured width was at most 768; a run without a measurement keeps the starting state. |
| Home.WideScreenAlwaysNotice | src/components/HomePage/HomePage.tsx:115-131 | The first render shows the notice. From page load, a run gets past the notice iff its last measurement was at most 768 wide, so a run whose measurements were all wide, or that has none, shows only the notice. |
| UploadRoute.Sanitised | src/app/api/upload-audio/route.ts:16 | Sanitising keeps the length, turns every ':' and '.' into '-' and leaves other characters unchanged. |
| UploadRoute.SanitiseTimestamp | src/app/api/upload-audio/route.ts:16 | The character loop computes the sanitised timestamp, which contains no ':' or '.'. |
| UploadRoute.SanitisedIdempotent | src/app/api/upload-audio/route.ts:16 | Sanitising twice is sanitising once, and ordinary characters stay in place. |
| UploadRoute.FileName | src/app/api/upload-audio/route.ts:17 | The name's length is the prefix, the timestamp and the extension together. |
| UploadRoute.FileNameShape | src/app/api/upload-audio/route.ts:16-17 | The name is "audio-recording-", the sanitised timestamp and ".webm", and its only '.' starts the extension. |
| UploadRoute.Post | src/app/api/upload-audio/route.ts:4-37 | A form that cannot be read gives 500 "Failed to upload audio file". No audio field: 400 "No audio file provided" and no storage call. Otherwise one public, randomly suffixed put; a thrown failure gives 500 "Failed to upload audio file". Success gives 200 with the URL, the generated name, the file size and `uploadedAt`, a second clock reading. |
| UploadExchange.SentRecordingReachesStorage | src/components/VoiceRecordingModal.tsx:161-174 | The form both recorders post always makes the endpoint put exactly the recorded bytes. It never gets a 400, and the client sees ok iff storage kept the file. |
| UploadExchange.StoredUploadIsInserted | src/components/VoiceRecordingModal.tsx:174-189 | When storage keeps the file, the modal inserts a row whose audio URL is the URL the endpoint returned. Its error is clear iff the insert completes, and then it closes. |
| UploadExchange.StoredUploadIsRemembered | src/components/AudioRecorder.tsx:138-145 | When storage keeps the file, the earlier recorder keeps the returned URL and shows no error. |
| UploadExchange.RefusedUploadShowsServerMessage | src/components/VoiceRecordingModal.tsx:190-192 | Every refused upload is a 400 or 500 with an error body. Both recorders show exactly the endpoint's message, the modal inserts nothing and the recorder keeps no URL. |

## Left out

- Haversine distance (the trigonometry in the nearby panel and the map): distance is the abstract `Geo` function, because its floating-point value is not what the rules depend on.
- Floating point: coordinates, times and widths are exact reals. `toFixed(6)`, `toLocaleString`/`toLocaleDateString`, `Math.round` of the accuracy and the `%` suffix of CSS widths are formatting and are not modelled.
- Coordinates are written to the database as strings; the row keeps the numbers, because the conversion is number formatting.
- Leaflet rendering, marker icons, CSS injection and popups are UI only. The tile attributions are left out, and the tile URLs sit behind a server enumeration.
- Browser services are events or parameters: `MediaRecorder`, `getUserMedia`, `Audio`, `navigator.geolocation` (including its accuracy/timeout options), object URLs, `setInterval`/`setTimeout` (the 200 ms close delays) and `Date.now`.
- External services keep only their outcome. These are the database insert, blob storage's `put` and the HTTP request with its JSON parsing. The moderated-uploads query is not part of this model; its result is the `Fetched` parameter.
- Asynchronous interleavings are collapsed: each awaited step is one transition with its outcome as a parameter (for example, `play()` resolving or rejecting).
- String lengths count code points; JavaScript counts UTF-16 units, so descriptions with characters outside the basic plane are cut differently.
- Markup-only pieces are left out: card expand/collapse, the report button, the map-click and recording-click logging, the help-page navigation, the body scroll lock, the category selector and the static pages.
- The recording card's cleanup effect on a change of recording id is left out; cards are keyed by that id, so it only runs at unmount.
- Home: the width hook's listener removal on unmount and its `maxWidth` parameter (always the default 768) are not modelled; a measurement is the `Measured` event.
- Progress.BarProgressWidth: requires a positive maximum, because with a zero maximum the component divides by zero and renders a non-number width.
- Proximity.SweepDecides: the per-recording rule is stated only for lists with distinct ids, because with a repeated id a later entry can undo an earlier entry's decision in the same pass.
- Proximity.UpdateLoadedIds: its per-recording clause needs distinct ids, for the same reason; the other clauses hold for any list.
- Recorder.Ended: ended and error events are taken to come from the referenced element. The handlers of replaced elements stay attached in the code, but a paused and rewound element does not end.

## Findings

| source | as written | input that shows it | evidently intended | confidence | as-written member | corrected member |
|---|---|---|---|---|---|---|
| src/components/VoiceRecordingModal.tsx:42-56 | Reset calls `stop()` on a recording media recorder, whose stop handler stays attached. That handler later sets the phase to "recorded" after the reset has set "idle". | Start recording, press reset while recording; the recorder's stop event then arrives | Reset leaves the modal idle until a new recording is started | not executed | Capture.ResetAsWritten (Capture.ResetAsWrittenResurfaces, Capture.CancelledCaptureResurfaces) | Capture.Reset (Capture.ResetSettles) |
