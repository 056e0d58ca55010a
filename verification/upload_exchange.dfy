/** The upload as a whole: what the recorders send to the upload endpoint, what the
    endpoint answers, and what each recorder makes of that answer. */
module UploadExchange {
  import opened Wrappers
  import opened Types
  import opened Media
  import opened UploadClient
  import opened UploadRoute
  import Capture
  import Recorder

  /** The recorded chunks joined into one blob, in order. */
  function Blob(chunks: seq<Chunk>): seq<bv8>
    decreases |chunks|
  {
    if |chunks| == 0 then [] else chunks[0] + Blob(chunks[1..])
  }

  /** The form both recorders post: the blob under the `audio` field. */
  function SentForm(chunks: seq<Chunk>): (f: FormInput)
    ensures f.Form? && f.audio.Some?
    ensures f.audio.value.content == Blob(chunks) && f.audio.value.size == |Blob(chunks)|
  {
    Form(Some(AudioFile(|Blob(chunks)|, Blob(chunks))))
  }

  /** What the client reads from the endpoint's answer: `ok` for a 2xx status, and the
      JSON body's `url` or `error` field. */
  function Received(resp: Response): (o: FetchOutcome)
    ensures o.Responded?
    ensures o.ok <==> 200 <= resp.status < 300
    ensures resp.body.Success? ==> o.body == UploadBody(Some(resp.body.url), None)
    ensures resp.body.ErrorBody? ==> o.body == UploadBody(None, Some(resp.body.error))
  {
    var body := match resp.body
      case ErrorBody(e) => UploadBody(None, Some(e))
      case Success(url, _, _, _) => UploadBody(Some(url), None);
    Responded(200 <= resp.status < 300, body)
  }

  /** A recorder's post always reaches storage: the endpoint makes exactly one put, of
      the recorded bytes, and the client sees `ok` exactly when the put stored the file. */
  lemma SentRecordingReachesStorage(chunks: seq<Chunk>, now: string, later: string, put: PutOutcome)
    ensures var o := Post(SentForm(chunks), now, later, put);
      && |o.calls| == 1
      && o.calls[0].file.content == Blob(chunks)
      && o.response.status != 400
      && (Received(o.response).ok <==> put.Stored?)
  {
  }

  /** A stored upload reaches the database: the modal's send inserts a row whose audio
      URL is the URL storage returned, and the modal closes once the insert completes. */
  lemma StoredUploadIsInserted(m: Capture.Modal, location: Option<Coord>, category: Capture.Category,
                               now: nat, ts: string, later: string, url: string, insert: Capture.InsertOutcome)
    requires |m.chunks| > 0
    ensures var answer := Received(Post(SentForm(m.chunks), ts, later, Stored(url)).response);
      var r := Capture.Send(m, location, category, now, answer, insert);
      && |r.calls| == 2
      && r.calls[1] == Capture.InsertRequest(Capture.RowFor(Capture.VoiceFileName(now), Some(url), location, category))
      && r.calls[1].row.audioUrl == Some(url)
      && (r.modal.error == None <==> insert.Inserted?)
      && (insert.Inserted? ==> r.modal.closing)
  {
    var answer := Received(Post(SentForm(m.chunks), ts, later, Stored(url)).response);
    assert answer == Responded(true, UploadBody(Some(url), None));
  }

  /** A stored upload is remembered by the earlier recorder: it keeps the returned URL
      and shows no error. */
  lemma StoredUploadIsRemembered(d: Recorder.Draft, now: nat, ts: string, later: string, url: string)
    requires |d.chunks| > 0
    ensures var answer := Received(Post(SentForm(d.chunks), ts, later, Stored(url)).response);
      var r := Recorder.Upload(d, now, answer);
      r.draft.uploadSuccess == Some(url) && r.draft.error == None
  {
    var answer := Received(Post(SentForm(d.chunks), ts, later, Stored(url)).response);
    assert answer == Responded(true, UploadBody(Some(url), None));
  }

  /** A refused upload (400 or 500): both recorders show the endpoint's own message
      rather than the generic one; the modal inserts nothing and the recorder keeps no
      URL. */
  lemma RefusedUploadShowsServerMessage(form: FormInput, ts: string, later: string, put: PutOutcome,
                                        m: Capture.Modal, location: Option<Coord>,
                                        category: Capture.Category, now: nat, insert: Capture.InsertOutcome,
                                        d: Recorder.Draft, recorderNow: nat)
    requires !(form.Form? && form.audio.Some? && put.Stored?)
    requires |m.chunks| > 0 && |d.chunks| > 0
    ensures var resp := Post(form, ts, later, put).response;
      && (resp.status == 400 || resp.status == 500)
      && resp.body.ErrorBody?
      && var sent := Capture.Send(m, location, category, now, Received(resp), insert);
      && sent.modal.error == Some(resp.body.error)
      && (forall k :: 0 <= k < |sent.calls| ==> !sent.calls[k].InsertRequest?)
      && Recorder.Upload(d, recorderNow, Received(resp)).draft.error == Some(resp.body.error)
      && Recorder.Upload(d, recorderNow, Received(resp)).draft.uploadSuccess == None
  {
    var resp := Post(form, ts, later, put).response;
    assert resp.body.error != "";
    assert ResponseError(Received(resp).body) == resp.body.error;
  }
}
