/** The server route that stores an uploaded voice file in blob storage and answers with
    its public URL. The form parser, the clock and the storage service are parameters. */
module UploadRoute {
  import opened Wrappers

  const MISSING_FILE_ERROR: string := "No audio file provided"
  const UPLOAD_ERROR: string := "Failed to upload audio file"
  const FILE_PREFIX: string := "audio-recording-"
  const FILE_SUFFIX: string := ".webm"

  /** The uploaded file: its size in bytes and its content. */
  datatype AudioFile = AudioFile(size: nat, content: seq<bv8>)

  /** The request body: unreadable as a form, or a form with or without an `audio`
      field. */
  datatype FormInput = Malformed | Form(audio: Option<AudioFile>)

  /** How the storage call ended. */
  datatype PutOutcome = Stored(url: string) | PutThrew

  /** The storage call the route makes. */
  datatype PutCall = PutCall(pathname: string, file: AudioFile, access: string, addRandomSuffix: bool)

  datatype Body =
    | ErrorBody(error: string)
    | Success(url: string, filename: string, size: nat, uploadedAt: string)

  datatype Response = Response(status: int, body: Body)

  predicate Separator(c: char) {
    c == ':' || c == '.'
  }

  /** The timestamp with every ':' and '.' turned into '-'. */
  function Sanitised(ts: string): (r: string)
    ensures |r| == |ts|
    ensures forall i :: 0 <= i < |ts| ==> r[i] == (if Separator(ts[i]) then '-' else ts[i])
  {
    seq(|ts|, i requires 0 <= i < |ts| => if Separator(ts[i]) then '-' else ts[i])
  }

  /** The same replacement, one character at a time. */
  method SanitiseTimestamp(ts: string) returns (out: string)
    ensures out == Sanitised(ts)
    ensures |out| == |ts|
    ensures forall i :: 0 <= i < |out| ==> !Separator(out[i])
  {
    out := [];
    var k := 0;
    while k < |ts|
      invariant 0 <= k <= |ts|
      invariant |out| == k
      invariant forall i :: 0 <= i < k ==> out[i] == (if Separator(ts[i]) then '-' else ts[i])
    {
      var c := if Separator(ts[k]) then '-' else ts[k];
      out := out + [c];
      k := k + 1;
    }
  }

  /** Sanitising is idempotent, and leaves every other character where it was. */
  lemma SanitisedIdempotent(ts: string)
    ensures Sanitised(Sanitised(ts)) == Sanitised(ts)
    ensures forall i :: 0 <= i < |ts| && !Separator(ts[i]) ==> Sanitised(ts)[i] == ts[i]
  {
  }

  function FileName(timestamp: string): (f: string)
    ensures |f| == |FILE_PREFIX| + |timestamp| + |FILE_SUFFIX|
  {
    FILE_PREFIX + Sanitised(timestamp) + FILE_SUFFIX
  }

  /** The generated name is the fixed prefix, the sanitised timestamp and the extension;
      the only '.' in it is the one that starts the extension, so the timestamp can be cut
      back out. */
  lemma FileNameShape(timestamp: string)
    ensures var f := FileName(timestamp);
      && f[..|FILE_PREFIX|] == FILE_PREFIX
      && f[|f| - |FILE_SUFFIX|..] == FILE_SUFFIX
      && f[|FILE_PREFIX|..|f| - |FILE_SUFFIX|] == Sanitised(timestamp)
      && f[|f| - |FILE_SUFFIX|] == '.'
      && forall i :: 0 <= i < |f| && i != |f| - |FILE_SUFFIX| ==> f[i] != '.'
  {
    var f := FileName(timestamp);
    var s := Sanitised(timestamp);
    var p := |FILE_PREFIX|;
    assert f == FILE_PREFIX + s + FILE_SUFFIX;
    forall i | 0 <= i < |f| && i != |f| - |FILE_SUFFIX| ensures f[i] != '.' {
      if i < p {
        assert f[i] == FILE_PREFIX[i];
      } else if i < p + |s| {
        assert f[i] == s[i - p];
      } else {
        assert f[i] == FILE_SUFFIX[i - p - |s|];
      }
    }
  }

  datatype Outcome = Outcome(response: Response, calls: seq<PutCall>)

  /** The route: an unreadable form or a throwing storage call answers 500; a form without
      a file answers 400 without touching storage; otherwise exactly one public,
      randomly suffixed put is made and the reply carries its URL, the generated name and
      the file's size. `now` and `later` are the two clock readings, already in ISO
      form. */
  function Post(form: FormInput, now: string, later: string, put: PutOutcome): (o: Outcome)
    ensures form.Malformed? ==> o == Outcome(Response(500, ErrorBody(UPLOAD_ERROR)), [])
    ensures form.Form? && form.audio.None? ==>
      o == Outcome(Response(400, ErrorBody(MISSING_FILE_ERROR)), [])
    ensures form.Form? && form.audio.Some? ==>
      && o.calls == [PutCall(FileName(now), form.audio.value, "public", true)]
      && (put.PutThrew? ==> o.response == Response(500, ErrorBody(UPLOAD_ERROR)))
      && (put.Stored? ==>
            o.response == Response(200, Success(put.url, FileName(now), form.audio.value.size, later)))
    ensures o.response.status == 200 <==> form.Form? && form.audio.Some? && put.Stored?
    ensures |o.calls| <= 1
  {
    match form
    case Malformed => Outcome(Response(500, ErrorBody(UPLOAD_ERROR)), [])
    case Form(None) => Outcome(Response(400, ErrorBody(MISSING_FILE_ERROR)), [])
    case Form(Some(file)) =>
      var call := PutCall(FileName(now), file, "public", true);
      match put
      case PutThrew => Outcome(Response(500, ErrorBody(UPLOAD_ERROR)), [call])
      case Stored(url) => Outcome(Response(200, Success(url, FileName(now), file.size, later)), [call])
  }
}
