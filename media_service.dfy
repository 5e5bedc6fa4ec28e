/** The client's media helpers (frontend/src/services/mediaservice.ts): the URL
    normaliser, the choice of envelope when an idea is submitted with or without a
    file, and the aggregation trigger. The upload's HTTP exchange is a parameter. */
module MediaService {
  import opened Wrappers
  import opened Text
  import WS = WebSocketService

  const ApiUrl: string := "http://localhost:8080"

  /** A browser `File`: its name and its MIME type. */
  datatype File = File(name: string, fileType: string)

  /** The body of a successful upload. */
  datatype UploadResult = UploadResult(url: string, mediaType: string, filename: string)

  /** What `fetch` produced: a response with its `ok` flag, status text and body, or
      a rejection with a message. */
  datatype HttpResponse = HttpResponse(ok: bool, statusText: string, body: UploadResult)

  /** `uploadMedia`: the parsed body of an `ok` response; otherwise the error it throws
      (or the fetch error it rethrows). */
  function UploadMedia(response: Result<HttpResponse, string>): (r: Result<UploadResult, string>)
    ensures r.Ok? <==> response.Ok? && response.value.ok
    ensures r.Ok? ==> r.value == response.value.body
    ensures response.Ok? && !response.value.ok ==> r.error == "Upload failed: " + response.value.statusText
    ensures response.Err? ==> r.error == response.error
  {
    match response
    case Err(e) => Err(e)
    case Ok(resp) => if resp.ok then Ok(resp.body) else Err("Upload failed: " + resp.statusText)
  }

  /** `getMediaUrl`: an `http…` path is returned as is; anything else is appended to
      the API origin, with a slash inserted when missing. */
  function GetMediaUrl(mediaPath: string): string {
    if StartsWith(mediaPath, "http") then mediaPath
    else
      var normalizedPath := if StartsWith(mediaPath, "/") then mediaPath else "/" + mediaPath;
      ApiUrl + normalizedPath
  }

  /** The three cases of `getMediaUrl`. */
  lemma GetMediaUrlCases(mediaPath: string)
    ensures StartsWith(mediaPath, "http") ==> GetMediaUrl(mediaPath) == mediaPath
    ensures !StartsWith(mediaPath, "http") && StartsWith(mediaPath, "/") ==> GetMediaUrl(mediaPath) == ApiUrl + mediaPath
    ensures !StartsWith(mediaPath, "http") && !StartsWith(mediaPath, "/") ==> GetMediaUrl(mediaPath) == ApiUrl + "/" + mediaPath
  {
  }

  /** Every result is absolute (starts with `http`), and the path part after the
      origin always begins with a slash. */
  lemma GetMediaUrlIsAbsolute(mediaPath: string)
    ensures StartsWith(GetMediaUrl(mediaPath), "http")
    ensures !StartsWith(mediaPath, "http") ==>
      StartsWith(GetMediaUrl(mediaPath), ApiUrl + "/")
  {
    if !StartsWith(mediaPath, "http") {
      var p := if StartsWith(mediaPath, "/") then mediaPath else "/" + mediaPath;
      assert p[0] == '/';
      var u := ApiUrl + p;
      assert u[..|ApiUrl| + 1] == ApiUrl + "/";
      assert u[..4] == "http";
    }
  }

  /** Normalising twice is normalising once. */
  lemma GetMediaUrlIdempotent(mediaPath: string)
    ensures GetMediaUrl(GetMediaUrl(mediaPath)) == GetMediaUrl(mediaPath)
  {
    GetMediaUrlIsAbsolute(mediaPath);
  }

  /** A URL the server reports for an upload, `/media/<name>`, resolves under the API
      origin. */
  lemma GetMediaUrlOfUpload(filename: string)
    ensures GetMediaUrl("/media/" + filename) == ApiUrl + "/media/" + filename
  {
    var p := "/media/" + filename;
    assert p[..1] == "/";
    assert p[..4][0] == '/' != "http"[0];
  }

  /** `submitIdeaWithMedia`. With no file: exactly what `submitIdea(sessionId,
      content, 'text')` sends. With a file: the upload settles first; on success one
      `idea_submission` carrying the reported media type and URL and the stored
      username; on failure nothing is sent and the upload's error is rethrown. */
  method SubmitIdeaWithMedia<H(==)>(ws: WS.WebSocketService<H>, sessionId: string, content: string,
                                   file: Option<File>, upload: Result<HttpResponse, string>)
    returns (r: Result<(), string>)
    modifies ws`outbox
    ensures file.None? ==>
      r.Ok? && ws.outbox == old(ws.outbox) + WS.Emitted(ws.socket, WS.SubmitIdeaMessage(ws.username, sessionId, content, "text", None))
    ensures file.Some? && UploadMedia(upload).Err? ==>
      r == Err(UploadMedia(upload).error) && ws.outbox == old(ws.outbox)
    ensures file.Some? && UploadMedia(upload).Ok? ==>
      var uploaded := UploadMedia(upload).value;
      r.Ok? && ws.outbox == old(ws.outbox) + WS.Emitted(ws.socket,
        WS.SubmitIdeaMessage(ws.username, sessionId, content, uploaded.mediaType, Some(uploaded.url)))
  {
    if file.Some? {
      var uploaded := UploadMedia(upload);
      if uploaded.Err? {
        return Err(uploaded.error);
      }
      var username := ws.GetUsername();
      ws.SendMessage(WS.Message("idea_submission", Some(sessionId), None, Some(username),
        WS.IdeaSubmission(content, uploaded.value.mediaType, Some(uploaded.value.url))));
    } else {
      ws.SubmitIdea(sessionId, content, "text");
    }
    r := Ok(());
  }

  /** `triggerAggregation`: exactly what `aggregateIdeas` sends. */
  method TriggerAggregation<H(==)>(ws: WS.WebSocketService<H>, sessionId: string)
    modifies ws`outbox
    ensures ws.outbox == old(ws.outbox) + WS.Emitted(ws.socket, WS.AggregateIdeasMessage(sessionId))
  {
    ws.AggregateIdeas(sessionId);
  }
}
