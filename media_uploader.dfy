/** The idea form with a file picker (frontend/src/components/MediaUploader.tsx): its
    client-side type filter, the preview it picks for a chosen file, and the submit
    and reset handlers around the media service. */
module MediaUploader {
  import opened Wrappers
  import opened Text
  import WS = WebSocketService
  import MS = MediaService
  import MediaHandler

  /** The component's `allowedTypes`, as `Object.values` lists it: image, video,
      audio, text. */
  const AllowedGroups: seq<seq<string>> := [
    ["image/jpeg", "image/png"],
    ["video/mp4"],
    ["audio/mpeg", "audio/wav", "audio/mp3"],
    ["text/plain"]]

  /** The seven types the picker accepts. */
  const AcceptedTypes: set<string> := {
    "image/jpeg", "image/png", "video/mp4", "audio/mpeg", "audio/wav", "audio/mp3", "text/plain"}

  /** The groups hold exactly the accepted types. */
  lemma GroupsAreAcceptedTypes()
    ensures forall t :: (exists g :: g in AllowedGroups && t in g) <==> t in AcceptedTypes
  {
    forall t | t in AcceptedTypes ensures exists g :: g in AllowedGroups && t in g {
      if t in AllowedGroups[0] {
        assert AllowedGroups[0] in AllowedGroups;
      } else if t in AllowedGroups[1] {
        assert AllowedGroups[1] in AllowedGroups;
      } else if t in AllowedGroups[2] {
        assert AllowedGroups[2] in AllowedGroups;
      } else {
        assert AllowedGroups[3] in AllowedGroups;
      }
    }
  }

  /** The loop of `handleFileChange`: stops at the first group that includes the
      type. The answer is membership in one of the groups, i.e. in the seven
      accepted types. */
  method CheckAllowed(fileType: string) returns (isAllowed: bool)
    ensures isAllowed <==> fileType in AcceptedTypes
  {
    GroupsAreAcceptedTypes();
    isAllowed := false;
    var i := 0;
    while i < |AllowedGroups|
      invariant 0 <= i <= |AllowedGroups|
      invariant !isAllowed ==> forall j :: 0 <= j < i ==> fileType !in AllowedGroups[j]
      invariant isAllowed ==> exists g :: g in AllowedGroups && fileType in g
      decreases |AllowedGroups| - i
    {
      if fileType in AllowedGroups[i] {
        assert AllowedGroups[i] in AllowedGroups;
        isAllowed := true;
        break;
      }
      i := i + 1;
    }
    if !isAllowed {
      forall g | g in AllowedGroups ensures fileType !in g {
        var j :| 0 <= j < |AllowedGroups| && AllowedGroups[j] == g;
      }
    }
  }

  /** Every type the picker accepts is one the server's upload handler stores; the
      server also stores `text/link`, which the picker refuses. */
  lemma AcceptedTypesAreStored()
    ensures forall t :: t in AcceptedTypes ==> MediaHandler.UploadAccepts(t)
    ensures AcceptedTypes < MediaHandler.AllowedTypes
    ensures MediaHandler.AllowedTypes - AcceptedTypes == {"text/link"}
  {
    assert "text/link" in MediaHandler.AllowedTypes - AcceptedTypes;
  }

  /** A preview: a data URL read from the file (images) or an object URL (video,
      audio). */
  datatype Preview = DataUrl(file: MS.File) | ObjectUrl(file: MS.File)

  /** The preview `handleFileChange` sets for an accepted file, or `None` when it
      leaves the previous one in place (plain text). */
  function PreviewFor(file: MS.File): (p: Option<Preview>)
    ensures p.Some? <==> StartsWith(file.fileType, "image/") || StartsWith(file.fileType, "video/") || StartsWith(file.fileType, "audio/")
    ensures p.Some? ==> p.value.file == file
    ensures p.Some? && p.value.DataUrl? <==> StartsWith(file.fileType, "image/")
  {
    if StartsWith(file.fileType, "image/") then Some(DataUrl(file))
    else if StartsWith(file.fileType, "video/") then Some(ObjectUrl(file))
    else if StartsWith(file.fileType, "audio/") then Some(ObjectUrl(file))
    else None
  }

  /** Among the accepted types only `text/plain` gets no new preview. */
  lemma PreviewOfAccepted(file: MS.File)
    requires file.fileType in AcceptedTypes
    ensures PreviewFor(file).None? <==> file.fileType == "text/plain"
  {
    var t := file.fileType;
    if t == "text/plain" {
      assert t[..6][0] == 't';
    } else {
      assert t[..6] == "image/" || t[..6] == "video/" || t[..6] == "audio/";
    }
  }

  const NoContentError: string := "Please provide content or select a file"

  class Uploader {
    const sessionId: string
    var isUploading: bool
    var content: string
    var selectedFile: Option<MS.File>
    var previewUrl: Option<Preview>
    var error: Option<string>
    /** The file input's `value`, reached through the ref. */
    var inputValue: string

    constructor (sessionId: string)
      ensures this.sessionId == sessionId
      ensures !isUploading && content == "" && selectedFile.None? && previewUrl.None? && error.None?
      ensures inputValue == ""
    {
      this.sessionId := sessionId;
      isUploading := false;
      content := "";
      selectedFile := None;
      previewUrl := None;
      error := None;
      inputValue := "";
    }

    /** `handleFileChange`. The error is cleared first. No file: nothing else. A
        refused type: only the error message. An accepted type: the file is
        selected and the preview replaced for images, video and audio. The
        image preview is set when the reader finishes; here it is set at once. */
    method HandleFileChange(file: Option<MS.File>)
      modifies this`error, this`selectedFile, this`previewUrl
      ensures file.None? ==>
        error.None? && selectedFile == old(selectedFile) && previewUrl == old(previewUrl)
      ensures file.Some? && file.value.fileType !in AcceptedTypes ==>
        && error == Some("File type " + file.value.fileType + " is not allowed")
        && selectedFile == old(selectedFile) && previewUrl == old(previewUrl)
      ensures file.Some? && file.value.fileType in AcceptedTypes ==>
        && error.None? && selectedFile == file
        && previewUrl == (if PreviewFor(file.value).Some? then PreviewFor(file.value) else old(previewUrl))
    {
      error := None;
      if file.None? {
        return;
      }
      var f := file.value;
      var isAllowed := CheckAllowed(f.fileType);
      if !isAllowed {
        error := Some("File type " + f.fileType + " is not allowed");
        return;
      }
      selectedFile := file;
      var preview := PreviewFor(f);
      if preview.Some? {
        previewUrl := preview;
      }
    }

    method HandleContentChange(value: string)
      modifies this`content
      ensures content == value
    {
      content := value;
    }

    /** The part of `handleSubmit` before the `await`: an empty form is refused
        with an error; otherwise the form is marked as uploading and the error
        cleared. */
    method BeginSubmit() returns (proceed: bool)
      modifies this`error, this`isUploading
      ensures proceed <==> content != "" || selectedFile.Some?
      ensures !proceed ==> error == Some(NoContentError) && isUploading == old(isUploading)
      ensures proceed ==> isUploading && error.None?
    {
      if content == "" && selectedFile.None? {
        error := Some(NoContentError);
        return false;
      }
      isUploading := true;
      error := None;
      proceed := true;
    }

    /** The part after the `await`: success resets the form, failure reports the
        thrown message behind `Upload failed: `; either way uploading ends. */
    method FinishSubmit(outcome: Result<(), string>)
      modifies this`content, this`selectedFile, this`previewUrl, this`inputValue, this`error, this`isUploading
      ensures !isUploading
      ensures outcome.Ok? ==>
        content == "" && selectedFile.None? && previewUrl.None? && inputValue == "" && error == old(error)
      ensures outcome.Err? ==>
        && error == Some("Upload failed: " + outcome.error)
        && content == old(content) && selectedFile == old(selectedFile)
        && previewUrl == old(previewUrl) && inputValue == old(inputValue)
    {
      if outcome.Ok? {
        content := "";
        selectedFile := None;
        previewUrl := None;
        inputValue := "";
      } else {
        error := Some("Upload failed: " + outcome.error);
      }
      isUploading := false;
    }

    /** `handleSubmit` as a whole, with the upload's HTTP outcome passed in. */
    method HandleSubmit<H(==)>(ws: WS.WebSocketService<H>, upload: Result<MS.HttpResponse, string>)
      modifies this, ws`outbox
      ensures old(content) == "" && old(selectedFile).None? ==>
        && error == Some(NoContentError) && ws.outbox == old(ws.outbox)
        && isUploading == old(isUploading) && content == old(content) && previewUrl == old(previewUrl)
      ensures (old(content) != "" || old(selectedFile).Some?) ==> !isUploading
      ensures old(selectedFile).Some? && MS.UploadMedia(upload).Err? ==>
        && error == Some("Upload failed: " + MS.UploadMedia(upload).error)
        && ws.outbox == old(ws.outbox)
        && content == old(content) && selectedFile == old(selectedFile) && previewUrl == old(previewUrl)
      ensures old(selectedFile).Some? && MS.UploadMedia(upload).Ok? ==>
        var uploaded := MS.UploadMedia(upload).value;
        && ws.outbox == old(ws.outbox) + WS.Emitted(ws.socket,
             WS.SubmitIdeaMessage(ws.username, sessionId, old(content), uploaded.mediaType, Some(uploaded.url)))
        && error.None? && content == "" && selectedFile.None? && previewUrl.None? && inputValue == ""
      ensures old(content) != "" && old(selectedFile).None? ==>
        && ws.outbox == old(ws.outbox) + WS.Emitted(ws.socket,
             WS.SubmitIdeaMessage(ws.username, sessionId, old(content), "text", None))
        && error.None? && content == "" && selectedFile.None? && previewUrl.None? && inputValue == ""
    {
      var proceed := BeginSubmit();
      if !proceed {
        return;
      }
      var outcome := MS.SubmitIdeaWithMedia(ws, sessionId, content, selectedFile, upload);
      FinishSubmit(outcome);
    }

    /** `handleReset`: drops the file, the preview and the error; the text stays. */
    method HandleReset()
      modifies this`selectedFile, this`previewUrl, this`error, this`inputValue
      ensures selectedFile.None? && previewUrl.None? && error.None? && inputValue == ""
    {
      selectedFile := None;
      previewUrl := None;
      error := None;
      inputValue := "";
    }
  }

  /** A failed HTTP response reaches the form's error with the prefix twice:
      the service already put `Upload failed: ` in front of the status text. */
  lemma FailedResponseMessage(statusText: string, body: MS.UploadResult)
    ensures var e := MS.UploadMedia(Ok(MS.HttpResponse(false, statusText, body)));
      e.Err? && "Upload failed: " + e.error == "Upload failed: Upload failed: " + statusText
  {
  }
}
