/** The media allowlist and the upload handler's derivations
    (backend/handlers/media.go). */
module MediaHandler {
  import opened Wrappers
  import opened Text

  /** The eight content types the server stores. */
  const AllowedTypes: set<string> := {
    "image/jpeg", "image/png", "audio/mp3", "audio/wav", "audio/mpeg",
    "video/mp4", "text/plain", "text/link"}

  /** The four major types of the allowlist. */
  const MajorTypes: set<string> := {"image", "audio", "video", "text"}

  /** `IsAllowedType`: an exact allowlist entry, or a prefix `m` such that some entry
      starts with `m + "/"`. Go visits the map in no fixed order; the answer does
      not depend on it, so the search is an existential here. */
  predicate IsAllowedType(mediaType: string) {
    || mediaType in AllowedTypes
    || exists fullType :: fullType in AllowedTypes && StartsWith(fullType, mediaType + "/")
  }

  /** When `full` is `major/minor` with one slash, the only `m` such that `full`
      starts with `m + "/"` is `major`. */
  lemma SlashPrefixIsMajor(full: string, major: string, minor: string, m: string)
    requires full == major + "/" + minor && '/' !in major && '/' !in minor
    requires StartsWith(full, m + "/")
    ensures m == major
  {
    var p := m + "/";
    assert full[|m|] == p[|m|] == '/';
    assert forall i :: 0 <= i < |major| ==> full[i] == major[i];
    assert forall i :: |major| < i < |full| ==> full[i] == minor[i - |major| - 1];
    assert |m| == |major|;
    assert m == p[..|m|] == full[..|m|];
    assert full[..|major|] == major;
  }

  /** Exactly the eight allowlisted types and the four bare major types pass. */
  lemma IsAllowedTypeCharacterization(mediaType: string)
    ensures IsAllowedType(mediaType) <==> mediaType in AllowedTypes || mediaType in MajorTypes
  {
    if mediaType in MajorTypes {
      var full := if mediaType == "image" then "image/png"
        else if mediaType == "audio" then "audio/mp3"
        else if mediaType == "video" then "video/mp4"
        else "text/plain";
      assert full[..|mediaType| + 1] == mediaType + "/";
    }
    if mediaType !in AllowedTypes && IsAllowedType(mediaType) {
      var full :| full in AllowedTypes && StartsWith(full, mediaType + "/");
      if full == "image/jpeg" { SlashPrefixIsMajor(full, "image", "jpeg", mediaType); }
      else if full == "image/png" { SlashPrefixIsMajor(full, "image", "png", mediaType); }
      else if full == "audio/mp3" { SlashPrefixIsMajor(full, "audio", "mp3", mediaType); }
      else if full == "audio/wav" { SlashPrefixIsMajor(full, "audio", "wav", mediaType); }
      else if full == "audio/mpeg" { SlashPrefixIsMajor(full, "audio", "mpeg", mediaType); }
      else if full == "video/mp4" { SlashPrefixIsMajor(full, "video", "mp4", mediaType); }
      else if full == "text/plain" { SlashPrefixIsMajor(full, "text", "plain", mediaType); }
      else { SlashPrefixIsMajor(full, "text", "link", mediaType); }
    }
  }

  /** Examples at the edges: the empty string and an image type outside the list fail. */
  lemma IsAllowedTypeRejects()
    ensures !IsAllowedType("") && !IsAllowedType("image/gif") && !IsAllowedType("application/pdf")
    ensures IsAllowedType("image") && IsAllowedType("text/link")
  {
    IsAllowedTypeCharacterization("");
    IsAllowedTypeCharacterization("image/gif");
    IsAllowedTypeCharacterization("application/pdf");
    IsAllowedTypeCharacterization("image");
  }

  /** The upload handler's check `allowedTypes[contentType]`: exact membership only. */
  predicate UploadAccepts(contentType: string) {
    contentType in AllowedTypes
  }

  /** The upload check is strictly narrower than `IsAllowedType`. */
  lemma UploadCheckIsStricter(contentType: string)
    ensures UploadAccepts(contentType) ==> IsAllowedType(contentType)
    ensures IsAllowedType("video") && !UploadAccepts("video")
  {
    IsAllowedTypeCharacterization("video");
  }

  /** The multipart part named `media`, as the handler sees it. */
  datatype FilePart = FilePart(filename: string, contentType: string)

  datatype Request = Request(httpMethod: string, media: Option<FilePart>)

  /** Whether each file-system step succeeds: creating the media directory, creating
      the destination file, copying the upload into it. */
  datatype Storage = Storage(mkdirOk: bool, createOk: bool, copyOk: bool)

  datatype Response =
    | Failure(status: nat, body: string)
    | Uploaded(url: string, mediaType: string, filename: string)

  /** `UploadMediaHandler`, with the generated uuid and the file-system outcomes
      passed in; each `http.Error` is a `Failure` with its status and text. */
  function UploadMedia(req: Request, uuid: string, storage: Storage): Response {
    if req.httpMethod != "POST" then Failure(405, "Method not allowed")
    else if req.media.None? then Failure(400, "Error retrieving media file")
    else
      var part := req.media.value;
      if !UploadAccepts(part.contentType) then Failure(415, "Invalid file type")
      else if !storage.mkdirOk then Failure(500, "Failed to create media directory")
      else
        var filename := uuid + Ext(part.filename);
        if !storage.createOk then Failure(500, "Server error")
        else if !storage.copyOk then Failure(500, "Failed to save file")
        else Uploaded("/media/" + filename, Split(part.contentType, '/')[0], filename)
  }

  /** An upload succeeds exactly for a POST carrying a `media` part of an allowlisted
      type when every file-system step succeeds. */
  lemma UploadSucceedsIff(req: Request, uuid: string, storage: Storage)
    ensures UploadMedia(req, uuid, storage).Uploaded? <==>
      && req.httpMethod == "POST" && req.media.Some? && UploadAccepts(req.media.value.contentType)
      && storage.mkdirOk && storage.createOk && storage.copyOk
  {
  }

  lemma AllowedTypesHaveSlash()
    ensures forall t :: t in AllowedTypes ==> '/' in t
  {
    forall t | t in AllowedTypes ensures '/' in t {
      assert t[4] == '/' || t[5] == '/';
    }
  }

  /** The first piece of a split on `/` of a string containing `/` is followed by it. */
  lemma HeadBeforeSlash(s: string)
    requires '/' in s
    ensures var head := Split(s, '/')[0];
      |head| < |s| && s[..|head| + 1] == head + "/" && '/' !in head
  {
    var head := Split(s, '/')[0];
    SplitHead(s, '/');
    assert s[..|head| + 1] == s[..|head|] + [s[|head|]];
  }

  /** The part of an allowlisted content type before its slash is a major type. */
  lemma MajorPartOfAllowed(contentType: string)
    requires contentType in AllowedTypes
    ensures var head := Split(contentType, '/')[0];
      && |head| < |contentType|
      && contentType[..|head| + 1] == head + "/"
      && head in MajorTypes
  {
    AllowedTypesHaveSlash();
    HeadBeforeSlash(contentType);
    var head := Split(contentType, '/')[0];
    assert StartsWith(contentType, head + "/");
    IsAllowedTypeCharacterization(head);
  }

  /** An accepted upload is stored as the uuid followed by the original file's
      extension, and its URL is that name under `/media/`. */
  lemma UploadedNameAndUrl(req: Request, uuid: string, storage: Storage)
    requires UploadMedia(req, uuid, storage).Uploaded?
    ensures var r := UploadMedia(req, uuid, storage);
      && r.filename == uuid + Ext(req.media.value.filename)
      && StartsWith(r.filename, uuid)
      && r.url == "/media/" + r.filename
  {
    var r := UploadMedia(req, uuid, storage);
    assert r.filename[..|uuid|] == uuid;
  }

  lemma UploadedMediaTypeIsHead(req: Request, uuid: string, storage: Storage) returns (head: string)
    requires UploadMedia(req, uuid, storage).Uploaded?
    ensures req.media.Some? && UploadAccepts(req.media.value.contentType)
    ensures head == Split(req.media.value.contentType, '/')[0] == UploadMedia(req, uuid, storage).mediaType
  {
    head := Split(req.media.value.contentType, '/')[0];
  }

  /** An accepted upload reports as its media type the content type's part before
      the slash: a major type, which `IsAllowedType` accepts. */
  lemma UploadedMediaType(req: Request, uuid: string, storage: Storage)
    requires UploadMedia(req, uuid, storage).Uploaded?
    ensures var r := UploadMedia(req, uuid, storage);
      && StartsWith(req.media.value.contentType, r.mediaType + "/")
      && r.mediaType in MajorTypes
      && IsAllowedType(r.mediaType)
  {
    var ct := req.media.value.contentType;
    var head := UploadedMediaTypeIsHead(req, uuid, storage);
    MajorPartOfAllowed(ct);
    IsAllowedTypeCharacterization(head);
  }
}
