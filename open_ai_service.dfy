/** Request construction for the completion service
    (backend/services/open_ai_service.go). The remote completion call is a
    function parameter `complete`: given a model name and the user-message
    strings sent, it yields the reply text or an error. */
module OpenAIService {
  import opened Wrappers
  import MediaHandler

  datatype Content = Content(contentType: string, text: string, imageUrl: string)

  datatype Message = Message(role: string, content: Content)

  datatype APIRequest = APIRequest(model: string, messages: seq<Message>)

  /** The remote call, reduced to what the code observes of it. */
  type Completion = (string, seq<string>) -> Result<string, string>

  function CreateContent(contentType: string, text: string, imageUrl: string): Content {
    Content(contentType, text, imageUrl)
  }

  function CreateMessage(role: string, content: Content): Message {
    Message(role, content)
  }

  const SingleModel: string := "gpt-4o-mini"
  const AggregateModel: string := "gpt-4o"

  /** `CreateAPIRequest`: for an allowed type, one user message carrying the type and
      the URL with no text; otherwise the zero request and `invalid media type`. */
  function CreateAPIRequest(mediaType: string, mediaUrl: string): (r: (APIRequest, Option<string>))
    ensures r.1.None? <==> MediaHandler.IsAllowedType(mediaType)
    ensures r.1.None? ==>
      && r.0.model == SingleModel && |r.0.messages| == 1
      && r.0.messages[0] == Message("user", Content(mediaType, "", mediaUrl))
    ensures r.1.Some? ==> r.0 == APIRequest("", []) && r.1.value == "invalid media type"
  {
    if MediaHandler.IsAllowedType(mediaType) then
      (APIRequest(SingleModel, [CreateMessage("user", CreateContent(mediaType, "", mediaUrl))]), None)
    else
      (APIRequest("", []), Some("invalid media type"))
  }

  predicate IsImageType(t: string) { t == "image" || t == "image/jpeg" || t == "image/png" }
  predicate IsAudioType(t: string) { t == "audio" || t == "audio/mp3" || t == "audio/wav" || t == "audio/mpeg" }
  predicate IsVideoType(t: string) { t == "video" || t == "video/mp4" }
  predicate IsTextType(t: string) { t == "text" || t == "text/plain" || t == "text/link" }

  /** The user string `callOpenAI` sends for one message: the switch on content type. */
  function PromptFor(m: Message): string {
    var c := m.content;
    if IsImageType(c.contentType) then
      "Image URL: " + c.imageUrl + "\nPlease describe this image and extract any relevant information from it."
    else if IsAudioType(c.contentType) then
      "Please analyze this audio content at " + c.imageUrl + " and extract key information."
    else if IsVideoType(c.contentType) then
      "Please analyze this video content at " + c.imageUrl + " and extract key information."
    else if IsTextType(c.contentType) then
      if c.text == "" && c.imageUrl != "" then "Please analyze this content: " + c.imageUrl else c.text
    else
      "Please analyze this content: " + c.imageUrl
  }

  /** The prompt for every message the service accepts names its URL, except a text
      message, which carries its own text when it has one. */
  lemma PromptForMentionsUrl(m: Message)
    ensures var t := m.content.contentType;
      !IsTextType(t) || m.content.text == "" ==>
        exists i, j :: 0 <= i <= j <= |PromptFor(m)| && PromptFor(m)[i..j] == m.content.imageUrl
    ensures IsTextType(m.content.contentType) && m.content.text != "" ==> PromptFor(m) == m.content.text
  {
    var p := PromptFor(m);
    var u := m.content.imageUrl;
    var t := m.content.contentType;
    if !IsTextType(t) || m.content.text == "" {
      var pre := if IsImageType(t) then "Image URL: "
        else if IsAudioType(t) then "Please analyze this audio content at "
        else if IsVideoType(t) then "Please analyze this video content at "
        else if IsTextType(t) && u == "" then ""
        else "Please analyze this content: ";
      assert p[..|pre|] == pre;
      assert p[|pre|..|pre| + |u|] == u;
    }
  }

  /** The strings the mapping loop builds: one per message, in order, whatever the role. */
  function Prompts(messages: seq<Message>): (r: seq<string>)
    ensures |r| == |messages| && forall i :: 0 <= i < |messages| ==> r[i] == PromptFor(messages[i])
  {
    seq(|messages|, i requires 0 <= i < |messages| => PromptFor(messages[i]))
  }

  /** The mapping loop of `callOpenAI`. */
  method BuildPrompts(request: APIRequest) returns (prompts: seq<string>)
    ensures prompts == Prompts(request.messages)
  {
    prompts := [];
    var i := 0;
    while i < |request.messages|
      invariant 0 <= i <= |request.messages|
      invariant prompts == Prompts(request.messages[..i])
    {
      prompts := prompts + [PromptFor(request.messages[i])];
      i := i + 1;
    }
    assert request.messages[..i] == request.messages;
  }

  /** `callOpenAI` followed by the unmarshal of `{"content": …}`: the reply text. */
  function CallOpenAI(request: APIRequest, complete: Completion): Result<string, string> {
    complete(request.model, Prompts(request.messages))
  }

  /** `ProcessMedia`, returning the result and the requests sent to the service. */
  function ProcessMedia(mediaType: string, mediaUrl: string, content: string, complete: Completion): (r: (Result<string, string>, seq<APIRequest>))
    ensures |r.1| <= 1
  {
    if (mediaType == "text" || mediaType == "text/plain") && content != "" then
      (Ok(content), [])
    else
      var (request, err) := CreateAPIRequest(mediaType, mediaUrl);
      if err.Some? then (Err(err.value), [])
      else (CallOpenAI(request, complete), [request])
  }

  /** Plain text with content short-circuits: the content itself, no remote call. */
  lemma ProcessTextShortCircuits(mediaType: string, mediaUrl: string, content: string, complete: Completion)
    requires mediaType == "text" || mediaType == "text/plain"
    requires content != ""
    ensures ProcessMedia(mediaType, mediaUrl, content, complete) == (Ok(content), [])
  {
  }

  /** A type outside `IsAllowedType` fails before any remote call. */
  lemma ProcessRejectsBeforeCalling(mediaType: string, mediaUrl: string, content: string, complete: Completion)
    requires !MediaHandler.IsAllowedType(mediaType)
    ensures ProcessMedia(mediaType, mediaUrl, content, complete) == (Err("invalid media type"), [])
  {
    MediaHandler.IsAllowedTypeCharacterization(mediaType);
  }

  /** Any other processing sends exactly one single-message request, whose prompt
      names the URL; a `text/link` item's own content is never sent. */
  lemma ProcessCallsOnce(mediaType: string, mediaUrl: string, content: string, complete: Completion)
    requires MediaHandler.IsAllowedType(mediaType)
    requires !((mediaType == "text" || mediaType == "text/plain") && content != "")
    ensures var r := ProcessMedia(mediaType, mediaUrl, content, complete);
      && |r.1| == 1 && r.1[0].model == SingleModel
      && Prompts(r.1[0].messages) == [PromptFor(Message("user", Content(mediaType, "", mediaUrl)))]
      && r.0 == complete(SingleModel, Prompts(r.1[0].messages))
  {
  }

  datatype Item = Item(mediaType: string, mediaUrl: string, content: string)

  const SystemText: string := "You are tasked with aggregating and summarizing multiple pieces of content across different media types. Provide a comprehensive summary that captures key insights from all sources."
  const SummaryText: string := "Please provide a comprehensive summary and analysis that aggregates all the information above."

  function ItemMessage(item: Item, processed: string): Message {
    CreateMessage("user", Content("text", "Content from " + item.mediaType + ": " + processed, ""))
  }

  /** The item messages for the processed contents, in item order. */
  function ItemMessages(items: seq<Item>, processed: seq<string>): (r: seq<Message>)
    requires |processed| == |items|
    ensures |r| == |items| && forall i :: 0 <= i < |items| ==> r[i] == ItemMessage(items[i], processed[i])
  {
    seq(|items|, i requires 0 <= i < |items| => ItemMessage(items[i], processed[i]))
  }

  /** The message list of the aggregate request. */
  function AggregateMessages(items: seq<Item>, processed: seq<string>): seq<Message>
    requires |processed| == |items|
  {
    [CreateMessage("system", Content("text", SystemText, ""))]
      + ItemMessages(items, processed)
      + [CreateMessage("user", Content("text", SummaryText, ""))]
  }

  /** The aggregate request holds `n + 2` messages: the system text first, one
      `Content from <type>: <content>` per item in order, the summary request last. */
  lemma AggregateMessagesShape(items: seq<Item>, processed: seq<string>)
    requires |processed| == |items|
    ensures var ms := AggregateMessages(items, processed);
      && |ms| == |items| + 2
      && ms[0].role == "system" && ms[0].content.text == SystemText
      && (forall i :: 0 <= i < |items| ==> ms[i + 1].content.text == "Content from " + items[i].mediaType + ": " + processed[i])
      && ms[|ms| - 1].content.text == SummaryText
  {
    var sys := CreateMessage("system", Content("text", SystemText, ""));
    var im := ItemMessages(items, processed);
    var ms := [sys] + im + [CreateMessage("user", Content("text", SummaryText, ""))];
    forall i | 0 <= i < |items| ensures ms[i + 1] == im[i] {
    }
  }

  /** The system message reaches the service as a user string like any other: the
      role is never looked at, so every prompt sent is its text. */
  lemma AggregatePromptsAreTexts(items: seq<Item>, processed: seq<string>)
    requires |processed| == |items|
    ensures var ms := AggregateMessages(items, processed);
      forall i :: 0 <= i < |ms| ==> Prompts(ms)[i] == ms[i].content.text
  {
    var ms := AggregateMessages(items, processed);
    forall i | 0 <= i < |ms| ensures Prompts(ms)[i] == ms[i].content.text {
      assert ms[i].content.contentType == "text" && ms[i].content.imageUrl == "";
    }
  }

  /** Processing the items one after another: their contents, or the first error. */
  function ProcessAll(items: seq<Item>, complete: Completion): (r: Result<seq<string>, string>)
    ensures r.Ok? ==> |r.value| == |items|
    decreases |items|
  {
    if items == [] then Ok([])
    else
      var init := ProcessAll(items[..|items| - 1], complete);
      if init.Err? then init
      else
        var last := items[|items| - 1];
        var (res, _) := ProcessMedia(last.mediaType, last.mediaUrl, last.content, complete);
        if res.Err? then Err(res.error) else Ok(init.value + [res.value])
  }

  /** `AggregateMedia`: the first item that fails to process aborts with its error
      and no aggregate request; otherwise one `gpt-4o` request over the built
      messages, whose reply is the result. */
  method AggregateMedia(items: seq<Item>, complete: Completion) returns (r: Result<string, string>, request: Option<APIRequest>)
    ensures ProcessAll(items, complete).Err? ==> r == Err(ProcessAll(items, complete).error) && request == None
    ensures ProcessAll(items, complete).Ok? ==>
      && request == Some(APIRequest(AggregateModel, AggregateMessages(items, ProcessAll(items, complete).value)))
      && r == CallOpenAI(request.value, complete)
  {
    var messages := [CreateMessage("system", Content("text", SystemText, ""))];
    ghost var processed: seq<string> := [];
    var i := 0;
    while i < |items|
      invariant 0 <= i <= |items|
      invariant ProcessAll(items[..i], complete) == Ok(processed)
      invariant |processed| == i
      invariant messages == [CreateMessage("system", Content("text", SystemText, ""))] + ItemMessages(items[..i], processed)
    {
      assert items[..i + 1][..i] == items[..i];
      var (content, _) := ProcessMedia(items[i].mediaType, items[i].mediaUrl, items[i].content, complete);
      if content.Err? {
        ProcessAllStopsAtFailure(items, i + 1, complete);
        return Err(content.error), None;
      }
      messages := messages + [CreateMessage("user", Content("text", "Content from " + items[i].mediaType + ": " + content.value, ""))];
      processed := processed + [content.value];
      i := i + 1;
    }
    assert items[..i] == items;
    messages := messages + [CreateMessage("user", Content("text", SummaryText, ""))];
    var req := APIRequest(AggregateModel, messages);
    request := Some(req);
    r := CallOpenAI(req, complete);
  }

  /** Once a prefix of the items fails, processing all of them fails the same way. */
  lemma {:induction false} ProcessAllStopsAtFailure(items: seq<Item>, n: nat, complete: Completion)
    requires 0 < n <= |items| && ProcessAll(items[..n], complete).Err?
    ensures ProcessAll(items, complete) == ProcessAll(items[..n], complete)
    decreases |items| - n
  {
    if n < |items| {
      var longer := items[..n + 1];
      assert longer[..n] == items[..n];
      ProcessAllStopsAtFailure(items, n + 1, complete);
    } else {
      assert items[..n] == items;
    }
  }

  /** `min`: the smaller argument. */
  function Min(a: int, b: int): (r: int)
    ensures r <= a && r <= b && (r == a || r == b)
  {
    if a < b then a else b
  }

  /** The logged slice `content[:min(len(content), 100)]` is always in bounds. */
  lemma LogSliceInBounds(content: string)
    ensures 0 <= Min(|content|, 100) <= |content|
    ensures |content| >= 100 ==> Min(|content|, 100) == 100
  {
  }
}
