/**
  The serverless function behind `/api/get-transcript`. It answers CORS
  preflight requests, accepts a POST carrying a `videoId`, looks the video up,
  fetches its transcript, asks a chat completion for tags and returns the
  video details, a shortened transcript and the parsed tags.

  The three outside services and `JSON.parse` are inputs: each step that can
  throw is a `Call`, which either returned a value or threw with a message.
  The outcome records, besides the response, the external calls the handler
  made, in order, so that "no call was made" can be stated.
 */
module TranscriptHandler {

  import opened Wrappers
  import opened JsStrings
  import opened Tags

  /** A JSON value, as far as the handler looks at it: only its truthiness matters. */
  datatype JsonValue =
    | Undefined
    | Null
    | Bool(b: bool)
    | Num(x: real)
    | Str(s: string)
    | Composite

  /** JavaScript truthiness (`NaN` is not modelled). */
  predicate Truthy(v: JsonValue) {
    match v
    case Undefined => false
    case Null => false
    case Bool(b) => b
    case Num(x) => x != 0.0
    case Str(s) => s != []
    case Composite => true
  }

  /** The result of a step that may throw. */
  datatype Call<T> = Threw(message: string) | Returned(value: T)

  /**
    The part of a video's metadata snippet the handler passes on. The service's
    `thumbnails` object is passed through unchanged; the model reduces it to a
    URL per size name.
  */
  datatype Snippet = Snippet(title: string, description: string, thumbnails: map<string, string>)

  /** One entry of the transcript service's answer; a missing `text` is `None`. */
  datatype Fragment = Fragment(text: Option<string>)

  /**
    The incoming event. `request` is the outcome of `JSON.parse(event.body)`
    followed by reading its `videoId` field: it throws on malformed JSON and on a
    body that parses to `null`.
   */
  datatype Event = Event(httpMethod: string, request: Call<JsonValue>)

  /** The two environment variables; an unset variable is `None`. */
  datatype Env = Env(youtubeApiKey: Option<string>, openAiApiKey: Option<string>)

  /**
    What the three services answer: the metadata response's `items` (absent is
    `None`), the transcript fragments (`null` or `undefined` is `None`) and the
    completion's message content.
   */
  datatype Upstream = Upstream(
    videos: Call<Option<seq<Snippet>>>,
    transcript: Call<Option<seq<Fragment>>>,
    completion: Call<string>)

  /** The variable parts of the prompt; its fixed wording is not modelled. */
  datatype Prompt = Prompt(title: string, description: string, transcriptExcerpt: string)

  /** A request the handler sends to an outside service. */
  datatype ExternalCall =
    | ListVideos(videoId: JsonValue, apiKey: string)
    | FetchTranscript(videoId: JsonValue)
    | CreateChatCompletion(prompt: Prompt, apiKey: string)

  /** The JSON body of a response. */
  datatype Body =
    | Acknowledged(message: string)
    | Failed(error: string)
    | Crashed(error: string, details: string)
    | Tagged(videoDetails: Snippet, transcript: string, tags: seq<string>)

  datatype Response = Response(statusCode: int, headers: seq<(string, string)>, body: Body)

  /** The response together with the external calls made, in order. */
  datatype Outcome = Outcome(response: Response, calls: seq<ExternalCall>)

  /** The headers sent with every response. */
  const CorsHeaders: seq<(string, string)> := [
    ("Access-Control-Allow-Origin", "*"),
    ("Access-Control-Allow-Headers", "Content-Type"),
    ("Access-Control-Allow-Methods", "GET, POST, OPTIONS")
  ]

  const StatusCodes: set<int> := {200, 400, 404, 405, 500}

  const PreflightMessage := "Preflight call successful"
  const MethodNotAllowed := "Method not allowed"
  const VideoIdRequired := "videoId is required"
  const KeysNotConfigured := "API keys not configured"
  const VideoNotFound := "Video not found or is private"
  const TranscriptNotAvailable := "Transcript not available for this video"
  const ProcessingFailed := "An error occurred processing your request"

  /** At most this many transcript characters go into the prompt. */
  const PromptExcerptLength: nat := 4000
  /** At most this many transcript characters go back to the page. */
  const ReturnedExcerptLength: nat := 1000
  const Ellipsis := "..."

  /** An environment variable is usable when it is set and not empty. */
  predicate KeyPresent(key: Option<string>) {
    key.Some? && key.value != []
  }

  function Respond(statusCode: int, body: Body, calls: seq<ExternalCall>): Outcome {
    Outcome(Response(statusCode, CorsHeaders, body), calls)
  }

  /** What the catch block returns for an exception with the given message. */
  function Crash(message: string, calls: seq<ExternalCall>): Outcome {
    Respond(500, Crashed(ProcessingFailed, message), calls)
  }

  /** `item.text` for each fragment; `join` writes a missing text as the empty string. */
  function FragmentTexts(fragments: seq<Fragment>): (texts: seq<string>)
    ensures |texts| == |fragments|
    ensures forall i :: 0 <= i < |fragments| ==>
      texts[i] == (if fragments[i].text.Some? then fragments[i].text.value else [])
  {
    if fragments == [] then []
    else [if fragments[0].text.Some? then fragments[0].text.value else []] + FragmentTexts(fragments[1..])
  }

  /** The plain-text transcript: the fragment texts joined with single spaces. */
  function TranscriptText(fragments: seq<Fragment>): (t: string)
    ensures fragments == [] ==> t == []
    ensures fragments != [] ==> |t| == TotalLength(FragmentTexts(fragments)) + |fragments| - 1
  {
    if fragments == [] then []
    else
      JoinLength(FragmentTexts(fragments), " ");
      Join(FragmentTexts(fragments), " ")
  }

  /** The transcript as returned to the page: its first 1000 characters followed by "...". */
  function ShortTranscript(transcript: string): (r: string)
    ensures |r| == (if |transcript| <= ReturnedExcerptLength then |transcript| else ReturnedExcerptLength) + |Ellipsis|
    ensures r[..|r| - |Ellipsis|] <= transcript && r[|r| - |Ellipsis|..] == Ellipsis
  {
    var head := Prefix(transcript, ReturnedExcerptLength);
    assert (head + Ellipsis)[..|head|] == head;
    head + Ellipsis
  }

  /** The metadata lookup comes first, the transcript second, the completion last; each at most once. */
  predicate InCallOrder(calls: seq<ExternalCall>) {
    && |calls| <= 3
    && (|calls| >= 1 ==> calls[0].ListVideos?)
    && (|calls| >= 2 ==> calls[1].FetchTranscript?)
    && (|calls| >= 3 ==> calls[2].CreateChatCompletion?)
  }

  /** The calls a request that gets all the way to the completion makes, in this order. */
  function FullTrace(videoId: JsonValue, env: Env, prompt: Prompt): seq<ExternalCall>
    requires KeyPresent(env.youtubeApiKey) && KeyPresent(env.openAiApiKey)
  {
    [ListVideos(videoId, env.youtubeApiKey.value), FetchTranscript(videoId),
     CreateChatCompletion(prompt, env.openAiApiKey.value)]
  }

  /** The prompt built from a video's details and its transcript. */
  function PromptFor(details: Snippet, transcript: string): (p: Prompt)
    ensures p.title == details.title && p.description == details.description
    ensures |p.transcriptExcerpt| <= PromptExcerptLength
    ensures p.transcriptExcerpt <= transcript
    ensures |transcript| > PromptExcerptLength ==> |p.transcriptExcerpt| == PromptExcerptLength
    ensures |transcript| <= PromptExcerptLength ==> p.transcriptExcerpt == transcript
  {
    Prompt(details.title, details.description, Prefix(transcript, PromptExcerptLength))
  }

  /** The handler: a chain of early returns, the last of which answers with the tags. */
  function Handle(event: Event, env: Env, up: Upstream): (out: Outcome)
    ensures out.response.headers == CorsHeaders
    ensures out.response.statusCode in StatusCodes
    ensures InCallOrder(out.calls)
  {
    if event.httpMethod == "OPTIONS" then
      Respond(200, Acknowledged(PreflightMessage), [])
    else if event.httpMethod != "POST" then
      Respond(405, Failed(MethodNotAllowed), [])
    else
      match event.request
      case Threw(message) => Crash(message, [])
      case Returned(videoId) => HandlePost(videoId, env, up)
  }

  /** The POST path once the body has been parsed: the checks, then the metadata lookup. */
  function HandlePost(videoId: JsonValue, env: Env, up: Upstream): (out: Outcome)
    ensures out.response.headers == CorsHeaders
    ensures out.response.statusCode in {200, 400, 404, 500}
    ensures InCallOrder(out.calls)
  {
    if !Truthy(videoId) then
      Respond(400, Failed(VideoIdRequired), [])
    else if !KeyPresent(env.youtubeApiKey) || !KeyPresent(env.openAiApiKey) then
      Respond(500, Failed(KeysNotConfigured), [])
    else
      var calls := [ListVideos(videoId, env.youtubeApiKey.value)];
      match up.videos
      case Threw(message) => Crash(message, calls)
      case Returned(items) =>
        if items.None? || items.value == [] then
          Respond(404, Failed(VideoNotFound), calls)
        else
          HandleVideo(videoId, env, items.value[0], up)
  }

  /** After the video was found: the transcript lookup, then the completion. */
  function HandleVideo(videoId: JsonValue, env: Env, details: Snippet, up: Upstream): (out: Outcome)
    requires KeyPresent(env.youtubeApiKey) && KeyPresent(env.openAiApiKey)
    ensures out.response.headers == CorsHeaders
    ensures out.response.statusCode in {200, 404, 500}
    ensures 2 <= |out.calls| <= 3
    ensures out.calls[0] == ListVideos(videoId, env.youtubeApiKey.value)
    ensures out.calls[1] == FetchTranscript(videoId)
    ensures |out.calls| == 3 ==> out.calls[2].CreateChatCompletion?
    ensures |out.calls| == 3 <==> up.transcript.Returned? && up.transcript.value.Some? && up.transcript.value.value != []
  {
    var calls := [ListVideos(videoId, env.youtubeApiKey.value), FetchTranscript(videoId)];
    match up.transcript
    case Threw(message) => Crash(message, calls)
    case Returned(data) =>
      if data.None? || data.value == [] then
        Respond(404, Failed(TranscriptNotAvailable), calls)
      else
        var transcript := TranscriptText(data.value);
        var prompt := PromptFor(details, transcript);
        var calls' := FullTrace(videoId, env, prompt);
        match up.completion
        case Threw(message) => Crash(message, calls')
        case Returned(content) =>
          Respond(200, Tagged(details, ShortTranscript(transcript), ParseTags(content)), calls')
  }

  // Which steps a request reaches: each is the previous one plus the guard that lets it through.

  /** The body is parsed: the request is a POST. */
  predicate ReachesParse(event: Event) {
    event.httpMethod == "POST"
  }

  /** The metadata service is called: a truthy `videoId` and both keys. */
  predicate ReachesMetadata(event: Event, env: Env) {
    && ReachesParse(event)
    && event.request.Returned?
    && Truthy(event.request.value)
    && KeyPresent(env.youtubeApiKey)
    && KeyPresent(env.openAiApiKey)
  }

  /** The transcript service is called: the metadata call returned at least one item. */
  predicate ReachesTranscript(event: Event, env: Env, up: Upstream) {
    && ReachesMetadata(event, env)
    && up.videos.Returned?
    && up.videos.value.Some?
    && up.videos.value.value != []
  }

  /** The completion service is called: the transcript call returned at least one fragment. */
  predicate ReachesCompletion(event: Event, env: Env, up: Upstream) {
    && ReachesTranscript(event, env, up)
    && up.transcript.Returned?
    && up.transcript.value.Some?
    && up.transcript.value.value != []
  }

  /** A preflight request is acknowledged whatever its body, the keys or the services. */
  lemma {:induction false} PreflightAlwaysSucceeds(event: Event, env: Env, up: Upstream)
    requires event.httpMethod == "OPTIONS"
    ensures Handle(event, env, up) == Outcome(Response(200, CorsHeaders, Acknowledged(PreflightMessage)), [])
  {
  }

  /** 405 comes exactly from methods other than OPTIONS and POST, and calls nothing. */
  lemma {:induction false} MethodNotAllowedIff(event: Event, env: Env, up: Upstream)
    ensures Handle(event, env, up).response.statusCode == 405
      <==> event.httpMethod != "OPTIONS" && event.httpMethod != "POST"
    ensures Handle(event, env, up).response.statusCode == 405
      ==> Handle(event, env, up).response.body == Failed(MethodNotAllowed) && Handle(event, env, up).calls == []
  {
  }

  /** 400 comes exactly from a POST whose `videoId` is falsy, and calls nothing. */
  lemma {:induction false} VideoIdRequiredIff(event: Event, env: Env, up: Upstream)
    ensures Handle(event, env, up).response.statusCode == 400
      <==> ReachesParse(event) && event.request.Returned? && !Truthy(event.request.value)
    ensures Handle(event, env, up).response.statusCode == 400
      ==> Handle(event, env, up).response.body == Failed(VideoIdRequired) && Handle(event, env, up).calls == []
  {
  }

  /** A missing key is reported before any outside service is called. */
  lemma {:induction false} KeysCheckedFirst(event: Event, env: Env, up: Upstream)
    ensures Handle(event, env, up).response.body == Failed(KeysNotConfigured)
      <==> && ReachesParse(event) && event.request.Returned? && Truthy(event.request.value)
           && !(KeyPresent(env.youtubeApiKey) && KeyPresent(env.openAiApiKey))
    ensures Handle(event, env, up).response.body == Failed(KeysNotConfigured)
      ==> Handle(event, env, up).response.statusCode == 500 && Handle(event, env, up).calls == []
  {
  }

  /** No items from the metadata service: 404, and the transcript service is never consulted. */
  lemma {:induction false} VideoNotFoundIff(event: Event, env: Env, up: Upstream)
    ensures Handle(event, env, up).response.body == Failed(VideoNotFound)
      <==> && ReachesMetadata(event, env) && up.videos.Returned?
           && (up.videos.value.None? || up.videos.value.value == [])
    ensures Handle(event, env, up).response.body == Failed(VideoNotFound)
      ==> && Handle(event, env, up).response.statusCode == 404
          && Handle(event, env, up).calls == [ListVideos(event.request.value, env.youtubeApiKey.value)]
  {
  }

  /** No fragments from the transcript service: 404, and the completion service is never consulted. */
  lemma {:induction false} TranscriptNotAvailableIff(event: Event, env: Env, up: Upstream)
    ensures Handle(event, env, up).response.body == Failed(TranscriptNotAvailable)
      <==> && ReachesTranscript(event, env, up) && up.transcript.Returned?
           && (up.transcript.value.None? || up.transcript.value.value == [])
    ensures Handle(event, env, up).response.body == Failed(TranscriptNotAvailable)
      ==> Handle(event, env, up).response.statusCode == 404 && |Handle(event, env, up).calls| == 2
  {
  }

  /** 404 means one of the two lookups found nothing. */
  lemma {:induction false} NotFoundMeaning(event: Event, env: Env, up: Upstream)
    ensures Handle(event, env, up).response.statusCode == 404
      <==> Handle(event, env, up).response.body in {Failed(VideoNotFound), Failed(TranscriptNotAvailable)}
  {
  }

  /** The message of the first step that threw, among the steps the request reaches. */
  function FirstException(event: Event, env: Env, up: Upstream): Option<string> {
    if ReachesParse(event) && event.request.Threw? then Some(event.request.message)
    else if ReachesMetadata(event, env) && up.videos.Threw? then Some(up.videos.message)
    else if ReachesTranscript(event, env, up) && up.transcript.Threw? then Some(up.transcript.message)
    else if ReachesCompletion(event, env, up) && up.completion.Threw? then Some(up.completion.message)
    else None
  }

  /** Every exception on the way, and only an exception, ends in 500 with the error's message as details. */
  lemma {:induction false} ExceptionsAreCaught(event: Event, env: Env, up: Upstream)
    ensures Handle(event, env, up).response.body.Crashed? <==> FirstException(event, env, up).Some?
    ensures FirstException(event, env, up).Some? ==>
      && Handle(event, env, up).response.statusCode == 500
      && Handle(event, env, up).response.body == Crashed(ProcessingFailed, FirstException(event, env, up).value)
  {
  }

  /** A service is called exactly when the request reaches it, and the calls come in order. */
  lemma {:induction false} CallsMade(event: Event, env: Env, up: Upstream)
    ensures |Handle(event, env, up).calls| ==
      if ReachesCompletion(event, env, up) then 3
      else if ReachesTranscript(event, env, up) then 2
      else if ReachesMetadata(event, env) then 1
      else 0
    ensures ReachesMetadata(event, env) ==>
      Handle(event, env, up).calls[0] == ListVideos(event.request.value, env.youtubeApiKey.value)
    ensures ReachesTranscript(event, env, up) ==>
      Handle(event, env, up).calls[1] == FetchTranscript(event.request.value)
  {
    if ReachesTranscript(event, env, up) {
      PastMetadata(event, env, up);
    }
  }

  /** Once the video is found, the rest of the answer is decided by the transcript and the completion. */
  lemma {:induction false} PastMetadata(event: Event, env: Env, up: Upstream)
    requires ReachesTranscript(event, env, up)
    ensures Handle(event, env, up) == HandleVideo(event.request.value, env, up.videos.value.value[0], up)
  {
  }

  /** 200 on a POST comes exactly from a request that gets through every step. */
  lemma {:induction false} SuccessIff(event: Event, env: Env, up: Upstream)
    ensures (Handle(event, env, up).response.statusCode == 200 && ReachesParse(event))
      <==> ReachesCompletion(event, env, up) && up.completion.Returned?
  {
    if ReachesTranscript(event, env, up) {
      PastMetadata(event, env, up);
    }
  }

  /**
    A request that gets through every step is answered with the first item's
    details, the shortened transcript and the parsed completion; the prompt holds
    the title, the description and at most 4000 transcript characters.
   */
  lemma {:induction false} SuccessBody(event: Event, env: Env, up: Upstream)
    requires ReachesCompletion(event, env, up) && up.completion.Returned?
    ensures var transcript := TranscriptText(up.transcript.value.value);
      && Handle(event, env, up).response.body
         == Tagged(up.videos.value.value[0], ShortTranscript(transcript), ParseTags(up.completion.value))
      && Handle(event, env, up).calls[2]
         == CreateChatCompletion(PromptFor(up.videos.value.value[0], transcript), env.openAiApiKey.value)
  {
    PastMetadata(event, env, up);
  }

  /** The returned tags are non-empty, comma-free and trimmed, and the shortened transcript is at most 1003 characters. */
  lemma {:induction false} SuccessBodyBounds(event: Event, env: Env, up: Upstream)
    requires Handle(event, env, up).response.body.Tagged?
    ensures |Handle(event, env, up).response.body.transcript| <= ReturnedExcerptLength + |Ellipsis|
    ensures forall i :: 0 <= i < |Handle(event, env, up).response.body.tags| ==>
      IsTag(Handle(event, env, up).response.body.tags[i])
  {
    SuccessIff(event, env, up);
    SuccessBody(event, env, up);
  }

  /** The i-th fragment's text sits in the transcript where the join puts it, followed by one space. */
  lemma {:induction false} TranscriptLayout(fragments: seq<Fragment>, i: nat)
    requires i < |fragments|
    ensures var texts := FragmentTexts(fragments);
      && Offset(texts, " ", i) + |texts[i]| <= |TranscriptText(fragments)|
      && TranscriptText(fragments)[Offset(texts, " ", i)..Offset(texts, " ", i) + |texts[i]|] == texts[i]
      && (i + 1 < |fragments| ==>
            && Offset(texts, " ", i) + |texts[i]| < |TranscriptText(fragments)|
            && TranscriptText(fragments)[Offset(texts, " ", i) + |texts[i]|] == ' ')
  {
    var texts := FragmentTexts(fragments);
    JoinElementAt(texts, " ", i);
    if i + 1 < |fragments| {
      JoinSeparatorAt(texts, " ", i);
      var k := Offset(texts, " ", i) + |texts[i]|;
      assert Join(texts, " ")[k..k + 1] == " ";
    }
  }

  /** When no fragment text holds a space, splitting the transcript on spaces gives back the texts in order. */
  lemma {:induction false} TranscriptSplitsBack(fragments: seq<Fragment>)
    requires fragments != []
    requires forall i :: 0 <= i < |fragments| ==> fragments[i].text.Some? ==> ' ' !in fragments[i].text.value
    ensures Split(TranscriptText(fragments), ' ') == FragmentTexts(fragments)
  {
    var texts := FragmentTexts(fragments);
    assert forall i :: 0 <= i < |texts| ==> ' ' !in texts[i];
    SplitJoin(texts, ' ');
  }

  /** Two fragments join into their texts with one space between. */
  lemma {:induction false} TwoFragments(a: string, b: string)
    ensures TranscriptText([Fragment(Some(a)), Fragment(Some(b))]) == a + " " + b
  {
    var texts := FragmentTexts([Fragment(Some(a)), Fragment(Some(b))]);
    assert texts == [a, b];
    assert texts[1..] == [b];
    assert Join(texts, " ") == a + " " + Join([b], " ");
  }

  /** A transcript of at most 1000 characters comes back whole, followed by "...". */
  lemma {:induction false} ShortTranscriptOfShort(transcript: string)
    requires |transcript| <= ReturnedExcerptLength
    ensures ShortTranscript(transcript) == transcript + Ellipsis
  {
  }

  /** A transcript of at most 4000 characters goes into the prompt whole. */
  lemma {:induction false} PromptForShort(details: Snippet, transcript: string)
    requires |transcript| <= PromptExcerptLength
    ensures PromptFor(details, transcript) == Prompt(details.title, details.description, transcript)
  {
  }

  /** A request that gets through every step with a short transcript is answered with it whole. */
  lemma {:induction false} SuccessWithShortTranscript(event: Event, env: Env, up: Upstream, details: Snippet, transcript: string)
    requires ReachesCompletion(event, env, up) && up.completion.Returned?
    requires up.videos.value.value[0] == details
    requires TranscriptText(up.transcript.value.value) == transcript
    requires |transcript| <= ReturnedExcerptLength
    ensures Handle(event, env, up).response.statusCode == 200
    ensures Handle(event, env, up).calls[2].prompt == Prompt(details.title, details.description, transcript)
    ensures Handle(event, env, up).response.body.transcript == transcript + Ellipsis
  {
    SuccessIff(event, env, up);
    SuccessBody(event, env, up);
    ShortTranscriptOfShort(transcript);
    PromptForShort(details, transcript);
  }

  /**
    A request that goes all the way: video "abc12345678" titled
    "T" with description "D" and the fragments "hello" and "world".
   */
  lemma {:induction false} HelloWorldScenario(event: Event, env: Env, up: Upstream, details: Snippet)
    requires event == Event("POST", Returned(Str("abc12345678")))
    requires KeyPresent(env.youtubeApiKey) && KeyPresent(env.openAiApiKey)
    requires details.title == "T" && details.description == "D"
    requires up.videos == Returned(Some([details]))
    requires up.transcript == Returned(Some([Fragment(Some("hello")), Fragment(Some("world"))]))
    requires up.completion.Returned?
    ensures Handle(event, env, up).response.statusCode == 200
    ensures Handle(event, env, up).calls[2].prompt == Prompt("T", "D", "hello world")
    ensures Handle(event, env, up).response.body.transcript == "hello world..."
  {
    TwoFragments("hello", "world");
    SuccessWithShortTranscript(event, env, up, details, "hello world");
  }
}
