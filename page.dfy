/**
  The page script's click handler. It reads the URL field, extracts the video
  id, asks `/api/get-transcript` twice (once for the details, once for the
  tags) and shows either the tags or an error. Three sections are shown or
  hidden: the loading indicator, the results and the error message.

  The two answers of the service are inputs of the handler; a `Reply` says
  whether the request failed outright, came back not ok, or came back with tags.
 */
module Page {

  import opened Wrappers
  import opened JsStrings
  import opened Tags
  import opened VideoId
  import TranscriptHandler

  const EmptyUrlMessage := "Please enter a YouTube video URL"
  const InvalidUrlMessage := "Invalid YouTube URL. Please enter a valid YouTube video URL"
  const DetailsFallback := "Failed to process video"
  const TagsFallback := "Failed to generate tags"
  const GenericFallback := "An error occurred while processing your request"

  /** What one `fetch` of the service gives the page. */
  datatype Reply =
    | Rejected(message: string)      // the request or the reading of its JSON threw
    | NotOk(error: Option<string>)   // `response.ok` is false; the body's `error` field
    | Ok(tags: seq<string>)          // `response.ok`; the body's `tags` field

  /** What the page ends up showing after a click. */
  datatype View = Failure(message: string) | Success(tags: seq<string>)

  /** `a || b` on strings. */
  function OrElse(a: string, b: string): string {
    if a != [] then a else b
  }

  /**
    The message the catch block shows for a failed request: the thrown error's
    message, which for a not-ok answer is the body's `error` or the request's
    fallback, and otherwise the generic message when that is empty.
   */
  function FailureMessage(reply: Reply, fallback: string): (m: string)
    requires !reply.Ok?
    requires fallback != []
    ensures m != []
    ensures reply.NotOk? && reply.error.Some? && reply.error.value != [] ==> m == reply.error.value
    ensures reply.NotOk? && (reply.error.None? || reply.error.value == []) ==> m == fallback
    ensures reply.Rejected? && reply.message != [] ==> m == reply.message
    ensures reply.Rejected? && reply.message == [] ==> m == GenericFallback
  {
    match reply
    case Rejected(message) => OrElse(message, GenericFallback)
    case NotOk(error) => OrElse(OrElse(if error.Some? then error.value else [], fallback), GenericFallback)
  }

  /**
    The id the details request carries: extracted from the trimmed field value.
    A blank field holds none; an id found has 11 characters.
   */
  function DetailsRequestId(inputValue: string): (id: Option<string>)
    ensures Trim(inputValue) == [] ==> id.None?
    ensures id.Some? ==> |id.value| == 11
  {
    ExtractVideoId(Trim(inputValue))
  }

  /**
    The id the tags request carries, as the script writes it: extracted again,
    from the field value as it is, without trimming.
   */
  function TagsRequestIdAsWritten(inputValue: string): (id: Option<string>)
    ensures Trim(inputValue) == inputValue ==> id == DetailsRequestId(inputValue)
  {
    ExtractVideoId(inputValue)
  }

  /** The checks the click makes before any request: a non-empty field and an id in it. */
  datatype InputCheck = Refused(message: string) | Accepted(videoId: string)

  /** Lines 17-30 of the handler: the trimmed field value must be non-empty and hold an id. */
  function CheckInput(inputValue: string): (c: InputCheck)
    ensures c == Refused(EmptyUrlMessage) <==> Trim(inputValue) == []
    ensures c == Refused(InvalidUrlMessage) <==> Trim(inputValue) != [] && DetailsRequestId(inputValue).None?
    ensures c.Accepted? <==> DetailsRequestId(inputValue).Some?
    ensures c.Accepted? ==> DetailsRequestId(inputValue) == Some(c.videoId)
  {
    if Trim(inputValue) == [] then Refused(EmptyUrlMessage)
    else match ExtractVideoId(Trim(inputValue))
      case None => Refused(InvalidUrlMessage)
      case Some(id) => Accepted(id)
  }

  /**
    What the page shows once the requests are under way: a failed details
    request decides the message whatever the tags request gives, and the tags
    are shown only when both requests succeed.
   */
  function RequestsView(details: Reply, tags: Reply): (v: View)
    ensures v.Success? <==> details.Ok? && tags.Ok?
    ensures v.Success? ==> v.tags == tags.tags
    ensures !details.Ok? ==> v == Failure(FailureMessage(details, DetailsFallback))
    ensures details.Ok? && !tags.Ok? ==> v == Failure(FailureMessage(tags, TagsFallback))
    ensures v.Failure? ==> v.message != []
  {
    if !details.Ok? then Failure(FailureMessage(details, DetailsFallback))
    else if !tags.Ok? then Failure(FailureMessage(tags, TagsFallback))
    else Success(tags.tags)
  }

  /**
    What a click shows, given the field value and the two answers: the refusal
    message for a blank field or a field without an id, and otherwise what the
    two replies give; the tags exactly when the field holds an id and both
    requests came back ok, and otherwise a message that is never empty.
   */
  function ClickView(inputValue: string, details: Reply, tags: Reply): (v: View)
    ensures Trim(inputValue) == [] ==> v == Failure(EmptyUrlMessage)
    ensures Trim(inputValue) != [] && DetailsRequestId(inputValue).None? ==> v == Failure(InvalidUrlMessage)
    ensures DetailsRequestId(inputValue).Some? ==> v == RequestsView(details, tags)
    ensures v.Success? <==> CheckInput(inputValue).Accepted? && details.Ok? && tags.Ok?
    ensures v.Success? ==> v.tags == tags.tags
    ensures v.Failure? ==> v.message != []
  {
    match CheckInput(inputValue)
    case Refused(message) => Failure(message)
    case Accepted(_) => RequestsView(details, tags)
  }

  /** The ids the click sends to the service, in order; `None` is JSON `null`. */
  function ClickRequests(inputValue: string, details: Reply): (ids: seq<Option<string>>)
    ensures |ids| == (if CheckInput(inputValue).Refused? then 0 else if details.Ok? then 2 else 1)
    ensures forall i :: 0 <= i < |ids| ==> ids[i] == DetailsRequestId(inputValue)
    ensures forall i :: 0 <= i < |ids| ==> ids[i].Some? && |ids[i].value| == 11
  {
    match CheckInput(inputValue)
    case Refused(_) => []
    case Accepted(id) => if !details.Ok? then [Some(id)] else [Some(id), DetailsRequestId(inputValue)]
  }

  /** The body's `videoId` as the service reads it: `JSON.stringify` writes a missing id as `null`. */
  function RequestFor(id: Option<string>): (v: TranscriptHandler.JsonValue)
    ensures id.None? ==> !TranscriptHandler.Truthy(v)
    ensures id.Some? ==> v == TranscriptHandler.Str(id.value)
  {
    match id
    case None => TranscriptHandler.Null
    case Some(s) => TranscriptHandler.Str(s)
  }

  /** The service's answer to a POST whose body carries `id`. */
  function ServiceAnswer(id: Option<string>, env: TranscriptHandler.Env, up: TranscriptHandler.Upstream): (status: int)
    ensures status in TranscriptHandler.StatusCodes
  {
    TranscriptHandler.Handle(TranscriptHandler.Event("POST", TranscriptHandler.Returned(RequestFor(id))), env, up)
      .response.statusCode
  }

  /**
    The script as written: a short link followed by a space passes the click's
    checks (the details request uses the trimmed value) but the tags request
    extracts from the untrimmed value, finds no id, sends `null` and the service
    answers 400 "videoId is required".
   */
  lemma {:induction false} TrailingSpaceLosesTagsRequest(site: string, id: string, env: TranscriptHandler.Env, up: TranscriptHandler.Upstream)
    requires IsSite(site) && IsPlainId(id) && id[0] != 'v'
    requires site == [] || !IsWhitespace(site[0])
    ensures var raw := site + "youtu.be/" + id + " ";
      && CheckInput(raw) == Accepted(id)
      && TagsRequestIdAsWritten(raw) == None
      && ServiceAnswer(TagsRequestIdAsWritten(raw), env, up) == 400
  {
    var t := site + "youtu.be/" + id;
    var raw := site + "youtu.be/" + id + " ";
    assert t[|t| - 1] == id[10];
    assert IsTrimmed(t);
    TrimPadded([], t, " ");
    assert [] + t + " " == raw;
    ShortLinkRoundTrip(site, id, []);
    assert t + [] == t;
    ShortLinkWithTrailingSpace(site, id);
    TranscriptHandler.VideoIdRequiredIff(TranscriptHandler.Event("POST", TranscriptHandler.Returned(TranscriptHandler.Null)), env, up);
  }

  /** `https://youtu.be/dQw4w9WgXcQ ` is a short link on one line followed by a space. */
  lemma ExampleLayout()
    ensures IsSite("https://") && IsPlainId("dQw4w9WgXcQ")
    ensures "https://youtu.be/dQw4w9WgXcQ " == "https://" + "youtu.be/" + "dQw4w9WgXcQ" + " "
  {
    var site, id := "https://", "dQw4w9WgXcQ";
    forall i | 0 <= i < |site| ensures !IsLineTerminator(site[i]) { }
    forall i | 0 <= i < 11 ensures IsIdChar(id[i]) { }
  }

  /** The same input on a concrete link. */
  lemma TrailingSpaceExample(env: TranscriptHandler.Env, up: TranscriptHandler.Upstream)
    ensures CheckInput("https://youtu.be/dQw4w9WgXcQ ") == Accepted("dQw4w9WgXcQ")
    ensures ServiceAnswer(TagsRequestIdAsWritten("https://youtu.be/dQw4w9WgXcQ "), env, up) == 400
  {
    ExampleLayout();
    TrailingSpaceLosesTagsRequest("https://", "dQw4w9WgXcQ", env, up);
  }

  /**
    With the tags request carrying the details request's id, no request the
    click sends is refused for a missing id.
   */
  lemma {:induction false} ClickRequestsCarryId(inputValue: string, details: Reply, env: TranscriptHandler.Env, up: TranscriptHandler.Upstream)
    ensures forall i :: 0 <= i < |ClickRequests(inputValue, details)| ==>
      ServiceAnswer(ClickRequests(inputValue, details)[i], env, up) != 400
  {
    var ids := ClickRequests(inputValue, details);
    forall i | 0 <= i < |ids| ensures ServiceAnswer(ids[i], env, up) != 400 {
      TranscriptHandler.VideoIdRequiredIff(TranscriptHandler.Event("POST", TranscriptHandler.Returned(RequestFor(ids[i]))), env, up);
    }
  }

  /** The page's result panels. */
  class Panels {
    var loading: bool
    var results: bool
    var error: bool
    var errorMessage: string
    /** The texts of the tag elements in the tags container, in order. */
    var tagElements: seq<string>
    /** The value of the text area holding all tags. */
    var tagsText: string

    /** After a click: nothing is loading and exactly one of results and error is shown. */
    predicate Settled()
      reads this
    {
      !loading && results != error
    }

    /** The page as loaded: every section hidden, nothing filled in. */
    constructor ()
      ensures !loading && !results && !error
      ensures errorMessage == [] && tagElements == [] && tagsText == []
    {
      loading, results, error := false, false, false;
      errorMessage, tagElements, tagsText := [], [], [];
    }

    /** `showError`: the message is shown and the other two sections hidden. */
    method ShowError(message: string)
      modifies this
      ensures error && !loading && !results && errorMessage == message
      ensures Settled()
      ensures tagElements == old(tagElements) && tagsText == old(tagsText)
    {
      errorMessage := message;
      error := true;
      loading := false;
      results := false;
    }

    /** `displayTags`: one element per tag, in order, and the tags joined with ", " in the text area. */
    method DisplayTags(tags: seq<string>)
      modifies this
      ensures tagElements == tags
      ensures tagsText == Join(tags, ", ")
      ensures (forall i :: 0 <= i < |tags| ==> IsTag(tags[i])) ==> ParseTags(tagsText) == tags
      ensures loading == old(loading) && results == old(results) && error == old(error)
      ensures errorMessage == old(errorMessage)
    {
      tagElements := [];
      var i := 0;
      while i < |tags|
        invariant 0 <= i <= |tags|
        invariant tagElements == tags[..i]
        invariant loading == old(loading) && results == old(results) && error == old(error)
        invariant errorMessage == old(errorMessage)
      {
        tagElements := tagElements + [tags[i]];
        i := i + 1;
      }
      assert tags[..i] == tags;
      tagsText := Join(tags, ", ");
      assert (forall i :: 0 <= i < |tags| ==> IsTag(tags[i])) ==> ParseTags(tagsText) == tags by {
        if forall i :: 0 <= i < |tags| ==> IsTag(tags[i]) {
          TagsRoundTrip(tags);
        }
      }
    }

    /**
      The click handler. It returns the ids it sent to the service. The tags
      request carries the id the details request carried (see `ClickRequestsCarryId`).
     */
    method Click(inputValue: string, details: Reply, tags: Reply) returns (sent: seq<Option<string>>)
      modifies this
      ensures Settled()
      ensures sent == ClickRequests(inputValue, details)
      ensures ClickView(inputValue, details, tags).Failure? ==>
        && error && errorMessage == ClickView(inputValue, details, tags).message
        && tagElements == old(tagElements) && tagsText == old(tagsText)
      ensures ClickView(inputValue, details, tags).Success? ==>
        && results && tagElements == tags.tags && tagsText == Join(tags.tags, ", ")
        && errorMessage == old(errorMessage)
    {
      var videoUrl := Trim(inputValue);
      if videoUrl == [] {
        ShowError(EmptyUrlMessage);
        return [];
      }
      var videoId := ExtractVideoId(videoUrl);
      if videoId.None? {
        ShowError(InvalidUrlMessage);
        return [];
      }
      assert CheckInput(inputValue) == Accepted(videoId.value);
      sent := Generate(videoId.value, DetailsRequestId(inputValue), details, tags);
    }

    /** Lines 33-56 of the handler: the two requests and what the page shows after them. */
    method Generate(videoId: string, tagsRequestId: Option<string>, details: Reply, tags: Reply)
      returns (sent: seq<Option<string>>)
      modifies this
      ensures Settled()
      ensures sent == if !details.Ok? then [Some(videoId)] else [Some(videoId), tagsRequestId]
      ensures RequestsView(details, tags).Failure? ==>
        && error && errorMessage == RequestsView(details, tags).message
        && tagElements == old(tagElements) && tagsText == old(tagsText)
      ensures RequestsView(details, tags).Success? ==>
        && results && tagElements == tags.tags && tagsText == Join(tags.tags, ", ")
        && errorMessage == old(errorMessage)
    {
      loading, results, error := true, false, false;
      sent := [Some(videoId)];
      if !details.Ok? {
        loading := false;
        ShowError(FailureMessage(details, DetailsFallback));
        return;
      }
      sent := sent + [tagsRequestId];
      if !tags.Ok? {
        loading := false;
        ShowError(FailureMessage(tags, TagsFallback));
        return;
      }
      DisplayTags(tags.tags);
      loading := false;
      results := true;
    }
  }
}
