# YouTube tag generator: a verified model

The YouTube tag generator has two parts. Both are modelled here.

- **The serverless function `/api/get-transcript`.** It answers CORS preflight requests. For a POST it looks up a YouTube video's metadata, fetches the video's transcript and asks a chat-completion service for tags. It returns the video details, a shortened transcript and the parsed tag list. Every response carries one of the statuses 200, 400, 404, 405 or 500.
- **The browser script behind the page.** It extracts an 11-character video id from a YouTube URL. It checks the URL field. When the field is accepted, it calls the function once for the details and, if that succeeds, once more for the tags. It then shows either the tags or an error. It shows or hides three sections: the loading indicator, the results and the error message.

The model has five modules plus `Wrappers`, which holds `Option`:

- `JsStrings`: the JavaScript string built-ins the code relies on. These are `trim` with the ECMAScript white-space and line-terminator set, `split` on one character, `Array.prototype.join`, `substring(0, n)`, and a character count.
- `Tags`: the server's tag parser, which trims the content, splits it on `,`, trims each piece and drops empty ones. It also proves the round trip through the page's `join(', ')`.
- `TranscriptHandler`: the handler as a pure function. Its inputs are the event, the environment and what the three services answer. It produces the response plus the list of external calls it made, in order. Each step that can throw is a `Call` that either returned a value or threw a message.
- `VideoId`: `extractVideoId` with its regular expression written out as a deterministic scan.
  - The greedy `^.*` picks the rightmost marker on the first line. The markers are `youtu.be/` (where `.` matches any character except a line terminator), `v/`, `/u/<word char>/`, `embed/` and `watch?`.
  - The scan then skips one optional `?`, one optional `v` and one optional `=`.
  - It takes the maximal run of characters other than `#`, `&` and `?`, and accepts that run only if it is 11 characters long.
- `Page`: the click handler. The three sections are a class `Panels` with a flag each, plus the error text, the tag elements and the text-area value. Its methods are `showError`, `displayTags` (a loop) and the click handler itself.

## Model

| member | source | states |
|---|---|---|
| JsStrings.Trim | netlify/functions/get-transcript.js:115-116 | the result has no white space at either end |
| JsStrings.TrimStartFacts | netlify/functions/get-transcript.js:115 | `trimStart` removes exactly the leading white space: it returns a suffix, every dropped character is white space, and the suffix does not start with white space |
| JsStrings.TrimEndFacts | netlify/functions/get-transcript.js:115 | the same for trailing white space, with a prefix |
| JsStrings.TrimOfTrimmed | netlify/functions/get-transcript.js:116 | trimming a string with no white space at its ends changes nothing |
| JsStrings.TrimEmpty | script.js:17-22 | a string trims to empty exactly when every character is white space |
| JsStrings.TrimIsSlice | netlify/functions/get-transcript.js:115 | the trimmed string is a contiguous slice of the original |
| JsStrings.TrimKeepsCharacters | netlify/functions/get-transcript.js:116 | trimming adds no characters |
| JsStrings.TrimPadded | netlify/functions/get-transcript.js:116 | white space around a trimmed, non-empty text is removed and the text is kept |
| JsStrings.Prefix | netlify/functions/get-transcript.js:99 | `substring(0, n)` is a prefix of at most `n` characters: the whole string when it is short, exactly `n` characters otherwise |
| JsStrings.Count | netlify/functions/get-transcript.js:116 | the count of a character is zero exactly when the character is absent |
| JsStrings.CountAppend | netlify/functions/get-transcript.js:116 | counts add up over concatenation |
| JsStrings.IndexOf | netlify/functions/get-transcript.js:116 | the first occurrence of a character, or `None` when it is absent |
| JsStrings.Split | netlify/functions/get-transcript.js:116 | `split` yields at least one piece, and no piece contains the separator |
| JsStrings.JoinSplit | netlify/functions/get-transcript.js:116 | joining the pieces of a split with the separator gives back the string |
| JsStrings.SplitJoin | netlify/functions/get-transcript.js:116 | splitting a join of separator-free pieces gives back the pieces |
| JsStrings.Join | netlify/functions/get-transcript.js:82-84 | `join` starts with the first piece; its length and where each piece and separator sit are stated by the three lemmas below |
| JsStrings.JoinLength | netlify/functions/get-transcript.js:82-84 | a join is as long as its pieces plus one separator between each pair |
| JsStrings.JoinElementAt | netlify/functions/get-transcript.js:82-84 | each piece appears in the join at its offset |
| JsStrings.JoinSeparatorAt | netlify/functions/get-transcript.js:82-84 | exactly one separator sits between neighbouring pieces |
| Tags.TrimEach | netlify/functions/get-transcript.js:116 | `map(tag => tag.trim())`: one trimmed piece per piece, in the same positions |
| Tags.NonEmpty | netlify/functions/get-transcript.js:116 | `filter(tag => tag)` keeps only non-empty pieces, in order (a subsequence), and drops exactly as many pieces as are empty, so every non-empty piece is kept each time it occurs |
| Tags.NonEmptyKeeps | netlify/functions/get-transcript.js:116 | every non-empty piece survives the filter |
| Tags.Fields | netlify/functions/get-transcript.js:115-116 | one field per comma of the trimmed content plus one; each field is comma-free and trimmed |
| Tags.ParseTags | netlify/functions/get-transcript.js:115-116 | every tag is non-empty, comma-free and trimmed; there are at most as many tags as commas plus one |
| Tags.ParseTagsInOrder | netlify/functions/get-transcript.js:116 | the tags are the fields in their left-to-right order, as a subsequence |
| Tags.ParseTagsKeepsFields | netlify/functions/get-transcript.js:116 | each non-empty field is a tag and each tag is a field |
| Tags.SplitCount | netlify/functions/get-transcript.js:116 | a split yields one more piece than there are separators |
| Tags.TrimmedCommas | netlify/functions/get-transcript.js:115 | trimming adds no commas, so the bound on the tag count holds for the raw content |
| Tags.TagsRoundTrip | script.js:166 | joining valid tags with `", "` and parsing the text with the server's parser gives back the same tags |
| Tags.ParseTrimmedFields | netlify/functions/get-transcript.js:115-116 | a trimmed text whose fields trim to non-empty tags parses to exactly those tags |
| Tags.ServerTagsRoundTrip | script.js:166 | tags the server produced survive the page's join and a second parse |
| Tags.ParseTagsPadded | netlify/functions/get-transcript.js:115-116 | `a, b ,  c,,` parses to `[a, b, c]` for any three tags |
| Tags.ParseTagsExample | netlify/functions/get-transcript.js:115-116 | `"cats, dogs ,  birds,,"` parses to `["cats", "dogs", "birds"]` |
| TranscriptHandler.FragmentTexts | netlify/functions/get-transcript.js:82-83 | one text per fragment, in order; a missing text becomes the empty string, as `join` writes it |
| TranscriptHandler.ShortTranscript | netlify/functions/get-transcript.js:127 | the returned transcript is its first `min(n, 1000)` characters followed by `"..."`, so it is at most 1003 characters long |
| TranscriptHandler.PromptFor | netlify/functions/get-transcript.js:92-103 | the prompt carries the snippet's title and description; its transcript excerpt is the first `min(n, 4000)` characters of the transcript: the whole transcript when it is short, exactly 4000 characters otherwise |
| TranscriptHandler.Handle | netlify/functions/get-transcript.js:5-143 | every response carries the three CORS headers and one of the statuses 200, 400, 404, 405 and 500; external calls happen only in the order metadata, transcript, completion |
| TranscriptHandler.HandlePost | netlify/functions/get-transcript.js:31-66 | the POST path answers 200, 400, 404 or 500, with the CORS headers and calls in order |
| TranscriptHandler.HandleVideo | netlify/functions/get-transcript.js:68-130 | once the video is found, the metadata and transcript calls were made, with the given id and key; the completion is called third, exactly when the transcript returned at least one fragment |
| TranscriptHandler.TranscriptText | netlify/functions/get-transcript.js:82-84 | no fragments give the empty transcript; otherwise its length is the total length of the texts plus one space between each pair |
| TranscriptHandler.PreflightAlwaysSucceeds | netlify/functions/get-transcript.js:14-20 | `OPTIONS` answers 200 with the preflight message and makes no call, whatever the body, keys and services |
| TranscriptHandler.MethodNotAllowedIff | netlify/functions/get-transcript.js:23-29 | 405 exactly when the method is neither `OPTIONS` nor `POST`; then the body is "Method not allowed" and no call is made |
| TranscriptHandler.VideoIdRequiredIff | netlify/functions/get-transcript.js:32-41 | 400 exactly for a POST whose body parsed and whose `videoId` is falsy; then the body is "videoId is required" and no call is made |
| TranscriptHandler.KeysCheckedFirst | netlify/functions/get-transcript.js:44-53 | "API keys not configured" exactly when a key is missing after a truthy id; it is a 500 and comes before any call |
| TranscriptHandler.VideoNotFoundIff | netlify/functions/get-transcript.js:56-66 | "Video not found or is private" exactly when the metadata call returned no items; it is a 404 and the transcript service is not called |
| TranscriptHandler.TranscriptNotAvailableIff | netlify/functions/get-transcript.js:71-79 | "Transcript not available for this video" exactly when the transcript is missing or empty; it is a 404 after two calls |
| TranscriptHandler.NotFoundMeaning | netlify/functions/get-transcript.js:60-79 | 404 means one of those two messages and nothing else |
| TranscriptHandler.ExceptionsAreCaught | netlify/functions/get-transcript.js:131-141 | an exception at any step, and only an exception, gives 500 with the generic error and the exception's message as `details` |
| TranscriptHandler.CallsMade | netlify/functions/get-transcript.js:56-113 | the number of external calls made is fixed by how far the request gets, with the expected arguments |
| TranscriptHandler.PastMetadata | netlify/functions/get-transcript.js:68 | past the metadata check, the handler continues with the first item's snippet |
| TranscriptHandler.SuccessIff | netlify/functions/get-transcript.js:105-130 | a POST gets 200 exactly when it reaches the completion and the completion returns |
| TranscriptHandler.SuccessBody | netlify/functions/get-transcript.js:82-130 | the 200 body holds the first snippet, the shortened space-joined transcript and the parsed tags; the prompt holds the title, the description and the excerpt |
| TranscriptHandler.SuccessBodyBounds | netlify/functions/get-transcript.js:115-127 | in a 200 body the transcript is at most 1003 characters and every tag is valid |
| TranscriptHandler.TranscriptLayout | netlify/functions/get-transcript.js:82-84 | each fragment's text sits in the transcript at its offset, followed by a single space unless it is the last |
| TranscriptHandler.TranscriptSplitsBack | netlify/functions/get-transcript.js:82-84 | for fragments without spaces, splitting the transcript on spaces gives back the fragment texts in order |
| TranscriptHandler.TwoFragments | netlify/functions/get-transcript.js:82-84 | two fragments `a` and `b` give `a + " " + b` |
| TranscriptHandler.ShortTranscriptOfShort | netlify/functions/get-transcript.js:127 | a transcript of at most 1000 characters is returned whole, followed by `"..."` |
| TranscriptHandler.PromptForShort | netlify/functions/get-transcript.js:99 | a transcript of at most 4000 characters goes into the prompt whole |
| TranscriptHandler.SuccessWithShortTranscript | netlify/functions/get-transcript.js:92-130 | a request that gets through every step with a transcript of at most 1000 characters gets 200, a prompt holding the title, the description and the whole transcript, and the whole transcript followed by `"..."` |
| TranscriptHandler.HelloWorldScenario | netlify/functions/get-transcript.js:56-130 | a found video with fragments "hello" and "world" gives 200, the prompt excerpt "hello world" and the transcript "hello world..." |
| VideoId.MarkerLength | script.js:69 | the markers: a marker's length is 9, 2, 5 or 6, it ends in `/` or `?`, and its first character is the one its alternative starts with |
| VideoId.LineEnd | script.js:69 | the first line ends at the first line terminator, since `.` does not match one |
| VideoId.LastMarker | script.js:69 | the greedy `^.*` gives the rightmost marker position on the line, or none when there is no marker |
| VideoId.RunEnd | script.js:69 | `[^#&?]*` takes the maximal run that contains none of `#`, `&`, `?` |
| VideoId.IdStart | script.js:69 | the id starts at most three characters after the marker |
| VideoId.ExtractVideoId | script.js:68-72 | the result is `null` or exactly 11 characters with no `#`, `&` or `?`; it is `null` when the URL has no marker |
| VideoId.LastMarkerFinds | script.js:69 | a marker with no marker after it is the one chosen |
| VideoId.ExtractVideoIdMeaning | script.js:68-72 | the function returns `id` exactly when the URL matches the pattern with `id` as the seventh group |
| VideoId.RunEndAt | script.js:69 | a run bounded by a stop character or by the end is the maximal run |
| VideoId.OnlyMarkerAfter | script.js:69 | a marker with no other marker in or after it is the rightmost |
| VideoId.ShortLinkRoundTrip | script.js:68-72 | `<site>youtu.be/<id><rest>` gives back an 11-character id that does not start with `v` |
| VideoId.ShortLinkLosesLeadingV | script.js:69-71 | the same link with an id that starts with `v` gives `null`: the optional `v` takes the id's first character |
| VideoId.WatchLinkRoundTrip | script.js:68-72 | `<site>watch?v=<id><rest>` gives back any 11-character id |
| VideoId.EmbedLinkRoundTrip | script.js:68-72 | `<site>embed/<id><rest>` gives back an id that does not start with `v` |
| VideoId.ShortLinkWithTrailingSpace | script.js:69-71 | a short link whose id does not start with `v`, followed by a space, gives `null`, because the space extends the id to 12 characters |
| VideoId.ShortLinkVWithTrailingSpace | script.js:69-71 | a short link whose id starts with `v`, followed by a space, gives the id without its `v` and with the space: `v?` takes the `v`, and the remaining 11 characters are accepted |
| Page.FailureMessage | script.js:96-99 | the message shown for a failed request is never empty: the body's `error`, else the request's fallback, or the thrown message, else the generic text |
| Page.DetailsRequestId | script.js:17-25 | the details request's id comes from the trimmed field value: a blank field gives none, and an id found has 11 characters |
| Page.TagsRequestIdAsWritten | script.js:124 | the tags request as written extracts from the untrimmed field value; it agrees with the details request when the field has no white space at its ends (as-written half of the finding) |
| Page.CheckInput | script.js:17-30 | a blank trimmed field is refused with "Please enter a YouTube video URL", a non-blank one without an id with "Invalid YouTube URL...", and a field holding an id is accepted with that id, the one the details request sends |
| Page.RequestsView | script.js:37-56 | the tags are shown exactly when both requests succeed; a failed details request decides the message whatever the tags request gives; otherwise the tags request's failure message is shown, and no message is empty |
| Page.ClickView | script.js:16-57 | a blank field shows "Please enter a YouTube video URL"; a non-blank field without an id shows the invalid-URL message; a field holding an id shows what `RequestsView` gives for the two replies, so a failed details request decides the message; the tags show exactly when the field is accepted and both requests succeed, and every message is non-empty |
| Page.ClickRequests | script.js:25-45 | a refused field sends nothing, a failed details request stops after one request, and otherwise two requests go out; every request carries the details request's 11-character id |
| Page.RequestFor | script.js:124 | a missing id reaches the service as a falsy `null`, and a found id as its string |
| Page.ServiceAnswer | netlify/functions/get-transcript.js:23-41 | the service's status for the page's POST is one of the five statuses |
| Page.TrailingSpaceLosesTagsRequest | script.js:124 | as written: a short link with a trailing space passes the field checks, yet the tags request carries `null` and the service answers 400 |
| Page.TrailingSpaceExample | script.js:124 | the same for `https://youtu.be/dQw4w9WgXcQ ` |
| Page.ClickRequestsCarryId | script.js:93 | with the corrected id, no request the click sends is refused with 400 |
| Page.Panels.constructor | script.js:1-10 | the panels the script looks up, starting with every section hidden and nothing filled in; the starting state comes from the page's markup, which is not part of this model, and is assumed |
| Page.Panels.ShowError | script.js:169-174 | the error is shown with its message; loading and results are hidden |
| Page.Panels.DisplayTags | script.js:140-167 | one element per tag in order; the text area holds the tags joined with `", "`, and for valid tags that text parses back to the tags |
| Page.Panels.Click | script.js:16-57 | afterwards nothing is loading and exactly one of results and error is shown; the panels show what `ClickView` says, and the requests sent are `ClickRequests` |
| Page.Panels.Generate | script.js:33-56 | the requests part of the click: loading is shown, then the tags are displayed with results visible, or the failure message is shown |

## Left out

- The network and the libraries (axios, `fetch`, the transcript library, the OpenAI client) are not modelled. Their answers are inputs (`Upstream`, `Reply`), and a library that throws is a `Threw` with its message.
- The wording of the prompt beyond its three parts, and the completion parameters (model name, temperature, token limit), are left out. They do not affect the handler's behaviour.
- `async` and `await` are not modelled. The model is sequential, and the order is fixed by the early returns.
- The DOM is reduced to the three section flags, the error text, the tag element texts and the text-area value. The copy button, the clipboard, per-tag click feedback, `setTimeout` and the event listeners are left out.
- The first `getVideoDetails` at `script.js:74-83` is not modelled: the second declaration replaces it. The placeholder keys at `script.js:13-14` are unused.
- JSON parsing and serialising are not modelled. The parsed body is reduced to the `videoId` field, or an exception, and a `JsonValue` keeps only what truthiness needs.
- `Num` truthiness: `NaN` is not modelled.
- A metadata item without a `snippet` is not modelled: every item carries a `Snippet`. In the source, reading `items[0].snippet` at `netlify/functions/get-transcript.js:68` does not throw. The transcript service is still called, an empty transcript still gives 404, and otherwise the handler throws at line 95 and answers 500 after two calls.
- The metadata service's `thumbnails` object, which `netlify/functions/get-transcript.js:125` passes through unchanged, is reduced to a map from size name to URL; its other fields (width, height) are not modelled.
- A snippet whose `title` or `description` is missing is not modelled; the source would write `undefined` into the prompt.
- A completion without `choices`, or a `content` that is not a string, throws in the source at line 115. The model represents these as a `Threw` of the completion call, which gives the same 500 after three calls.
- A transcript that is a non-array value with a `length` is not modelled; the transcript is a list of fragments or absent.
- `Page.Panels.Generate`: an `ok` answer without a `tags` field makes `displayTags` throw, and the page then shows that error. The model takes an `Ok` reply to carry a list.
- The `console.error` logging (`netlify/functions/get-transcript.js:132`, `script.js:104` and `script.js:135`) is left out: it changes no state the model observes.
- Strings are sequences of characters. UTF-16 surrogate pairs, which `substring` counts as two units, are not distinguished.
- `Page.ClickView`: the generic message is shown only when a thrown error has an empty message. Errors with no `message` at all are not modelled.

## Findings

| source | as written | input that shows it | evidently intended | confidence | as-written member | corrected member |
|---|---|---|---|---|---|---|
| script.js:124 | the tags request extracts the id again from the untrimmed field value | `https://youtu.be/dQw4w9WgXcQ ` with a trailing space: the details request uses the trimmed value and succeeds, the tags request sends `videoId: null`, and the service answers 400 "videoId is required" | the tags request sends the id the details request sent | high, not executed | Page.TrailingSpaceLosesTagsRequest | Page.ClickRequestsCarryId |

The click handler in the model (`Page.Panels.Click`, via `Page.ClickRequests`) uses the corrected id. `Page.TagsRequestIdAsWritten` keeps the extraction as the script writes it.
