# Seedance video client — a Dafny model

This project models the core of the Seedance video-generation front end
(`seedance-v2/app.py`). Its `BytePlusVideoClient` builds one of four
task-creation requests:

- text-to-video;
- image-to-video;
- first-and-last-frame;
- reference images.

Each request is a model id plus a content list. The content list holds the
user's prompt with generation flags appended (`--resolution 720p
--duration 5 ...`), then the images. Each image is sent as a URL, or read
from disk and sent as a `data:<mime>;base64,<payload>` URI.

The UI handlers post the request and check its result. They then poll the
task's status every three seconds for up to three minutes. When the task has
succeeded, they search the status body for the video URL in five shapes.

The modules follow the program's structure:

- `Wrappers`: Option and Result.
- `Text`: string helpers, plus decimal rendering and parsing.
- `PyJson`: JSON values with Python's truthiness, `dict.get` and `str()`.
- `Config`: the client, its headers and URLs, and the model table.
- `Flags`: the prompt flags and a decoder that reads them back.
- `Requests`: the four builders, the wire JSON and the posting of a request.
- `Extract`: the video-URL search.
- `Poll`: task creation handling, the poll loop and `wait_for_task_completion`.

Builders and loops are methods, because the source accumulates step by step.
Each method is proved equal to a specification function. The properties are
proved about those functions.

## Model

| member | source | states |
|---|---|---|
| Config.ModelIdsFromEnv | seedance-v2/app.py:16-18 | each model id is the environment value when it is set, else the built-in default id |
| Config.NewClient | seedance-v2/app.py:37-44 | a client exists exactly when both the API key and the base URL are non-empty; otherwise the error begins "API key and base URL are required." |
| Config.ResolveModel | seedance-v2/app.py:46-62 | text-to-video and image-to-video map the pro name to the pro id and any other name to their lite id; first-last-frame and reference images always use the lite image-to-video id |
| Flags.SeedValue | seedance-v2/app.py:517 | the UI seed -1 means no seed; any other whole number is passed on unchanged |
| Flags.TextToVideoPromptDecodes | seedance-v2/app.py:80-88 | reading the text-to-video prompt back yields the user's words, resolution, duration, ratio, seed and watermark setting |
| Flags.ImageToVideoPromptDecodes | seedance-v2/app.py:131-143 | the image-to-video prompt reads back with the ratio always "adaptive" |
| Flags.FirstLastFramePromptDecodes | seedance-v2/app.py:222-233 | the first-last-frame prompt reads back with the camera-fixed flag as "true" or "false" |
| Flags.ImageRefsPromptDecodes | seedance-v2/app.py:344-354 | the reference-image prompt reads back with the `--wm` watermark flag |
| Flags.DecodeFlagTokens | seedance-v2/app.py:80-88 | for every flag dialect, any words followed by the flag tokens decode to those words and those settings |
| Flags.SeedTokenCount | seedance-v2/app.py:83-84 | `--seed` occurs in the flags exactly once when a seed is given, and not at all otherwise |
| Flags.WatermarkTokenRule | seedance-v2/app.py:351-354 | with `--no-watermark` flags, that flag is present exactly when the watermark is off; with `--wm` flags, the last two tokens are `--wm true` or `--wm false` |
| Flags.AnnotatedText | seedance-v2/app.py:222-233 | the prompt is the user's text followed by a space (text-to-video writes the space even after an empty prompt), then the fixed flags, the seed flag and the watermark flag |
| Flags.RenderFlagTokens | seedance-v2/app.py:344-354 | the flag tokens joined by single spaces are exactly the text the builders append piece by piece |
| Text.DecimalRoundTrip | seedance-v2/app.py:84 | a seed or duration rendered in decimal parses back to the same integer |
| Requests.MimeFor | seedance-v2/app.py:163-165 | the MIME type is the guessed one when it starts with "image/", else "image/jpeg"; either way it starts with "image/" |
| Requests.DataUriRoundTrip | seedance-v2/app.py:167 | a data URI parses back into its MIME type and its base64 payload |
| Requests.LocalImageIsDataUri | seedance-v2/app.py:158-175 | a file that encodes always becomes a data URI, and one whose type guess has no `;` reads back as that type (JPEG when unguessed) and its payload; a file that does not encode gives "Failed to encode <noun>: <detail>" |
| Requests.ResolveSlot | seedance-v2/app.py:240-267 | a URL wins over a path; with neither, the error is "Either <arg>_url or <arg>_path must be provided"; with only a path, the file is encoded |
| Requests.ImageUrlWins | seedance-v2/app.py:151-157 | with an image URL given, the request never reads a file and is always sent |
| Requests.MissingImageRejected | seedance-v2/app.py:176-177 | with neither an image URL nor a path, image-to-video is refused with "Either image_url or image_path must be provided" |
| Requests.FirstFrameCheckedFirst | seedance-v2/app.py:240-267 | a first-frame error is returned before the last frame is looked at |
| Requests.FramesInOrder | seedance-v2/app.py:219-299 | the request is sent exactly when both frames resolve; it then holds the prompt, the first frame and the last frame, in that order, with their roles, and the model is the lite image-to-video id; a last frame that does not resolve rejects it with its own error, naming `last_frame` when neither URL nor path is given |
| Requests.ReferenceCountChecked | seedance-v2/app.py:335-339 | no references, or more than four, is rejected with the source's error texts |
| Requests.ReferenceEntriesInOrder | seedance-v2/app.py:361-390 | references succeed exactly when every non-empty one resolves; then they are sent in order; otherwise the error is that of the first one that fails |
| Requests.ReferencesSentInOrder | seedance-v2/app.py:335-393 | a sent reference request has 1 to 4 references, the prompt first, then one entry per non-empty reference in order with role `reference_image`; a failing reference rejects the request |
| Requests.EntriesRoundTrip | seedance-v2/app.py:145-148 | the content list written as JSON reads back as the same entries |
| Requests.PayloadJsonRoundTrip | seedance-v2/app.py:182-185 | the payload written as JSON reads back as the same model and content |
| Requests.CreationErrorDetail | seedance-v2/app.py:196-203 | the text-to-video error carries the exception text; the other modes prefer the response text when there is a response |
| Requests.Submit | seedance-v2/app.py:103-113 | a rejected request is returned as its error dict; otherwise the service's body is returned, or the mode's error prefix and detail when the post raised |
| Requests.RejectedRequestNotPosted | seedance-v2/app.py:174-177 | a request refused by its builder does not depend on the network |
| Requests.CreateTextToVideoTask | seedance-v2/app.py:69-101 | the request built step by step equals the text-to-video specification |
| Requests.CreateImageToVideoTask | seedance-v2/app.py:115-185 | the request built step by step equals the image-to-video specification; `ratio` is ignored |
| Requests.CreateFirstLastFrameTask | seedance-v2/app.py:205-304 | the request built step by step equals the first-last-frame specification |
| Requests.CreateImageRefsTask | seedance-v2/app.py:324-398 | the loop over the references builds exactly the reference-image specification, and keeps its order and early return |
| Extract.ScanUrlItems | seedance-v2/app.py:598-611 | the scan never raises; a URL it finds comes from an object item that has a `video_url` or `url` key |
| Extract.ScanUrlItemsFirst | seedance-v2/app.py:598-611 | the scan takes the first object item that has a `video_url` or `url` key, even if its value is empty, and misses exactly when no item has either key |
| Extract.VideoUrlOf | seedance-v2/app.py:576-613 | a URL that is reported is truthy |
| Extract.FirstHitWitness | seedance-v2/app.py:576-613 | a search that stops was decided by the first shape that gave a truthy URL or raised, and every earlier shape gave nothing |
| Extract.ScanDataFirst | seedance-v2/app.py:583-587 | the `data` scan takes the `url` of the first object typed "video_url" |
| Extract.ScanDataRaises | seedance-v2/app.py:583-585 | a non-object item in `data` reached before any object typed "video_url" makes the scan raise |
| Extract.SucceededBodyFields | seedance-v2/app.py:566-580 | the service's "succeeded" body has no `error`, reads as "succeeded", and its search finds `content.video_url` |
| Extract.ContentShape | seedance-v2/app.py:579-580 | `content.video_url` is found |
| Extract.DataShape | seedance-v2/app.py:583-587 | a `data` item of type "video_url" is found |
| Extract.TopLevelShape | seedance-v2/app.py:590-591 | a top-level `video_url` is found |
| Extract.ResultShape | seedance-v2/app.py:594-597 | a `result` object's `url` is found |
| Extract.OutputsShape | seedance-v2/app.py:605-611 | an `outputs` item's `video_url` is found |
| Extract.EmptyValueFallsThrough | seedance-v2/app.py:583-591 | an empty URL in an earlier shape does not stop the search |
| Extract.NonObjectDataItemRaises | seedance-v2/app.py:584-585 | a non-object `data` item reached first makes the search raise |
| Extract.ExtractVideoUrl | seedance-v2/app.py:576-613 | the step-by-step search returns exactly the specified result, and a found URL is truthy |
| Poll.StatusBody | seedance-v2/app.py:418-429 | a response body is returned unchanged; a failed query becomes a dict whose `error` is "Query failed: <message>" |
| Poll.Classify | seedance-v2/app.py:566-628 | polling goes on exactly when the body has no `error` and its status is "queued" or "running"; a body with an `error` stops as a failed status query; "succeeded" stops with the search's outcome (the video, no URL found, or the exception); "failed" stops with "Unknown error" |
| Poll.AfterCreation | seedance-v2/app.py:530-555 | polling starts exactly when the creation result has no `error` and a truthy `id`; an `error` whose text contains "404" is the model-activation problem, any other `error` is a creation failure carrying it, and a falsy `id` is the missing task id |
| Poll.PollCount | seedance-v2/app.py:560-626 | started at query k with `elapsed` ms gone, the loop makes at least one more query if time is left, and (queries made − k − 1) × 3000 < 180000 − elapsed |
| Poll.AtMostSixtyPolls | seedance-v2/app.py:520-630 | a generation makes at most 60 status queries, and at least one once the task was created |
| Poll.StillRunningTimesOut | seedance-v2/app.py:624-630 | a task that stays queued or running ends in the timeout |
| Poll.LastQueryDecides | seedance-v2/app.py:563-630 | the outcome is the timeout, or the verdict on the last status queried |
| Poll.CreationFailureStopsBeforePolling | seedance-v2/app.py:530-557 | no status is queried exactly when task creation ended the request, and only then is the outcome a creation outcome |
| Poll.GeneratedMeansSucceeded | seedance-v2/app.py:572-616 | a video is reported only from a body with no `error`, with status "succeeded", and whose search found that truthy URL |
| Poll.SucceededAtFirstQuery | seedance-v2/app.py:563-616 | a first status body with no `error`, status "succeeded" and a URL found ends polling after one query with that video |
| Poll.ServiceAnswerGeneratesVideo | seedance-v2/app.py:572-580 | the service's own answer, a "succeeded" status with `content.video_url`, ends polling after one query with that URL |
| Poll.FailedTaskErrorIsAlwaysDefault | seedance-v2/app.py:566-622 | a failed task is always reported with "Unknown error", because a body with an `error` key is reported as a failed query first |
| Poll.FailedTaskWithErrorIsQueryFailure | seedance-v2/app.py:566-567 | a "failed" body carrying an `error` is reported as a failed status query |
| Poll.UnknownStatusStops | seedance-v2/app.py:627-628 | any other status, including a missing one, stops polling at once |
| Poll.EncodeErrorMentioning404 | seedance-v2/app.py:530-541 | an image read error whose text contains "404" is reported as the model-activation problem |
| Poll.RunGeneration | seedance-v2/app.py:530-630 | the handler's loop yields exactly the specified outcome and number of queries |
| Poll.WaitForTaskCompletion | seedance-v2/app.py:431-451 | the helper's loop returns exactly the specified dict, waiting for "success" |
| Poll.WaitAsWrittenTimesOutOnSucceeded | seedance-v2/app.py:441-451 | as written, a task that reports "succeeded" is waited on until the timeout |
| Poll.IntendedWaitReturnsSucceeded | seedance-v2/app.py:435-449 | waiting for "succeeded" returns the body of the first query that reports it, when the earlier queries report neither "succeeded" nor "failed" and it starts before the timeout |

## Left out

- The four handlers' UI checks are not modelled: the uninitialised client, the blank prompt, the missing image, and the upload lists the UI filters. Only the text-to-video handler is cited; the others repeat the same creation checks and loop.
- Saving uploaded images to temporary files is not modelled, nor is the wrapper that captures log output, nor the Gradio interface.
- File reading is not modelled. `mimetypes.guess_type` is not modelled either. Both are oracles in `Files`: `encode` may fail with a message, and `guessMime` may give no type.
- HTTP is not modelled either: it is the `post` and `get` oracles of `Server`. The 30-second request timeout, the status-code check and the headers' transport are in those oracles.
- The clock is not modelled: it is a counter in milliseconds. Each status query takes `latency(k)` and is followed by the sleep. Progress values are floating point and are left out.
- Poll.Outcome: the model keeps the values the messages report, not the message texts (including the Chinese help texts).
- Poll.Crashed carries no exception text. The search raises when a `data` item is not an object. In `text_to_video` the log wrapper catches that exception; the three image handlers catch it in their own `except` clause (app.py:773-774, 931-932, 1099-1100).
- Reading the environment file and the second copy of the program under `ubuntu-seedance-v2` are not part of this model.
- PyJson.PyStr renders nested strings in single quotes and does not escape them as Python's `repr` does.
- PyJson.Lookup takes the first of duplicate keys; Python's JSON decoder keeps the last.
- PyJson.Json: JSON numbers are integers here. A float `id` or value (where 0.0 is falsy in Python) is not modelled.
- Flags.SeedValue: the seed arrives as a whole number, because every seed field sets `precision=0` (app.py:1238). The UI's rounding and its range of -1 to 4294967295 are not modelled, so `int()` on a fraction is not modelled either.
- Status and creation bodies are always JSON objects here. A body that is a list or a scalar is not modelled.

## Findings

| source | as written | input that shows it | evidently intended | confidence | as-written member | corrected member |
|---|---|---|---|---|---|---|
| seedance-v2/app.py:443 | `wait_for_task_completion` returns when the status is "success" | a task whose every status query answers `{"status": "succeeded"}` is waited on until `{"error": "Task timeout"}` | return the body once the status is "succeeded", the value the service reports and the handlers test | high, not executed | Poll.WaitAsWrittenTimesOutOnSucceeded | Poll.IntendedWaitReturnsSucceeded |
