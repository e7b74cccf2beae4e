# Blueprint colorizer: the `colorize` request handler

This project models the `colorize` edge function of the blueprint colorizer. The
function takes a multipart upload of a black-and-white architectural blueprint,
checks that it is a PNG or JPEG, stores it in the `blueprints` bucket under
`originals/<timestamp>.<ext>`, sends it as a base64 data URL to the AI gateway,
pulls the generated image out of the gateway's answer, stores that under
`colored/<timestamp>.png`, inserts the pair of public URLs into the `blueprints`
table, and answers with the pair as JSON. A pre-flight `OPTIONS` request is
answered at once with the CORS headers. Every failure after validation is
thrown and caught by one `catch`, which turns it into a 500.

The handler is a pure function, `Colorize.Handle`. Its inputs are:

- the request: its method, and its body as `formData()` sees it;
- the timestamp `now` (`Date.now()`);
- a `Script` of what each awaited collaborator reports, in the order the handler
  asks: the original upload, the gateway call, the coloured upload and the insert;
- a `Library` of the functions the handler calls but whose code is outside this
  model: base64 encoding (`btoa` over `String.fromCharCode`), base64 decoding
  (`atob`, which may throw) and `getPublicUrl`.

Its output is the response (status, headers, JSON payload) and the trace of side
effects it attempted. A rejected write still appears in the trace.

Files:

- `wrappers.dfy`: `Option` and `Result`.
- `text.dfy`: decimal rendering of the timestamp, and `split` and `join` on one
  separator character, with their round trips.
- `http.dfy`: requests, form entries (`FormData.get`), responses, the CORS and
  JSON header sets.
- `naming.dfy`: the storage paths and their injectivity.
- `colorize.dfy`: the handler, one function per step of the `try` block.
- `properties.dfy`: what the handler promises over all inputs and scripts.
- `pipeline.dfy`: the same handler as a stage machine. Stages run from
  `Validating` to `Done`, and `Rejected` and `Failed` absorb. The machine is
  proved equal to `Handle` on every input.

Behaviour of the code worth noting:

- A failed coloured upload reports `"Colored upload failed: " + message`.
- The pre-flight answer has status 200, the `Response` default.
- A form value `file` that is a non-empty string, not a file, has no `type`. It
  is rejected with the "Only PNG and JPEG" message. An empty string is falsy, so
  it gets "No file provided".
- An ok gateway answer whose image URL is the empty string is treated as
  missing, because the check is falsiness.
- A returned URL with no comma makes `split(",")[1]` undefined. `atob` then
  receives the string `"undefined"`.
- A thrown error with an empty message is reported as `"Unknown error"`.

## Model

| member | source | states |
|---|---|---|
| Http.FormGet | supabase/functions/colorize/index.ts:15-16 | `formData.get` gives null exactly when no entry has the name, and otherwise the value of the first entry with that name |
| Http.JsonResponse | supabase/functions/colorize/index.ts:19-22 | a JSON response carries every CORS header unchanged plus `Content-Type: application/json`, and no other header |
| Text.Decimal | supabase/functions/colorize/index.ts:46 | `${timestamp}` is a non-empty string of decimal digits with no leading zero (only 0 renders as "0") |
| Text.DecimalOfParseDecimal | supabase/functions/colorize/index.ts:46 | every digit string without a leading zero is the rendering of its value, so the rendering is exactly the canonical decimal form |
| Text.DecimalInjective | supabase/functions/colorize/index.ts:46 | different timestamps render to different decimal strings |
| Text.ParseDecimalOfDecimal | supabase/functions/colorize/index.ts:46 | reading the rendered timestamp back as a decimal number gives the timestamp |
| Text.Split | supabase/functions/colorize/index.ts:112 | `split(",")` gives at least one piece, no piece holds a comma, and joining the pieces with commas gives the input back |
| Text.SplitJoin | supabase/functions/colorize/index.ts:112 | splitting the comma-join of comma-free pieces gives exactly those pieces |
| Text.SecondField | supabase/functions/colorize/index.ts:112 | `split(",")[1]` is undefined exactly when the input has no comma, and never holds a comma |
| Text.SecondFieldOfFields | supabase/functions/colorize/index.ts:112 | `split(",")[1]` is the text between the first and the second comma, or up to the end when there is no second comma |
| Naming.Extension | supabase/functions/colorize/index.ts:45 | the extension is `png` exactly when the type is `image/png`, and `jpg` otherwise |
| Naming.OriginalPath | supabase/functions/colorize/index.ts:46 | an original path starts with `originals/`, ends in `.` and the extension, and the digits in between read back as the timestamp |
| Naming.ColoredPath | supabase/functions/colorize/index.ts:116 | a coloured path starts with `colored/`, ends in `.png`, and the digits in between read back as the timestamp |
| Naming.OriginalPathInjective | supabase/functions/colorize/index.ts:44-46 | two original paths are equal exactly when their timestamps and extensions are equal |
| Naming.ColoredPathInjective | supabase/functions/colorize/index.ts:116 | two coloured paths are equal exactly when their timestamps are equal |
| Naming.NamespacesDisjoint | supabase/functions/colorize/index.ts:116 | no original path equals any coloured path |
| Colorize.Truthy | supabase/functions/colorize/index.ts:18 | null is falsy; a file entry is truthy even with no bytes; a string entry is truthy exactly when it is non-empty |
| Colorize.DeclaredType | supabase/functions/colorize/index.ts:26 | `file.type` is defined exactly for a file entry, and is then its declared MIME type; a string entry has none |
| Colorize.Validate | supabase/functions/colorize/index.ts:16-34 | the upload is accepted exactly when the `file` value is truthy and its type is one of the three allowed; otherwise the error is "No file provided" for a falsy value and "Only PNG and JPEG files are allowed" otherwise |
| Colorize.DataUrl | supabase/functions/colorize/index.ts:65 | the data URL starts with `data:`, ends with the payload, is 13 characters longer than type and payload together, and gives back the payload as the decoder's argument when neither the type nor the payload holds a comma |
| Colorize.Base64Part | supabase/functions/colorize/index.ts:112-113 | the text given to the decoder holds no comma, and is `"undefined"` when the returned URL has no comma |
| Colorize.CaughtMessage | supabase/functions/colorize/index.ts:147-149 | the reported error message is never empty: it is the thrown message when that is non-empty, and "Unknown error" when it is empty |
| Colorize.Attempt | supabase/functions/colorize/index.ts:14-34 | the `try` block attempts some effect exactly when the body is form data and validation passes; it builds a response only with status 200 or 400 and the JSON headers, and 400 exactly when validation fails; an unreadable body throws its reason |
| Colorize.StoreOriginal | supabase/functions/colorize/index.ts:41-59 | the first effect is the upload of the original to `originals/<now>.<ext>` with its declared type; anything follows it exactly when the upload succeeds; a rejection throws "Upload failed: " + message; success needs all four effects |
| Colorize.AskGateway | supabase/functions/colorize/index.ts:61-109 | the first effect is the gateway call with the original's data URL; anything follows it only for an ok answer with a non-empty image URL; a non-ok answer throws "AI request failed: " + its text, a rejected `fetch` or unreadable body throws its own message, and an ok answer without an image throws "No image returned from AI", each with the call as the only effect |
| Colorize.StoreColored | supabase/functions/colorize/index.ts:111-129 | nothing is written exactly when decoding fails, and then the decoder's error is what is thrown; otherwise the decoded bytes go to `colored/<now>.png` as `image/png`, and the insert follows exactly when that upload succeeds, while a rejected upload throws "Colored upload failed: " + message; success answers with the coloured object's public URL |
| Colorize.Record | supabase/functions/colorize/index.ts:131-146 | the insert of the URL pair is the one effect; the answer is 200 with exactly that pair when the insert succeeds, and a throw of "Database insert failed: " + message otherwise |
| Colorize.Respond | supabase/functions/colorize/index.ts:147-155 | a response built in the `try` block passes through unchanged; a thrown error becomes status 500 with the JSON headers and a non-empty error message, which is the thrown message or "Unknown error" when that is empty |
| Colorize.Handle | supabase/functions/colorize/index.ts:9-155 | OPTIONS gives 200, only the CORS headers, a null body and no effects; every other request gets the JSON headers and status 200, 400 or 500; 200 exactly with the URL pair; 400 only with one of the two validation messages; 500 only with a non-empty error |
| Properties.UnreadableBodyFails | supabase/functions/colorize/index.ts:15 | a body that `formData()` rejects gives 500 with the caught message, and no effect happens |
| Properties.MissingFileRejected | supabase/functions/colorize/index.ts:16-23 | a missing or empty `file` value gives 400 "No file provided", and no effect happens |
| Properties.MissingFileIgnoresEverythingElse | supabase/functions/colorize/index.ts:16-23 | without a `file` entry the outcome is the same whatever the other fields, the timestamp and the collaborators |
| Properties.UnsupportedTypeRejected | supabase/functions/colorize/index.ts:25-34 | a file whose type is outside the three allowed gives 400 with the fixed message, and no effect happens |
| Properties.ValidationPrecedesEffects | supabase/functions/colorize/index.ts:18-50 | status 400 happens exactly when validation fails, and then the trace is empty; any non-empty trace starts with the upload of the validated file to `originals/<now>.<ext>` with its declared type |
| Properties.EffectsInFixedOrder | supabase/functions/colorize/index.ts:48-139 | the effects are, in order, a prefix of: original upload, gateway call, coloured upload, insert; at most two writes and at most one insert |
| Properties.OriginalUploadFailureStops | supabase/functions/colorize/index.ts:48-54 | a rejected original upload gives 500 "Upload failed: " + message, and that failed write is the whole trace |
| Properties.AiRequestFailureStops | supabase/functions/colorize/index.ts:62-101 | a non-ok gateway status gives 500 "AI request failed: " + its text; the trace is the original's write and one gateway call with `data:<type>;base64,<payload>`; no insert happens |
| Properties.MissingImageStops | supabase/functions/colorize/index.ts:103-109 | an ok gateway answer without an image URL gives 500 "No image returned from AI" after one write, with no coloured upload and no insert |
| Properties.GatewayThrowStops | supabase/functions/colorize/index.ts:68-103 | a rejected `fetch` or unreadable gateway body gives 500 with the caught message, after the original's write and the call, with no insert |
| Properties.DecodeFailureStops | supabase/functions/colorize/index.ts:111-113 | a returned image that the decoder rejects gives 500 with the caught decoder message, after one write and the call |
| Properties.ColoredUploadFailureStops | supabase/functions/colorize/index.ts:118-124 | a rejected coloured upload gives 500 and no insert; when that upload was attempted the message is "Colored upload failed: " + message |
| Properties.InsertFailureAfterBothWrites | supabase/functions/colorize/index.ts:132-139 | a rejected insert gives 500 "Database insert failed: " + message, after exactly two writes and one insert |
| Properties.SuccessReportsInsertedPair | supabase/functions/colorize/index.ts:126-146 | status 200 happens exactly when all four effects happened and the insert succeeded; the answer is exactly the inserted pair, inserted once, and the pair is the public URLs of the two written paths |
| Properties.HappyPathSucceeds | supabase/functions/colorize/index.ts:41-146 | when every collaborator succeeds and the returned image decodes, the answer is 200 with the public URLs of `originals/<now>.<ext>` and `colored/<now>.png`, and the trace is exactly the four effects, ending with the insert of that pair |
| Properties.InsertRejectedAfterHappyPath | supabase/functions/colorize/index.ts:132-139 | when every step before the insert succeeds and the insert is rejected, the answer is 500 "Database insert failed: " + message, after two writes and one insert |
| Properties.PathsShareTimestamp | supabase/functions/colorize/index.ts:44-116 | the original and the coloured object are named with the same timestamp |
| Properties.DistinctTimestampsDistinctOriginals | supabase/functions/colorize/index.ts:44-50 | two accepted requests at different timestamps each write an original, and never to the same path |
| Properties.DataUrlPayloadExtracted | supabase/functions/colorize/index.ts:65-112 | for a data URL whose type and payload hold no comma, the extracted part is the payload, whatever follows a second comma |
| Properties.ColoredBytesRoundTrip | supabase/functions/colorize/index.ts:62-120 | when the gateway returns the data URL of some bytes and the codec decodes what it encoded, exactly those bytes are written to `colored/<now>.png` as `image/png` |
| Pipeline.Step | supabase/functions/colorize/index.ts:14-139 | each step leaves a terminal stage unchanged, moves any other stage closer to the end, and appends at most one effect; a rejection appends none |
| Pipeline.Run | supabase/functions/colorize/index.ts:14-146 | a run always ends in Done, Rejected or Failed, and only ever extends the trace |
| Pipeline.Answer | supabase/functions/colorize/index.ts:141-155 | Done answers 200, Rejected 400 and Failed 500, all with the JSON headers |
| Pipeline.Serve | supabase/functions/colorize/index.ts:9-155 | the machine-built handler answers a pre-flight request with the CORS headers, no body and no effects; any other request gets the JSON headers, status 200, 400 or 500, and at most four effects |
| Pipeline.ServeAgreesWithHandle | supabase/functions/colorize/index.ts:9-155 | the stage machine and the handler give the same response and the same trace on every input |

## Left out

- `src/pages/Index.tsx`, the browser page: file picker, preview, result display and its `fetch`. It is presentation, not part of the handler.
- Storage, the record store and the AI gateway. They are not modelled beyond the outcome each call reports. The bucket and table name `blueprints`, the gateway URL, the model name, the prompt text and the request modalities are constants with no logic.
- `getPublicUrl`. It is the `publicUrl` function of the `Library` input. The shape of the URL it builds is not modelled.
- Base64 encoding and decoding. They are the `encode` and `decode` functions of the `Library` input. `encode` is total, so the `RangeError` that spreading a very large byte array into `String.fromCharCode` can raise is not modelled.
- `Date.now()` is the `now` input. It is a natural number, so clocks before 1970 are not modelled. Environment variables and client creation have no logic to model.
- Reading the file's bytes (`arrayBuffer`) is assumed to succeed.
- An upload or insert call that throws instead of returning an error is not modelled. Only the returned-error path is.
- A truthy gateway image value that is not a string, such as a number, is not modelled. The image value is a string or absent.
- JSON serialisation of the bodies, and the gateway's response schema beyond the one path the handler reads.
- Concurrency across invocations, and two requests stamped in the same millisecond. These are properties of the hosting runtime. The model only proves that different timestamps give different paths.
