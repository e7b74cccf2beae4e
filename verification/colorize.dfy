/**
 * The `colorize` edge function: one stateless request handler that validates an
 * uploaded blueprint, stores it, asks the AI gateway for a coloured rendering,
 * stores that, records the URL pair and answers with JSON.
 *
 * Every collaborator the handler awaits (storage, the gateway, the record
 * store) is an input: a `Script` of the outcomes they will report, in the
 * order the handler asks. Library behaviour that is not visible here (base64
 * encoding and decoding, public-URL construction) is a `Library` of functions
 * passed in. The handler is then a pure function returning the response and
 * the trace of side effects it attempted.
 */
module Colorize {
  import opened Wrappers
  import opened Text
  import opened Http
  import opened Naming

  const NoFileMessage := "No file provided"
  const BadTypeMessage := "Only PNG and JPEG files are allowed"
  const NoImageMessage := "No image returned from AI"
  const UnknownErrorMessage := "Unknown error"
  const UploadFailedPrefix := "Upload failed: "
  const AiFailedPrefix := "AI request failed: "
  const ColoredUploadFailedPrefix := "Colored upload failed: "
  const InsertFailedPrefix := "Database insert failed: "

  const ValidTypes: seq<string> := ["image/png", "image/jpeg", "image/jpg"]

  /** What a storage `upload` reports: no error, or an error with its message. */
  datatype StoreOutcome = Stored | StoreRejected(message: string)

  /** What the gateway call yields: a non-ok status with the response text; an ok
      response with the value found at `choices[0].message.images[0].image_url.url`
      (absent when any link of that chain is missing); or a thrown error (network
      failure, unreadable body) with its message. */
  datatype AiOutcome = AiNotOk(errText: string) | AiOk(imageUrl: Option<string>) | AiThrew(message: string)

  /** What the record-store `insert` reports. */
  datatype InsertOutcome = Inserted | InsertRejected(message: string)

  /** The outcomes the collaborators will report, one per awaited call. */
  datatype Script = Script(original: StoreOutcome, ai: AiOutcome, colored: StoreOutcome, insert: InsertOutcome)

  /** Library functions the handler calls but whose code is not part of this model:
      `encode` is `btoa(String.fromCharCode(...bytes))`, `decode` is the byte view
      of `atob` (which throws on malformed input), `publicUrl` is `getPublicUrl`. */
  datatype Library = Library(
    encode: seq<byte> -> string,
    decode: string -> Result<seq<byte>, string>,
    publicUrl: string -> string)

  /** A side effect the handler attempted, whatever its collaborator then reported. */
  datatype Effect =
    | PutObject(path: string, content: seq<byte>, contentType: string)
    | CallGateway(dataUrl: string)
    | InsertRecord(originalUrl: string, coloredUrl: string)

  datatype Outcome = Outcome(response: Response, trace: seq<Effect>)

  /** An accepted upload: its declared MIME type and its bytes. */
  datatype Upload = Upload(mime: string, content: seq<byte>)

  /** How the `try` block ends: with a response it builds, or by throwing a message. */
  datatype Exit = Reply(response: Response) | Throw(message: string)

  datatype Attempted = Attempted(exit: Exit, trace: seq<Effect>)

  /** JavaScript truthiness of `formData.get("file")`: null and the empty string are falsy. */
  predicate Truthy(v: Option<FormValue>)
    ensures Truthy(v) ==> v.Some?
    ensures v.Some? && v.value.FileValue? ==> Truthy(v)
    ensures v.Some? && v.value.TextValue? ==> (Truthy(v) <==> v.value.text != "")
  {
    match v
    case None => false
    case Some(TextValue(t)) => t != ""
    case Some(FileValue(_, _)) => true
  }

  /** `file.type`: a string entry has no `type` property (undefined). */
  function DeclaredType(v: FormValue): (t: Option<string>)
    ensures t.Some? <==> v.FileValue?
    ensures v.FileValue? ==> t.value == v.mime
  {
    match v
    case FileValue(mime, _) => Some(mime)
    case TextValue(_) => None
  }

  predicate IsValidType(t: Option<string>) {
    t.Some? && t.value in ValidTypes
  }

  /** The two checks made before anything is written. */
  function Validate(v: Option<FormValue>): (r: Result<Upload, string>)
    ensures r.Success? <==> Truthy(v) && IsValidType(DeclaredType(v.value))
    ensures r.Success? ==> v == Some(FileValue(r.value.mime, r.value.content)) && r.value.mime in ValidTypes
    ensures r.Failure? && !Truthy(v) ==> r.error == NoFileMessage
    ensures r.Failure? && Truthy(v) ==> r.error == BadTypeMessage
  {
    if !Truthy(v) then Failure(NoFileMessage)
    else if !IsValidType(DeclaredType(v.value)) then Failure(BadTypeMessage)
    else Success(Upload(v.value.mime, v.value.content))
  }

  /** `data:${file.type};base64,${base64Image}`: the decoder's argument taken from it
      is the payload again when neither the type nor the payload holds a comma. */
  function DataUrl(mime: string, payload: string): (url: string)
    ensures |url| == |mime| + |payload| + 13
    ensures url[..5] == "data:" && url[|url| - |payload|..] == payload
    ensures ',' !in mime && ',' !in payload ==> Base64Part(url) == payload
  {
    var head := "data:" + mime + ";base64";
    var url := "data:" + mime + ";base64," + payload;
    assert url == head + [','] + payload;
    if ',' in mime || ',' in payload then url
    else
      assert ',' !in "data:" && ',' !in ";base64";
      SecondFieldOfFields(head, payload, None, ',');
      url
  }

  /** The argument handed to `atob`: `url.split(",")[1]`, which is `undefined`, and
      so the string "undefined", when the URL has no comma. */
  function Base64Part(url: string): (p: string)
    ensures ',' in url ==> ',' !in p
    ensures ',' !in url ==> p == "undefined"
  {
    match SecondField(url, ',')
    case Some(field) => field
    case None => "undefined"
  }

  /** The message the `catch` block reports: `err.message || "Unknown error"`. */
  function CaughtMessage(m: string): (r: string)
    ensures r != ""
    ensures m != "" ==> r == m
    ensures m == "" ==> r == UnknownErrorMessage
  {
    if m == "" then UnknownErrorMessage else m
  }

  /** The effect `e` followed by whatever `rest` did. */
  function Then(e: Effect, rest: Attempted): (r: Attempted)
    ensures r.exit == rest.exit && |r.trace| == |rest.trace| + 1 && r.trace[0] == e && r.trace[1..] == rest.trace
  {
    Attempted(rest.exit, [e] + rest.trace)
  }

  /** The `try` block after the pre-flight check: validation, then the stored steps. */
  function Attempt(body: Body, now: nat, script: Script, lib: Library): (r: Attempted)
    ensures |r.trace| <= 4
    ensures r.trace != [] <==> body.FormData? && Validate(FormGet(body.entries, "file")).Success?
    ensures r.exit.Reply? ==> r.exit.response.headers == JsonHeaders && r.exit.response.status in {200, 400}
    ensures r.exit.Reply? && r.exit.response.status == 400
            <==> body.FormData? && Validate(FormGet(body.entries, "file")).Failure?
    ensures body.NotFormData? ==> r.exit == Throw(body.reason)
  {
    match body
    case NotFormData(reason) => Attempted(Throw(reason), [])
    case FormData(entries) =>
      match Validate(FormGet(entries, "file"))
      case Failure(msg) => Attempted(Reply(JsonResponse(400, ErrorJson(msg))), [])
      case Success(upload) => StoreOriginal(upload, now, script, lib)
  }

  /** Upload the original to `originals/<now>.<ext>`, then continue with the gateway. */
  function StoreOriginal(upload: Upload, now: nat, script: Script, lib: Library): (r: Attempted)
    ensures 1 <= |r.trace| <= 4
    ensures r.trace[0] == PutObject(OriginalPath(now, Extension(upload.mime)), upload.content, upload.mime)
    ensures |r.trace| > 1 <==> script.original.Stored?
    ensures script.original.StoreRejected? ==> r.exit == Throw(UploadFailedPrefix + script.original.message)
    ensures r.exit.Reply? ==> |r.trace| == 4 && r.exit.response.status == 200
  {
    var path := OriginalPath(now, Extension(upload.mime));
    var put := PutObject(path, upload.content, upload.mime);
    match script.original
    case StoreRejected(m) => Attempted(Throw(UploadFailedPrefix + m), [put])
    case Stored => Then(put, AskGateway(upload, lib.publicUrl(path), now, script, lib))
  }

  /** Send the original as a data URL and look for a generated image in the answer. */
  function AskGateway(upload: Upload, originalUrl: string, now: nat, script: Script, lib: Library): (r: Attempted)
    ensures 1 <= |r.trace| <= 3
    ensures r.trace[0] == CallGateway(DataUrl(upload.mime, lib.encode(upload.content)))
    ensures |r.trace| > 1 ==> script.ai.AiOk? && script.ai.imageUrl.Some? && script.ai.imageUrl.value != ""
    ensures script.ai.AiNotOk? ==> r.exit == Throw(AiFailedPrefix + script.ai.errText) && |r.trace| == 1
    ensures script.ai.AiThrew? ==> r.exit == Throw(script.ai.message) && |r.trace| == 1
    ensures script.ai.AiOk? && (script.ai.imageUrl.None? || script.ai.imageUrl.value == "")
            ==> r.exit == Throw(NoImageMessage) && |r.trace| == 1
    ensures r.exit.Reply? ==> |r.trace| == 3 && r.exit.response.status == 200
  {
    var call := CallGateway(DataUrl(upload.mime, lib.encode(upload.content)));
    match script.ai
    case AiThrew(m) => Attempted(Throw(m), [call])
    case AiNotOk(text) => Attempted(Throw(AiFailedPrefix + text), [call])
    case AiOk(image) =>
      if image.None? || image.value == "" then Attempted(Throw(NoImageMessage), [call])
      else Then(call, StoreColored(originalUrl, image.value, now, script, lib))
  }

  /** Decode the generated image and upload it to `colored/<now>.png`. */
  function StoreColored(originalUrl: string, imageUrl: string, now: nat, script: Script, lib: Library): (r: Attempted)
    ensures |r.trace| <= 2
    ensures r.trace == [] <==> lib.decode(Base64Part(imageUrl)).Failure?
    ensures lib.decode(Base64Part(imageUrl)).Failure? ==> r.exit == Throw(lib.decode(Base64Part(imageUrl)).error)
    ensures r.trace != [] && script.colored.StoreRejected?
            ==> r.exit == Throw(ColoredUploadFailedPrefix + script.colored.message) && |r.trace| == 1
    ensures r.trace != [] ==> r.trace[0] == PutObject(ColoredPath(now), lib.decode(Base64Part(imageUrl)).value, "image/png")
    ensures |r.trace| == 2 <==> r.trace != [] && script.colored.Stored?
    ensures r.exit.Reply? ==> |r.trace| == 2 && r.exit.response.body == UrlPairJson(originalUrl, lib.publicUrl(ColoredPath(now)))
  {
    match lib.decode(Base64Part(imageUrl))
    case Failure(m) => Attempted(Throw(m), [])
    case Success(colored) =>
      var path := ColoredPath(now);
      var put := PutObject(path, colored, "image/png");
      match script.colored
      case StoreRejected(m) => Attempted(Throw(ColoredUploadFailedPrefix + m), [put])
      case Stored => Then(put, Record(originalUrl, lib.publicUrl(path), script))
  }

  /** Insert the URL pair and answer with it. */
  function Record(originalUrl: string, coloredUrl: string, script: Script): (r: Attempted)
    ensures r.trace == [InsertRecord(originalUrl, coloredUrl)]
    ensures r.exit.Reply? <==> script.insert.Inserted?
    ensures r.exit.Reply? ==> r.exit.response == JsonResponse(200, UrlPairJson(originalUrl, coloredUrl))
    ensures script.insert.InsertRejected? ==> r.exit == Throw(InsertFailedPrefix + script.insert.message)
  {
    var insert := InsertRecord(originalUrl, coloredUrl);
    match script.insert
    case InsertRejected(m) => Attempted(Throw(InsertFailedPrefix + m), [insert])
    case Inserted => Attempted(Reply(JsonResponse(200, UrlPairJson(originalUrl, coloredUrl))), [insert])
  }

  /** The response for a `try` block's exit: a thrown error becomes a 500. */
  function Respond(exit: Exit): (r: Response)
    ensures exit.Reply? ==> r == exit.response
    ensures exit.Throw? ==> r.status == 500 && r.headers == JsonHeaders && r.body.ErrorJson? && r.body.error != ""
    ensures exit.Throw? && exit.message != "" ==> r.body.error == exit.message
    ensures exit.Throw? && exit.message == "" ==> r.body.error == UnknownErrorMessage
  {
    match exit
    case Reply(response) => response
    case Throw(m) => JsonResponse(500, ErrorJson(CaughtMessage(m)))
  }

  /** The whole handler: `now` is `Date.now()` at the moment the paths are named. */
  function Handle(req: Request, now: nat, script: Script, lib: Library): (out: Outcome)
    ensures req.verb == "OPTIONS" ==> out == Outcome(Response(200, CorsHeaders, NoBody), [])
    ensures req.verb != "OPTIONS" ==> out.response.headers == JsonHeaders && out.response.body != NoBody
    ensures req.verb != "OPTIONS" ==> out.response.status in {200, 400, 500}
    ensures out.response.status == 200 && req.verb != "OPTIONS" <==> out.response.body.UrlPairJson?
    ensures out.response.status == 400 ==> out.response.body in {ErrorJson(NoFileMessage), ErrorJson(BadTypeMessage)}
    ensures out.response.status == 500 ==> out.response.body.ErrorJson? && out.response.body.error != ""
  {
    if req.verb == "OPTIONS" then Outcome(Response(200, CorsHeaders, NoBody), [])
    else
      var attempted := Attempt(req.body, now, script, lib);
      Outcome(Respond(attempted.exit), attempted.trace)
  }
}
