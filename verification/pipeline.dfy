/**
 * The handler as the per-request stage machine
 *   Validating -> PersistingOriginal -> CallingAI -> DecodingResult
 *     -> PersistingResult -> RecordingMetadata -> Done
 * with two absorbing stages: Rejected (400), entered only from Validating, and
 * Failed (500), reachable from any step.
 * Each step awaits at most one collaborator and appends at most one effect.
 * `Serve` runs the machine; `ServeAgreesWithHandle` shows it is the handler.
 */
module Pipeline {
  import opened Wrappers
  import opened Http
  import opened Naming
  import opened Colorize

  datatype Stage =
    | Validating
    | PersistingOriginal(upload: Upload)
    | CallingAI(upload: Upload, originalUrl: string)
    | DecodingResult(originalUrl: string, imageUrl: string)
    | PersistingResult(originalUrl: string, colored: seq<byte>)
    | RecordingMetadata(originalUrl: string, coloredUrl: string)
    | Done(originalUrl: string, coloredUrl: string)
    | Rejected(message: string)
    | Failed(reason: string)

  datatype Machine = Machine(stage: Stage, trace: seq<Effect>)

  predicate Terminal(s: Stage) {
    s.Done? || s.Rejected? || s.Failed?
  }

  /** How many steps at most remain before a terminal stage. */
  function Remaining(s: Stage): nat {
    match s
    case Validating => 6
    case PersistingOriginal(_) => 5
    case CallingAI(_, _) => 4
    case DecodingResult(_, _) => 3
    case PersistingResult(_, _) => 2
    case RecordingMetadata(_, _) => 1
    case _ => 0
  }

  /** One step: the work of the current stage, one awaited outcome at most. */
  function Step(m: Machine, body: Body, now: nat, script: Script, lib: Library): (m': Machine)
    ensures Terminal(m.stage) ==> m' == m
    ensures !Terminal(m.stage) ==> Remaining(m'.stage) < Remaining(m.stage)
    ensures |m.trace| <= |m'.trace| <= |m.trace| + 1 && m'.trace[..|m.trace|] == m.trace
    ensures m'.stage.Rejected? ==> m'.trace == m.trace
  {
    match m.stage
    case Validating =>
      (match body
       case NotFormData(reason) => Machine(Failed(reason), m.trace)
       case FormData(entries) =>
         match Validate(FormGet(entries, "file"))
         case Failure(msg) => Machine(Rejected(msg), m.trace)
         case Success(upload) => Machine(PersistingOriginal(upload), m.trace))
    case PersistingOriginal(upload) =>
      var path := OriginalPath(now, Extension(upload.mime));
      var trace := m.trace + [PutObject(path, upload.content, upload.mime)];
      (match script.original
       case StoreRejected(msg) => Machine(Failed(UploadFailedPrefix + msg), trace)
       case Stored => Machine(CallingAI(upload, lib.publicUrl(path)), trace))
    case CallingAI(upload, originalUrl) =>
      var trace := m.trace + [CallGateway(DataUrl(upload.mime, lib.encode(upload.content)))];
      (match script.ai
       case AiThrew(msg) => Machine(Failed(msg), trace)
       case AiNotOk(text) => Machine(Failed(AiFailedPrefix + text), trace)
       case AiOk(None) => Machine(Failed(NoImageMessage), trace)
       case AiOk(Some(url)) =>
         if url == "" then Machine(Failed(NoImageMessage), trace)
         else Machine(DecodingResult(originalUrl, url), trace))
    case DecodingResult(originalUrl, imageUrl) =>
      (match lib.decode(Base64Part(imageUrl))
       case Failure(msg) => Machine(Failed(msg), m.trace)
       case Success(colored) => Machine(PersistingResult(originalUrl, colored), m.trace))
    case PersistingResult(originalUrl, colored) =>
      var path := ColoredPath(now);
      var trace := m.trace + [PutObject(path, colored, "image/png")];
      (match script.colored
       case StoreRejected(msg) => Machine(Failed(ColoredUploadFailedPrefix + msg), trace)
       case Stored => Machine(RecordingMetadata(originalUrl, lib.publicUrl(path)), trace))
    case RecordingMetadata(originalUrl, coloredUrl) =>
      var trace := m.trace + [InsertRecord(originalUrl, coloredUrl)];
      (match script.insert
       case InsertRejected(msg) => Machine(Failed(InsertFailedPrefix + msg), trace)
       case Inserted => Machine(Done(originalUrl, coloredUrl), trace))
    case _ => m
  }

  /** Steps until a terminal stage; the trace only ever grows. */
  function Run(m: Machine, body: Body, now: nat, script: Script, lib: Library): (r: Machine)
    ensures Terminal(r.stage)
    ensures |m.trace| <= |r.trace| <= |m.trace| + Remaining(m.stage) && r.trace[..|m.trace|] == m.trace
    decreases Remaining(m.stage)
  {
    if Terminal(m.stage) then m
    else
      var next := Step(m, body, now, script, lib);
      var r := Run(next, body, now, script, lib);
      assert r.trace[..|m.trace|] == r.trace[..|next.trace|][..|m.trace|];
      r
  }

  /** The answer for a terminal stage. */
  function Answer(s: Stage): (r: Response)
    requires Terminal(s)
    ensures r.headers == JsonHeaders
    ensures s.Done? <==> r.status == 200
    ensures s.Rejected? <==> r.status == 400
    ensures s.Failed? <==> r.status == 500
  {
    match s
    case Done(originalUrl, coloredUrl) => JsonResponse(200, UrlPairJson(originalUrl, coloredUrl))
    case Rejected(message) => JsonResponse(400, ErrorJson(message))
    case Failed(reason) => JsonResponse(500, ErrorJson(CaughtMessage(reason)))
  }

  /** The handler built from the stage machine. */
  function Serve(req: Request, now: nat, script: Script, lib: Library): (out: Outcome)
    ensures req.verb == "OPTIONS" ==> out == Outcome(Response(200, CorsHeaders, NoBody), [])
    ensures req.verb != "OPTIONS" ==> out.response.headers == JsonHeaders && out.response.status in {200, 400, 500}
    ensures |out.trace| <= 4
  {
    if req.verb == "OPTIONS" then Outcome(Response(200, CorsHeaders, NoBody), [])
    else
      var m0 := Machine(Validating, []);
      var m1 := Step(m0, req.body, now, script, lib);
      RunStep(m0, req.body, now, script, lib);
      var m := Run(m0, req.body, now, script, lib);
      if m1.stage.PersistingOriginal? then
        RunFromPersistingOriginal(m1, req.body, now, script, lib);
        Outcome(Answer(m.stage), m.trace)
      else
        RunStep(m1, req.body, now, script, lib);
        Outcome(Answer(m.stage), m.trace)
  }

  /** The stage machine and the handler give the same response and the same trace on every input. */
  lemma ServeAgreesWithHandle(req: Request, now: nat, script: Script, lib: Library)
    ensures Serve(req, now, script, lib) == Handle(req, now, script, lib)
  {
    if req.verb != "OPTIONS" {
      var body := req.body;
      var m0 := Machine(Validating, []);
      RunStep(m0, body, now, script, lib);
      var m1 := Step(m0, body, now, script, lib);
      if Terminal(m1.stage) {
        RunStep(m1, body, now, script, lib);
      } else {
        RunFromPersistingOriginal(m1, body, now, script, lib);
      }
    }
  }

  /** A run from a stage lands where the handler's corresponding step ends: the same
      answer, and the handler's effects appended to the trace so far. */
  predicate Lands(r: Machine, start: seq<Effect>, a: Attempted) {
    Terminal(r.stage) && r.trace == start + a.trace && Answer(r.stage) == Respond(a.exit)
  }

  lemma RunFromRecording(m: Machine, body: Body, now: nat, script: Script, lib: Library)
    requires m.stage.RecordingMetadata?
    ensures Lands(Run(m, body, now, script, lib), m.trace, Record(m.stage.originalUrl, m.stage.coloredUrl, script))
  {
    RunStep(m, body, now, script, lib);
    RunStep(Step(m, body, now, script, lib), body, now, script, lib);
  }

  lemma RunFromDecoding(m: Machine, body: Body, now: nat, script: Script, lib: Library)
    requires m.stage.DecodingResult?
    ensures Lands(Run(m, body, now, script, lib), m.trace, StoreColored(m.stage.originalUrl, m.stage.imageUrl, now, script, lib))
  {
    var m1 := Step(m, body, now, script, lib);
    RunStep(m, body, now, script, lib);
    RunStep(m1, body, now, script, lib);
    if m1.stage.PersistingResult? {
      var m2 := Step(m1, body, now, script, lib);
      RunStep(m2, body, now, script, lib);
      if m2.stage.RecordingMetadata? {
        RunFromRecording(m2, body, now, script, lib);
        var put := PutObject(ColoredPath(now), m1.stage.colored, "image/png");
        var rest := Record(m2.stage.originalUrl, m2.stage.coloredUrl, script);
        assert m2.trace + rest.trace == m.trace + ([put] + rest.trace);
      }
    }
  }

  lemma RunFromCallingAI(m: Machine, body: Body, now: nat, script: Script, lib: Library)
    requires m.stage.CallingAI?
    ensures Lands(Run(m, body, now, script, lib), m.trace, AskGateway(m.stage.upload, m.stage.originalUrl, now, script, lib))
  {
    var m1 := Step(m, body, now, script, lib);
    RunStep(m, body, now, script, lib);
    RunStep(m1, body, now, script, lib);
    if m1.stage.DecodingResult? {
      RunFromDecoding(m1, body, now, script, lib);
      var call := CallGateway(DataUrl(m.stage.upload.mime, lib.encode(m.stage.upload.content)));
      var rest := StoreColored(m1.stage.originalUrl, m1.stage.imageUrl, now, script, lib);
      assert m1.trace + rest.trace == m.trace + ([call] + rest.trace);
    }
  }

  lemma RunFromPersistingOriginal(m: Machine, body: Body, now: nat, script: Script, lib: Library)
    requires m.stage.PersistingOriginal?
    ensures Lands(Run(m, body, now, script, lib), m.trace, StoreOriginal(m.stage.upload, now, script, lib))
  {
    var m1 := Step(m, body, now, script, lib);
    RunStep(m, body, now, script, lib);
    RunStep(m1, body, now, script, lib);
    if m1.stage.CallingAI? {
      RunFromCallingAI(m1, body, now, script, lib);
      var upload := m.stage.upload;
      var put := PutObject(OriginalPath(now, Extension(upload.mime)), upload.content, upload.mime);
      var rest := AskGateway(upload, m1.stage.originalUrl, now, script, lib);
      assert m1.trace + rest.trace == m.trace + ([put] + rest.trace);
    }
  }

  /** Running is stepping once and running on; from a terminal stage both change nothing. */
  lemma RunStep(m: Machine, body: Body, now: nat, script: Script, lib: Library)
    ensures Run(m, body, now, script, lib) == Run(Step(m, body, now, script, lib), body, now, script, lib)
    ensures Terminal(m.stage) ==> Run(m, body, now, script, lib) == m
  {
  }
}
