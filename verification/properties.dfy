/** What the colorize handler promises, stated over every input and every collaborator script. */
module Properties {
  import opened Wrappers
  import opened Text
  import opened Http
  import opened Naming
  import opened Colorize

  /** The request passes validation and `upload` is the file it carries. */
  predicate Accepts(req: Request, upload: Upload) {
    && req.verb != "OPTIONS"
    && req.body.FormData?
    && Validate(FormGet(req.body.entries, "file")) == Success(upload)
  }

  /** Where an effect sits in the fixed order: original upload, gateway call, coloured upload, insert. */
  function Slot(e: Effect, now: nat): nat {
    match e
    case PutObject(path, _, _) => if path == ColoredPath(now) then 2 else 0
    case CallGateway(_) => 1
    case InsertRecord(_, _) => 3
  }

  function Writes(trace: seq<Effect>): nat {
    if |trace| == 0 then 0 else IsWrite(trace[0]) + Writes(trace[1..])
  }

  function Inserts(trace: seq<Effect>): nat {
    if |trace| == 0 then 0 else IsInsert(trace[0]) + Inserts(trace[1..])
  }

  function IsWrite(e: Effect): nat {
    if e.PutObject? then 1 else 0
  }

  function IsInsert(e: Effect): nat {
    if e.InsertRecord? then 1 else 0
  }

  /** The counts of a trace of at most four effects, position by position. */
  lemma {:induction false} Tally(trace: seq<Effect>)
    requires |trace| <= 4
    ensures Writes(trace) == (if |trace| > 0 then IsWrite(trace[0]) else 0) + (if |trace| > 1 then IsWrite(trace[1]) else 0)
                             + (if |trace| > 2 then IsWrite(trace[2]) else 0) + (if |trace| > 3 then IsWrite(trace[3]) else 0)
    ensures Inserts(trace) == (if |trace| > 0 then IsInsert(trace[0]) else 0) + (if |trace| > 1 then IsInsert(trace[1]) else 0)
                              + (if |trace| > 2 then IsInsert(trace[2]) else 0) + (if |trace| > 3 then IsInsert(trace[3]) else 0)
  {
    if |trace| > 0 {
      var t1 := trace[1..];
      assert Writes(trace) == IsWrite(trace[0]) + Writes(t1);
      assert Inserts(trace) == IsInsert(trace[0]) + Inserts(t1);
      if |t1| > 0 {
        var t2 := t1[1..];
        assert Writes(t1) == IsWrite(trace[1]) + Writes(t2);
        assert Inserts(t1) == IsInsert(trace[1]) + Inserts(t2);
        if |t2| > 0 {
          var t3 := t2[1..];
          assert Writes(t2) == IsWrite(trace[2]) + Writes(t3);
          assert Inserts(t2) == IsInsert(trace[2]) + Inserts(t3);
          if |t3| > 0 {
            assert Writes(t3) == IsWrite(trace[3]) + Writes(t3[1..]);
            assert Inserts(t3) == IsInsert(trace[3]) + Inserts(t3[1..]);
            assert |t3[1..]| == 0;
          }
        }
      }
    }
  }

  /** A body that cannot be read as form data is a thrown error: 500 and nothing written. */
  lemma UnreadableBodyFails(req: Request, now: nat, script: Script, lib: Library)
    requires req.verb != "OPTIONS" && req.body.NotFormData?
    ensures Handle(req, now, script, lib) == Outcome(JsonResponse(500, ErrorJson(CaughtMessage(req.body.reason))), [])
  {
  }

  /** No usable `file` entry: 400 "No file provided", and no side effect. */
  lemma MissingFileRejected(req: Request, now: nat, script: Script, lib: Library)
    requires req.verb != "OPTIONS" && req.body.FormData?
    requires !Truthy(FormGet(req.body.entries, "file"))
    ensures Handle(req, now, script, lib) == Outcome(JsonResponse(400, ErrorJson(NoFileMessage)), [])
  {
  }

  /** Without a `file` entry the answer is the same whatever the other fields, the clock
      or the collaborators would have done. */
  lemma MissingFileIgnoresEverythingElse(
    req1: Request, now1: nat, script1: Script, lib1: Library,
    req2: Request, now2: nat, script2: Script, lib2: Library)
    requires req1.verb != "OPTIONS" && req1.body.FormData? && FormGet(req1.body.entries, "file").None?
    requires req2.verb != "OPTIONS" && req2.body.FormData? && FormGet(req2.body.entries, "file").None?
    ensures Handle(req1, now1, script1, lib1) == Handle(req2, now2, script2, lib2)
  {
  }

  /** A file whose declared type is not PNG or JPEG: 400 with the fixed message, and no side effect. */
  lemma UnsupportedTypeRejected(req: Request, now: nat, script: Script, lib: Library)
    requires req.verb != "OPTIONS" && req.body.FormData?
    requires Truthy(FormGet(req.body.entries, "file"))
    requires !IsValidType(DeclaredType(FormGet(req.body.entries, "file").value))
    ensures Handle(req, now, script, lib) == Outcome(JsonResponse(400, ErrorJson(BadTypeMessage)), [])
  {
  }

  /** Validation comes before any side effect: a 400 is exactly a failed validation and
      leaves the trace empty, and any effect at all starts with the original's upload. */
  lemma ValidationPrecedesEffects(req: Request, now: nat, script: Script, lib: Library)
    requires req.verb != "OPTIONS"
    ensures var out := Handle(req, now, script, lib);
      out.response.status == 400 <==> req.body.FormData? && Validate(FormGet(req.body.entries, "file")).Failure?
    ensures var out := Handle(req, now, script, lib);
      out.response.status == 400 ==> out.trace == []
    ensures var out := Handle(req, now, script, lib);
      |out.trace| > 0 ==>
        && req.body.FormData?
        && var v := Validate(FormGet(req.body.entries, "file"));
        && v.Success?
        && out.trace[0] == PutObject(OriginalPath(now, Extension(v.value.mime)), v.value.content, v.value.mime)
  {
  }

  /** Effects happen in the fixed order and each at most once. */
  lemma EffectsInFixedOrder(req: Request, now: nat, script: Script, lib: Library)
    ensures var trace := Handle(req, now, script, lib).trace;
      |trace| <= 4 && forall i :: 0 <= i < |trace| ==> Slot(trace[i], now) == i
    ensures var trace := Handle(req, now, script, lib).trace;
      Writes(trace) <= 2 && Inserts(trace) <= 1
  {
    var trace := Handle(req, now, script, lib).trace;
    if |trace| > 0 {
      var u := Validate(FormGet(req.body.entries, "file")).value;
      NamespacesDisjoint(now, Extension(u.mime), now);
    }
    Tally(trace);
  }

  /** A rejected original upload ends the request: 500, and the one failed write is all that happened. */
  lemma OriginalUploadFailureStops(req: Request, now: nat, script: Script, lib: Library, upload: Upload, m: string)
    requires Accepts(req, upload)
    requires script.original == StoreRejected(m)
    ensures Handle(req, now, script, lib) == Outcome(
      JsonResponse(500, ErrorJson(UploadFailedPrefix + m)),
      [PutObject(OriginalPath(now, Extension(upload.mime)), upload.content, upload.mime)])
  {
  }

  /** A non-ok gateway status ends the request with its text: the original stays written,
      nothing else is stored and nothing is inserted. The outgoing image is the data URL
      of the original's bytes under its declared type. */
  lemma AiRequestFailureStops(req: Request, now: nat, script: Script, lib: Library, upload: Upload, text: string)
    requires Accepts(req, upload)
    requires script.original == Stored && script.ai == AiNotOk(text)
    ensures Handle(req, now, script, lib) == Outcome(
      JsonResponse(500, ErrorJson(AiFailedPrefix + text)),
      [PutObject(OriginalPath(now, Extension(upload.mime)), upload.content, upload.mime),
       CallGateway(DataUrl(upload.mime, lib.encode(upload.content)))])
    ensures Writes(Handle(req, now, script, lib).trace) == 1
    ensures Inserts(Handle(req, now, script, lib).trace) == 0
  {
    Tally(Handle(req, now, script, lib).trace);
  }

  /** An ok gateway answer without a usable image URL ends the request before the coloured upload. */
  lemma MissingImageStops(req: Request, now: nat, script: Script, lib: Library, upload: Upload)
    requires Accepts(req, upload)
    requires script.original == Stored && script.ai.AiOk?
    requires script.ai.imageUrl.None? || script.ai.imageUrl.value == ""
    ensures Handle(req, now, script, lib).response == JsonResponse(500, ErrorJson(NoImageMessage))
    ensures |Handle(req, now, script, lib).trace| == 2
    ensures Writes(Handle(req, now, script, lib).trace) == 1
    ensures Inserts(Handle(req, now, script, lib).trace) == 0
  {
    Tally(Handle(req, now, script, lib).trace);
  }

  /** A rejected `fetch` or an unreadable gateway body is caught like any thrown error:
      500 with its message, after the original's write and the call. */
  lemma GatewayThrowStops(req: Request, now: nat, script: Script, lib: Library, upload: Upload, e: string)
    requires Accepts(req, upload)
    requires script.original == Stored && script.ai == AiThrew(e)
    ensures Handle(req, now, script, lib).response == JsonResponse(500, ErrorJson(CaughtMessage(e)))
    ensures |Handle(req, now, script, lib).trace| == 2
    ensures Inserts(Handle(req, now, script, lib).trace) == 0
  {
    Tally(Handle(req, now, script, lib).trace);
  }

  /** A returned image that `atob` rejects is caught like any thrown error: 500 with the
      decoder's message, and nothing more is written. */
  lemma DecodeFailureStops(req: Request, now: nat, script: Script, lib: Library, upload: Upload, url: string, e: string)
    requires Accepts(req, upload)
    requires script.original == Stored && script.ai == AiOk(Some(url)) && url != ""
    requires lib.decode(Base64Part(url)) == Failure(e)
    ensures Handle(req, now, script, lib).response == JsonResponse(500, ErrorJson(CaughtMessage(e)))
    ensures |Handle(req, now, script, lib).trace| == 2
    ensures Writes(Handle(req, now, script, lib).trace) == 1
  {
    Tally(Handle(req, now, script, lib).trace);
  }

  /** A rejected coloured upload ends the request before the insert. */
  lemma ColoredUploadFailureStops(req: Request, now: nat, script: Script, lib: Library, upload: Upload, m: string)
    requires Accepts(req, upload)
    requires script.original == Stored && script.ai.AiOk? && script.colored == StoreRejected(m)
    ensures var out := Handle(req, now, script, lib);
      out.response.status == 500 && Inserts(out.trace) == 0
    ensures var out := Handle(req, now, script, lib);
      |out.trace| == 3 ==> out.response.body == ErrorJson(ColoredUploadFailedPrefix + m)
  {
    Tally(Handle(req, now, script, lib).trace);
  }

  /** A rejected insert is reported after both images are already written. */
  lemma InsertFailureAfterBothWrites(req: Request, now: nat, script: Script, lib: Library, m: string)
    requires req.verb != "OPTIONS"
    requires script.insert == InsertRejected(m)
    ensures var out := Handle(req, now, script, lib);
      |out.trace| == 4 ==>
        out.response == JsonResponse(500, ErrorJson(InsertFailedPrefix + m)) && Writes(out.trace) == 2 && Inserts(out.trace) == 1
  {
    Tally(Handle(req, now, script, lib).trace);
  }

  /** A 200 answers with exactly the pair that was inserted, once, after both writes,
      and the pair is the public URLs of `originals/<now>.<ext>` and `colored/<now>.png`. */
  lemma SuccessReportsInsertedPair(req: Request, now: nat, script: Script, lib: Library)
    requires req.verb != "OPTIONS"
    ensures var out := Handle(req, now, script, lib);
      out.response.status == 200 ==>
        && |out.trace| == 4
        && out.trace[3] == InsertRecord(out.response.body.originalUrl, out.response.body.coloredUrl)
        && Inserts(out.trace) == 1 && Writes(out.trace) == 2
        && out.trace[2].path == ColoredPath(now)
        && out.response.body.originalUrl == lib.publicUrl(out.trace[0].path)
        && out.response.body.coloredUrl == lib.publicUrl(ColoredPath(now))
    ensures var out := Handle(req, now, script, lib);
      out.response.status == 200 <==> |out.trace| == 4 && script.insert == Inserted
  {
    Tally(Handle(req, now, script, lib).trace);
  }

  /** When every collaborator succeeds and the returned image decodes, the request
      succeeds: 200 with the public URLs of `originals/<now>.<ext>` and
      `colored/<now>.png`, after all four effects. */
  lemma HappyPathSucceeds(req: Request, now: nat, script: Script, lib: Library, upload: Upload,
                          url: string, colored: seq<byte>)
    requires Accepts(req, upload)
    requires script == Script(Stored, AiOk(Some(url)), Stored, Inserted) && url != ""
    requires lib.decode(Base64Part(url)) == Success(colored)
    ensures var out := Handle(req, now, script, lib);
      && out.response == JsonResponse(200, UrlPairJson(lib.publicUrl(OriginalPath(now, Extension(upload.mime))),
                                                       lib.publicUrl(ColoredPath(now))))
      && out.trace == [PutObject(OriginalPath(now, Extension(upload.mime)), upload.content, upload.mime),
                       CallGateway(DataUrl(upload.mime, lib.encode(upload.content))),
                       PutObject(ColoredPath(now), colored, "image/png"),
                       InsertRecord(out.response.body.originalUrl, out.response.body.coloredUrl)]
  {
  }

  /** The same run with a rejected insert: both objects are written, the insert is
      attempted once, and the answer is 500 with the insert's message. */
  lemma InsertRejectedAfterHappyPath(req: Request, now: nat, script: Script, lib: Library, upload: Upload,
                                     url: string, colored: seq<byte>, m: string)
    requires Accepts(req, upload)
    requires script == Script(Stored, AiOk(Some(url)), Stored, InsertRejected(m)) && url != ""
    requires lib.decode(Base64Part(url)) == Success(colored)
    ensures Handle(req, now, script, lib).response == JsonResponse(500, ErrorJson(InsertFailedPrefix + m))
    ensures |Handle(req, now, script, lib).trace| == 4
    ensures Writes(Handle(req, now, script, lib).trace) == 2 && Inserts(Handle(req, now, script, lib).trace) == 1
  {
    Tally(Handle(req, now, script, lib).trace);
  }

  /** Each request names both of its objects with the same timestamp. */
  lemma PathsShareTimestamp(req: Request, now: nat, script: Script, lib: Library)
    ensures var trace := Handle(req, now, script, lib).trace;
      |trace| >= 3 ==> exists ext :: trace[0].path == OriginalPath(now, ext) && trace[2].path == ColoredPath(now)
  {
    var trace := Handle(req, now, script, lib).trace;
    if |trace| >= 3 {
      var u := Validate(FormGet(req.body.entries, "file")).value;
      assert trace[0].path == OriginalPath(now, Extension(u.mime));
    }
  }

  /** Two accepted requests handled at different timestamps never write the same original path. */
  lemma DistinctTimestampsDistinctOriginals(
    req1: Request, now1: nat, script1: Script, lib1: Library, upload1: Upload,
    req2: Request, now2: nat, script2: Script, lib2: Library, upload2: Upload)
    requires Accepts(req1, upload1) && Accepts(req2, upload2)
    requires now1 != now2
    ensures |Handle(req1, now1, script1, lib1).trace| > 0 && |Handle(req2, now2, script2, lib2).trace| > 0
    ensures Handle(req1, now1, script1, lib1).trace[0].path != Handle(req2, now2, script2, lib2).trace[0].path
  {
    OriginalPathInjective(now1, Extension(upload1.mime), now2, Extension(upload2.mime));
  }

  /** The part handed to the decoder is the segment between the first and second comma:
      for a data URL whose type and payload have no comma, it is the payload itself. */
  lemma DataUrlPayloadExtracted(mime: string, payload: string, trailing: Option<string>)
    requires ',' !in mime && ',' !in payload
    ensures trailing.None? ==> Base64Part(DataUrl(mime, payload)) == payload
    ensures trailing.Some? ==> Base64Part(DataUrl(mime, payload + "," + trailing.value)) == payload
  {
    var head := "data:" + mime + ";base64";
    assert ',' !in "data:" && ',' !in ";base64";
    if trailing.Some? {
      SecondFieldOfFields(head, payload, trailing, ',');
      assert DataUrl(mime, payload + "," + trailing.value) == head + [','] + payload + [','] + trailing.value;
    }
  }

  /** When the gateway returns the data URL of some bytes and the codec round-trips them,
      exactly those bytes are written to the coloured path. */
  lemma ColoredBytesRoundTrip(req: Request, now: nat, script: Script, lib: Library, upload: Upload, bytes: seq<byte>, mime: string)
    requires Accepts(req, upload)
    requires script.original == Stored
    requires script.ai == AiOk(Some(DataUrl(mime, lib.encode(bytes))))
    requires ',' !in mime && ',' !in lib.encode(bytes)
    requires lib.decode(lib.encode(bytes)) == Success(bytes)
    ensures |Handle(req, now, script, lib).trace| >= 3
    ensures Handle(req, now, script, lib).trace[2] == PutObject(ColoredPath(now), bytes, "image/png")
  {
    DataUrlPayloadExtracted(mime, lib.encode(bytes), None);
  }
}
