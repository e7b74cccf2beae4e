/** The slice of the Fetch API the handler sees: requests, multipart form entries and responses. */
module Http {
  import opened Wrappers

  newtype byte = b: int | 0 <= b < 256

  /** A multipart form value: an uploaded `File` (declared MIME type and bytes) or a plain string. */
  datatype FormValue = FileValue(mime: string, content: seq<byte>) | TextValue(text: string)

  datatype FormEntry = FormEntry(name: string, value: FormValue)

  /** The request body as `req.formData()` sees it: parsed entries, or a rejection with its message. */
  datatype Body = FormData(entries: seq<FormEntry>) | NotFormData(reason: string)

  /** `verb` is `req.method`. */
  datatype Request = Request(verb: string, body: Body)

  /** `FormData.prototype.get`: the value of the first entry with that name, or null. */
  function FormGet(entries: seq<FormEntry>, name: string): (v: Option<FormValue>)
    ensures v.None? <==> forall i :: 0 <= i < |entries| ==> entries[i].name != name
    ensures v.Some? ==> exists i :: 0 <= i < |entries| && entries[i] == FormEntry(name, v.value)
                                    && forall j :: 0 <= j < i ==> entries[j].name != name
    decreases |entries|
  {
    if |entries| == 0 then None
    else if entries[0].name == name then
      assert entries[0] == FormEntry(name, entries[0].value);
      Some(entries[0].value)
    else
      var v := FormGet(entries[1..], name);
      if v.Some? then
        var i :| 0 <= i < |entries[1..]| && entries[1..][i] == FormEntry(name, v.value)
                 && forall j :: 0 <= j < i ==> entries[1..][j].name != name;
        assert entries[i + 1] == FormEntry(name, v.value);
        assert forall j :: 0 <= j < i + 1 ==> entries[j].name != name by {
          forall j | 0 <= j < i + 1 ensures entries[j].name != name {
            if j > 0 { assert entries[j] == entries[1..][j - 1]; }
          }
        }
        v
      else
        assert forall i :: 1 <= i < |entries| ==> entries[i] == entries[1..][i - 1];
        v
  }

  /** The JSON bodies the handler emits; `NoBody` is the `null` pre-flight body.
      `UrlPairJson` serialises as `{original_url, colored_url}`. */
  datatype Payload = NoBody | ErrorJson(error: string) | UrlPairJson(originalUrl: string, coloredUrl: string)

  datatype Response = Response(status: int, headers: map<string, string>, body: Payload)

  /** The permissive cross-origin headers sent on every response. */
  const CorsHeaders: map<string, string> :=
    map["Access-Control-Allow-Origin" := "*",
        "Access-Control-Allow-Headers" := "authorization, x-client-info, apikey, content-type"]

  /** `{ ...corsHeaders, "Content-Type": "application/json" }` */
  const JsonHeaders: map<string, string> := CorsHeaders["Content-Type" := "application/json"]

  function JsonResponse(status: int, payload: Payload): (r: Response)
    ensures r.status == status && r.body == payload
    ensures forall k :: k in CorsHeaders ==> k in r.headers && r.headers[k] == CorsHeaders[k]
    ensures r.headers.Keys == CorsHeaders.Keys + {"Content-Type"}
    ensures r.headers["Content-Type"] == "application/json"
  {
    Response(status, JsonHeaders, payload)
  }
}
