/** EnvelopeJSONDataHandler: its status page, verifyRequest, parseEnvelope (command path, the
    synthesised `.json` URL, action, folded headers, multipart parts, query) and what its reply
    writes. */
module JsonRequests {
  import opened Wrappers
  import opened Text
  import opened Envelopes
  import opened Requests
  import opened Correlation

  /** How long `handle` holds the request thread: thirty seconds. */
  const HoldMillis: nat := 30 * 1000

  /** The target answered with a status page instead of an envelope. */
  const RootTarget: string := "/"

  const UrlPrefix: string := "http://127.0.0.1"
  const UrlSuffix: string := ".json"

  /** A Java string concatenation of a possibly null String. */
  function TargetText(target: Option<string>): string {
    if target.Some? then target.value else "null"
  }

  /** The URL the sensor manager recognises as this sensor's: the target between the loopback
      prefix and the `.json` suffix. */
  function JsonUrl(target: Option<string>): (r: string)
    ensures StartsWith(r, UrlPrefix)
    ensures |r| >= |UrlPrefix| + |UrlSuffix| && r[|r| - |UrlSuffix|..] == UrlSuffix
    ensures r[|UrlPrefix|..|r| - |UrlSuffix|] == TargetText(target)
  {
    var r := UrlPrefix + TargetText(target) + UrlSuffix;
    assert r[..|UrlPrefix|] == UrlPrefix;
    assert r[|UrlPrefix|..|r| - |UrlSuffix|] == TargetText(target);
    r
  }

  /** verifyRequest accepts every request, so `handle` never answers early with its status. */
  function VerifyRequest(target: Option<string>, req: HttpRequest): (status: int)
    ensures status == 200
  {
    200
  }

  /** Parts are read only for a content type that is exactly multipart/form-data. */
  predicate ReadsParts(e: Envelope) {
    ContentType(e) == Some("multipart/form-data")
  }

  function JsonBase(envelopeId: int, handlerId: Option<int>, target: Option<string>, req: HttpRequest, urlAccepted: bool): (e: Envelope)
    ensures |e.data| == 1
  {
    DocumentEnvelope(envelopeId).(
      headers := FoldHeaders(map[HANDLER_ID := IdHeader(handlerId)], req.headers),
      commandPath := target,
      url := if urlAccepted then Some(JsonUrl(target)) else None,
      action := Some(ActionFor(req.verb)))
  }

  /** The parts step; any failure of getParts is caught and leaves the data as it is. */
  function JsonData(e: Envelope, req: HttpRequest): seq<DataMap>
    requires |e.data| >= 1
  {
    if ReadsParts(e) && req.parts.Parts? then TextParts(e.data, req.parts.parts, true).data else e.data
  }

  /** parseEnvelope: the envelope always goes out external, carrying the command path, the URL and
      the query map when there is a query; only a malformed query throws. */
  function JsonEnvelope(envelopeId: int, handlerId: Option<int>, target: Option<string>, req: HttpRequest, urlAccepted: bool): (r: Outcome<Envelope>)
    ensures r.Threw? <==> req.query.Some? && ParseQuery(req.query.value).Threw?
    ensures r.Returned? ==>
      var b := JsonBase(envelopeId, handlerId, target, req, urlAccepted);
      r.value.external && r.value.id == envelopeId && r.value.commandPath == target
      && r.value.url == (if urlAccepted then Some(JsonUrl(target)) else None)
      && r.value.action == Some(ActionFor(req.verb)) && r.value.headers == b.headers
      && r.value.data == JsonData(b, req)
      && r.value.extras == (if req.query.Some? then [QueryData(ParseQuery(req.query.value).value)] else [])
      && !r.value.lowSensitivity && r.value.routes == [] && r.value.errors == []
  {
    var e := JsonBase(envelopeId, handlerId, target, req, urlAccepted);
    match WithQuery(e.(data := JsonData(e, req)), req.query)
    case Threw(f) => Threw(f)
    case Returned(e1) => Returned(e1.(external := true))
  }

  method ParseEnvelope(envelopeId: int, handlerId: Option<int>, target: Option<string>, req: HttpRequest, urlAccepted: bool) returns (r: Outcome<Envelope>)
    ensures r == JsonEnvelope(envelopeId, handlerId, target, req, urlAccepted)
  {
    var e := BuildBase(envelopeId, handlerId, target, req, urlAccepted);
    var contentType := ContentType(e);
    if contentType.Some? && "multipart/form-data" == contentType.value && req.parts.Parts? {
      var pr := ReadTextParts(e.data, req.parts.parts);
      e := e.(data := pr.data);
    }
    if req.query.Some? {
      var queryMap := ParseQueryString(req.query.value);
      if queryMap.Threw? {
        return Threw(queryMap.fault);
      }
      e := e.(extras := e.extras + [QueryData(queryMap.value)]);
    }
    e := e.(external := true);
    r := Returned(e);
  }

  method BuildBase(envelopeId: int, handlerId: Option<int>, target: Option<string>, req: HttpRequest, urlAccepted: bool) returns (e: Envelope)
    ensures e == JsonBase(envelopeId, handlerId, target, req, urlAccepted)
  {
    e := DocumentEnvelope(envelopeId);
    e := e.(headers := e.headers[HANDLER_ID := IdHeader(handlerId)]);
    e := e.(commandPath := target);
    if urlAccepted {
      e := e.(url := Some(UrlPrefix + TargetText(target) + UrlSuffix));
    }
    e := e.(action := Some(ActionFor(req.verb)));
    var headers := FoldRequestHeaders(e.headers, req.headers);
    e := e.(headers := headers);
  }

  /** unpackEnvelope: an empty JSON body with application/json and 200, or 500 when the writer
      fails; reply then marks the request handled. */
  function ReplyWriteOf(writerFails: bool): (w: ReplyWrite)
    ensures w.contentType == Some("application/json") && w.body == "" && w.setsHandled
    ensures w.status == Some(if writerFails then 500 else 200)
  {
    ReplyWrite(Some("application/json"), "", Some(if writerFails then 500 else 200), true)
  }
}
