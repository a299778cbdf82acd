/** HttpEnvelopeHandler: verifyRequest, parseEnvelope (command path, action, folded headers, parts
    whatever the content type, a query that must be present) and what its reply writes. */
module HttpRequests {
  import opened Wrappers
  import opened Envelopes
  import opened Requests
  import opened Correlation

  /** How long `handle` holds the request thread: thirty seconds. */
  const HoldMillis: nat := 30 * 1000

  /** verifyRequest accepts every request, so `handle` never answers early with its status. */
  function VerifyRequest(target: Option<string>, req: HttpRequest): (status: int)
    ensures status == 200
  {
    200
  }

  function HttpBase(envelopeId: int, handlerId: Option<int>, target: Option<string>, req: HttpRequest): (e: Envelope)
    ensures |e.data| == 1
  {
    DocumentEnvelope(envelopeId).(
      headers := FoldHeaders(map[HANDLER_ID := IdHeader(handlerId)], req.headers),
      commandPath := target,
      action := Some(ActionFor(req.verb)))
  }

  /** The parts step: getParts is called whatever the content type; its checked failures are
      caught, and a read error keeps what was read before it. */
  function HttpData(e: Envelope, req: HttpRequest): seq<DataMap>
    requires |e.data| >= 1
  {
    if req.parts.Parts? then TextParts(e.data, req.parts.parts, true).data else e.data
  }

  /** parseEnvelope: an unchecked getParts failure escapes, a missing query string throws
      NullPointerException, a malformed one ArrayIndexOutOfBoundsException; otherwise the envelope
      goes out external with exactly one data item, the query map. */
  function HttpEnvelope(envelopeId: int, handlerId: Option<int>, target: Option<string>, req: HttpRequest): (r: Outcome<Envelope>)
    ensures req.parts.PartsUncheckedFailure? ==> r == Threw(IllegalState)
    ensures !req.parts.PartsUncheckedFailure? && req.query.None? ==> r == Threw(NullPointer)
    ensures !req.parts.PartsUncheckedFailure? && req.query.Some? ==> (r.Threw? <==> ParseQuery(req.query.value).Threw?)
    ensures r.Returned? ==>
      var b := HttpBase(envelopeId, handlerId, target, req);
      r.value.external && r.value.id == envelopeId && r.value.commandPath == target
      && r.value.action == Some(ActionFor(req.verb)) && r.value.headers == b.headers
      && r.value.data == HttpData(b, req)
      && req.query.Some? && r.value.extras == [QueryData(ParseQuery(req.query.value).value)]
      && r.value.url.None? && r.value.routes == [] && r.value.errors == []
  {
    var e := HttpBase(envelopeId, handlerId, target, req);
    if req.parts.PartsUncheckedFailure? then Threw(IllegalState)
    else if req.query.None? then Threw(NullPointer)
    else
      match ParseQuery(req.query.value)
      case Threw(f) => Threw(f)
      case Returned(m) => Returned(e.(data := HttpData(e, req), extras := e.extras + [QueryData(m)], external := true))
  }

  /** The data the parts give does not depend on the headers: no content type is consulted. */
  lemma HttpPartsIgnoreContentType(envelopeId: int, handlerId: Option<int>, target: Option<string>, req: HttpRequest, hs: seq<HeaderField>)
    requires HttpEnvelope(envelopeId, handlerId, target, req).Returned?
    ensures HttpEnvelope(envelopeId, handlerId, target, req.(headers := hs)).Returned?
    ensures HttpEnvelope(envelopeId, handlerId, target, req.(headers := hs)).value.data
         == HttpEnvelope(envelopeId, handlerId, target, req).value.data
  {
  }

  method ParseEnvelope(envelopeId: int, handlerId: Option<int>, target: Option<string>, req: HttpRequest) returns (r: Outcome<Envelope>)
    ensures r == HttpEnvelope(envelopeId, handlerId, target, req)
  {
    var e := DocumentEnvelope(envelopeId);
    e := e.(headers := e.headers[HANDLER_ID := IdHeader(handlerId)]);
    if target.Some? {
      e := e.(commandPath := target);
    }
    e := e.(action := Some(ActionFor(req.verb)));
    var headers := FoldRequestHeaders(e.headers, req.headers);
    e := e.(headers := headers);
    assert e == HttpBase(envelopeId, handlerId, target, req);
    match req.parts {
      case PartsUncheckedFailure =>
        return Threw(IllegalState);
      case PartsCheckedFailure =>
      case Parts(ps) =>
        var pr := ReadTextParts(e.data, ps);
        e := e.(data := pr.data);
    }
    if req.query.None? {
      return Threw(NullPointer);
    }
    var queryMap := ParseQueryString(req.query.value);
    if queryMap.Threw? {
      return Threw(queryMap.fault);
    }
    e := e.(extras := e.extras + [QueryData(queryMap.value)]);
    e := e.(external := true);
    r := Returned(e);
  }

  /** unpackEnvelope: the content printed as application/json with 200, or 500 when the writer
      fails; the handled flag is never set. A null content prints as "null". */
  function ReplyWriteOf(content: Option<string>, writerFails: bool): (w: ReplyWrite)
    ensures w.contentType == Some("application/json") && !w.setsHandled
    ensures w.status == Some(if writerFails then 500 else 200)
    ensures !writerFails ==> w.body == (if content.Some? then content.value else "null")
    ensures writerFails ==> w.body == ""
  {
    ReplyWrite(
      Some("application/json"),
      if writerFails then "" else if content.Some? then content.value else "null",
      Some(if writerFails then 500 else 200),
      false)
  }
}
