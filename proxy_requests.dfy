/** EnvelopeProxyDataHandler.parseEnvelope: a servlet request becomes a LOW-sensitivity document
    envelope with a normalised URL, an action, the folded headers, the multipart parts (at most
    1,000,000 bytes each), the form body, the query and the parameter map. */
module ProxyRequests {
  import opened Wrappers
  import opened Text
  import opened Envelopes
  import opened Requests
  import opened Correlation

  /** Largest part size read; a larger part stops the translation. */
  const MaxPartSize: int := 1000000

  /** How long `handle` holds the request thread: ten minutes. */
  const HoldMillis: nat := 10 * 60 * 1000

  /** The target answered with a status page instead of an envelope. */
  const TestTarget: string := "/test"

  // ---------------------------------------------------------------------------
  // URI

  /** The request URI with a scheme: kept when it has one, https:// when it mentions port 443,
      http:// otherwise. */
  function NormaliseUri(uri: string): (r: string)
    ensures r == uri || r == "http://" + uri || r == "https://" + uri
    ensures r == uri <==> (StartsWith(uri, "http://") || StartsWith(uri, "https://"))
    ensures StartsWith(r, "http://") || StartsWith(r, "https://")
    ensures StartsWith(r, "https://") <==>
      (StartsWith(uri, "https://") || (!StartsWith(uri, "http://") && Contains(uri, ":443")))
  {
    if StartsWith(uri, "http://") || StartsWith(uri, "https://") then uri
    else if Contains(uri, ":443") then
      assert ("https://" + uri)[..8] == "https://";
      "https://" + uri
    else
      assert ("http://" + uri)[..7] == "http://";
      assert ("http://" + uri)[4] == ':';
      "http://" + uri
  }

  /** Normalising twice changes nothing more. */
  lemma NormaliseUriIdempotent(uri: string)
    ensures NormaliseUri(NormaliseUri(uri)) == NormaliseUri(uri)
  {
  }

  // ---------------------------------------------------------------------------
  // Parts

  /** Content.buildContent(bytes, contentType, fileName, ...) with setSize(size). */
  function ContentOf(p: Part): DataValue {
    DContent(if p.stream.Bytes? then p.stream.bytes else [], p.contentType, p.fileName, p.size)
  }

  /** A data map after the part's content type and content are put into it. */
  function Filled(d: DataMap, p: Part): DataMap {
    d[ContentTypeKey := TypeValue(p.contentType)][ContentKey := ContentOf(p)]
  }

  /** The map a later readable part is appended as. */
  function PartMap(p: Part): DataMap {
    Filled(map[], p)
  }

  function PartMaps(ps: seq<Part>): seq<DataMap> {
    seq(|ps|, i requires 0 <= i < |ps| => PartMap(ps[i]))
  }

  /** The parts loop: the size check comes first and an oversize part ends the translation at
      once; parts without a stream are skipped; the first readable one fills data[0], later ones
      are appended; a read error ends the loop. */
  function ProxyParts(data: seq<DataMap>, parts: seq<Part>, first: bool): (r: PartsResult)
    requires |data| >= 1
    ensures |r.data| >= |data|
    decreases |parts|
  {
    if parts == [] then PartsResult(data, AllRead)
    else if parts[0].size > MaxPartSize then PartsResult(data, TooLarge)
    else
      match parts[0].stream
      case NoStream => ProxyParts(data, parts[1..], first)
      case Unreadable => PartsResult(data, ReadFailed)
      case Bytes(_) =>
        if first then ProxyParts(data[0 := Filled(data[0], parts[0])], parts[1..], false)
        else ProxyParts(data + [PartMap(parts[0])], parts[1..], false)
  }

  method ReadProxyParts(data0: seq<DataMap>, parts: seq<Part>) returns (result: PartsResult)
    requires |data0| >= 1
    ensures result == ProxyParts(data0, parts, true)
  {
    var data := data0;
    var k := 0;
    var n := 0;
    while n < |parts|
      invariant 0 <= n <= |parts| && |data| >= 1
      invariant k == 0 || k == 1
      invariant ProxyParts(data, parts[n..], k == 0) == ProxyParts(data0, parts, true)
    {
      var part := parts[n];
      assert parts[n..][1..] == parts[n + 1..];
      var size := part.size;
      if size > MaxPartSize {
        return PartsResult(data, TooLarge);
      }
      match part.stream {
        case NoStream =>
        case Unreadable =>
          return PartsResult(data, ReadFailed);
        case Bytes(b) =>
          var content := DContent(b, part.contentType, part.fileName, size);
          if k == 0 {
            var d := data[k][ContentTypeKey := TypeValue(part.contentType)][ContentKey := content];
            data := data[k := d];
            k := k + 1;
          } else {
            var d := map[ContentTypeKey := TypeValue(part.contentType), ContentKey := content];
            data := data + [d];
          }
      }
      n := n + 1;
    }
    result := PartsResult(data, AllRead);
  }

  /** Every part is within the ceiling (exactly MaxPartSize included) and readable. */
  predicate Admissible(parts: seq<Part>) {
    forall i :: 0 <= i < |parts| ==> parts[i].size <= MaxPartSize && !parts[i].stream.Unreadable?
  }

  lemma AdmissibleTail(parts: seq<Part>)
    requires parts != [] && Admissible(parts)
    ensures Admissible(parts[1..])
  {
    forall i | 0 <= i < |parts[1..]|
      ensures parts[1..][i].size <= MaxPartSize && !parts[1..][i].stream.Unreadable?
    {
      assert parts[1..][i] == parts[i + 1];
    }
  }

  lemma {:induction false} ProxyPartsAppendAll(data: seq<DataMap>, parts: seq<Part>)
    requires |data| >= 1 && Admissible(parts)
    ensures ProxyParts(data, parts, false) == PartsResult(data + PartMaps(StreamParts(parts)), AllRead)
    decreases |parts|
  {
    if parts != [] {
      var rest := parts[1..];
      AdmissibleTail(parts);
      if parts[0].stream.Bytes? {
        ProxyPartsAppendAll(data + [PartMap(parts[0])], rest);
        assert PartMaps([parts[0]] + StreamParts(rest)) == [PartMap(parts[0])] + PartMaps(StreamParts(rest));
      } else {
        ProxyPartsAppendAll(data, rest);
      }
    }
  }

  /** With every part admissible: the first readable part's content type and content land in
      data[0], each later readable part is appended as its own map, in order, and parts without
      a stream leave no trace. */
  lemma {:induction false} ProxyPartsPlacement(data: seq<DataMap>, parts: seq<Part>)
    requires |data| >= 1 && Admissible(parts)
    ensures var sp := StreamParts(parts);
      ProxyParts(data, parts, true) == PartsResult(
        if sp == [] then data else [Filled(data[0], sp[0])] + data[1..] + PartMaps(sp[1..]),
        AllRead)
    decreases |parts|
  {
    if parts != [] {
      var rest := parts[1..];
      AdmissibleTail(parts);
      if parts[0].stream.Bytes? {
        var d := data[0 := Filled(data[0], parts[0])];
        ProxyPartsAppendAll(d, rest);
        assert d == [Filled(data[0], parts[0])] + data[1..];
      } else {
        ProxyPartsPlacement(data, rest);
      }
    }
  }

  /** Admissible parts are read through and the loop carries on with the rest. */
  lemma {:induction false} ProxyPartsPrefix(data: seq<DataMap>, a: seq<Part>, b: seq<Part>, first: bool)
    requires |data| >= 1 && Admissible(a)
    ensures ProxyParts(data, a, first).end == AllRead
    ensures ProxyParts(data, a + b, first) == ProxyParts(ProxyParts(data, a, first).data, b, first && StreamParts(a) == [])
    decreases |a|
  {
    if a == [] {
      assert a + b == b;
    } else {
      AdmissibleTail(a);
      assert (a + b)[0] == a[0] && (a + b)[1..] == a[1..] + b;
      if a[0].stream.Bytes? {
        ProxyPartsPrefix(data[0 := Filled(data[0], a[0])], a[1..], b, false);
        ProxyPartsPrefix(data + [PartMap(a[0])], a[1..], b, false);
      } else {
        ProxyPartsPrefix(data, a[1..], b, first);
      }
    }
  }

  /** A part over the ceiling stops the loop where it stands: what earlier parts placed stays,
      nothing after it is read. */
  lemma ProxyPartsOversize(data: seq<DataMap>, parts: seq<Part>, i: int)
    requires |data| >= 1 && 0 <= i < |parts| && parts[i].size > MaxPartSize && Admissible(parts[..i])
    ensures ProxyParts(data, parts, true) == PartsResult(ProxyParts(data, parts[..i], true).data, TooLarge)
  {
    assert parts == parts[..i] + parts[i..];
    ProxyPartsPrefix(data, parts[..i], parts[i..], true);
  }

  // ---------------------------------------------------------------------------
  // The envelope

  /** The envelope before the parts: LOW sensitivity, the handler id header, the URL (when
      java.net.URL accepts the normalised URI), the action and the folded headers. */
  function ProxyBase(envelopeId: int, handlerId: Option<int>, req: HttpRequest, urlAccepted: bool): (e: Envelope)
    ensures |e.data| == 1
  {
    DocumentEnvelope(envelopeId).(
      lowSensitivity := true,
      headers := FoldHeaders(map[HANDLER_ID := IdHeader(handlerId)], req.headers),
      url := if urlAccepted then Some(NormaliseUri(req.uri)) else None,
      action := Some(ActionFor(req.verb)))
  }

  /** Parts are read only for a content type starting with multipart/form-data. */
  predicate ReadsParts(e: Envelope) {
    ContentType(e).Some? && StartsWith(ContentType(e).value, "multipart/form-data")
  }

  /** The parts step; a failing getParts is caught and leaves the data as it is. */
  function PartsStage(e: Envelope, req: HttpRequest): PartsResult
    requires |e.data| >= 1
  {
    if ReadsParts(e) && req.parts.Parts? then ProxyParts(e.data, req.parts.parts, true)
    else PartsResult(e.data, AllRead)
  }

  /** parseEnvelope. An oversize part returns the envelope as it stands: no form body, query or
      parameters, and not external. Otherwise the form body must parse to a JSON object, and a
      malformed query throws. */
  function ProxyEnvelope(envelopeId: int, handlerId: Option<int>, req: HttpRequest, urlAccepted: bool): (r: Outcome<Envelope>)
    ensures r.Returned? ==>
      var b := ProxyBase(envelopeId, handlerId, req, urlAccepted);
      r.value.id == b.id && r.value.lowSensitivity && r.value.action == b.action
      && r.value.headers == b.headers && r.value.url == b.url
      && r.value.data == PartsStage(b, req).data
      && r.value.routes == [] && r.value.errors == [] && !r.value.isEvent
    ensures r.Returned? ==>
      (r.value.external <==> PartsStage(ProxyBase(envelopeId, handlerId, req, urlAccepted), req).end != TooLarge)
    ensures PartsStage(ProxyBase(envelopeId, handlerId, req, urlAccepted), req).end == TooLarge ==>
      r.Returned? && r.value.extras == []
    ensures PartsStage(ProxyBase(envelopeId, handlerId, req, urlAccepted), req).end != TooLarge ==>
      (r.Threw? <==> ((req.formBody != "" && !req.formIsObject) || (req.query.Some? && ParseQuery(req.query.value).Threw?)))
    ensures PartsStage(ProxyBase(envelopeId, handlerId, req, urlAccepted), req).end != TooLarge && r.Returned? ==>
      r.value.extras == TailExtras(req)
  {
    var e := ProxyBase(envelopeId, handlerId, req, urlAccepted);
    var pr := PartsStage(e, req);
    var e1 := e.(data := pr.data);
    if pr.end == TooLarge then Returned(e1) else ProxyTail(e1, req)
  }

  /** What the steps after the parts hand to addData and addContent, in order: the form body when
      there is one, the query map when there is a query, the parameter map when it is not empty. */
  function TailExtras(req: HttpRequest): seq<Extra>
    requires req.query.Some? ==> ParseQuery(req.query.value).Returned?
  {
    (if req.formBody != "" then [FormData(req.formBody)] else [])
    + (if req.query.Some? then [QueryData(ParseQuery(req.query.value).value)] else [])
    + (if req.params != map[] then [ParamContent(req.params)] else [])
  }

  /** What follows the parts: form body, query, the external flag, the parameter map. A form body
      that is not a JSON object fails the cast to Map; a malformed query throws. */
  function ProxyTail(e: Envelope, req: HttpRequest): (r: Outcome<Envelope>)
    ensures r.Threw? <==> (req.formBody != "" && !req.formIsObject) || (req.query.Some? && ParseQuery(req.query.value).Threw?)
    ensures req.formBody != "" && !req.formIsObject ==> r == Threw(ClassCast)
    ensures r.Returned? ==> r.value == e.(external := true, extras := e.extras + TailExtras(req))
  {
    if req.formBody != "" && !req.formIsObject then Threw(ClassCast)
    else
      var e1 := if req.formBody != "" then e.(extras := e.extras + [FormData(req.formBody)]) else e;
      match WithQuery(e1, req.query)
      case Threw(f) => Threw(f)
      case Returned(e2) => Returned(WithParams(e2.(external := true), req.params))
  }

  /** An oversize part among multipart parts: the envelope keeps what the earlier parts placed and
      goes out without anything read after it, not marked external. */
  lemma ProxyOversizeStops(envelopeId: int, handlerId: Option<int>, req: HttpRequest, urlAccepted: bool, i: int)
    requires ReadsParts(ProxyBase(envelopeId, handlerId, req, urlAccepted)) && req.parts.Parts?
    requires 0 <= i < |req.parts.parts| && req.parts.parts[i].size > MaxPartSize
    requires Admissible(req.parts.parts[..i])
    ensures var b := ProxyBase(envelopeId, handlerId, req, urlAccepted);
      ProxyEnvelope(envelopeId, handlerId, req, urlAccepted)
        == Returned(b.(data := ProxyParts(b.data, req.parts.parts[..i], true).data))
    ensures !ProxyEnvelope(envelopeId, handlerId, req, urlAccepted).value.external
  {
    var b := ProxyBase(envelopeId, handlerId, req, urlAccepted);
    ProxyPartsOversize(b.data, req.parts.parts, i);
  }

  /** The parse as the handler runs it, step by step. */
  method ParseEnvelope(envelopeId: int, handlerId: Option<int>, req: HttpRequest, urlAccepted: bool) returns (r: Outcome<Envelope>)
    ensures r == ProxyEnvelope(envelopeId, handlerId, req, urlAccepted)
  {
    var e := BuildBase(envelopeId, handlerId, req, urlAccepted);
    var contentType := ContentType(e);
    if contentType.Some? && StartsWith(contentType.value, "multipart/form-data") && req.parts.Parts? {
      var pr := ReadProxyParts(e.data, req.parts.parts);
      e := e.(data := pr.data);
      if pr.end == TooLarge {
        return Returned(e);
      }
    }
    r := Finish(e, req);
  }

  method BuildBase(envelopeId: int, handlerId: Option<int>, req: HttpRequest, urlAccepted: bool) returns (e: Envelope)
    ensures e == ProxyBase(envelopeId, handlerId, req, urlAccepted)
  {
    e := DocumentEnvelope(envelopeId);
    e := e.(lowSensitivity := true);
    e := e.(headers := e.headers[HANDLER_ID := IdHeader(handlerId)]);
    var uri := req.uri;
    var http := StartsWith(uri, "http://");
    var https := StartsWith(uri, "https://");
    if !http && !https {
      if Contains(uri, ":443") {
        uri := "https://" + uri;
      } else {
        uri := "http://" + uri;
      }
    }
    if urlAccepted {
      e := e.(url := Some(uri));
    }
    e := e.(action := Some(ActionFor(req.verb)));
    var headers := FoldRequestHeaders(e.headers, req.headers);
    e := e.(headers := headers);
  }

  method Finish(e0: Envelope, req: HttpRequest) returns (r: Outcome<Envelope>)
    ensures r == ProxyTail(e0, req)
  {
    var e := e0;
    if req.formBody != "" {
      if !req.formIsObject {
        return Threw(ClassCast);
      }
      e := e.(extras := e.extras + [FormData(req.formBody)]);
    }
    if req.query.Some? {
      var queryMap := ParseQueryString(req.query.value);
      if queryMap.Threw? {
        return Threw(queryMap.fault);
      }
      e := e.(extras := e.extras + [QueryData(queryMap.value)]);
    }
    e := e.(external := true);
    if req.params != map[] {
      e := e.(extras := e.extras + [ParamContent(req.params)]);
    }
    r := Returned(e);
  }

  /** The reply envelope's content as unpackEnvelopeContent meets it. */
  datatype ReplyContent =
    | NoContent                    // null
    | ByteContent(bytes: seq<byte>)
    | OtherContent                 // any object that is not a byte[]

  /** What reply prepares from the reply envelope's content: the bytes as text, printed unless the
      writer fails, in which case the status becomes 500; the request is marked handled either way.
      Content that is not a byte[] fails the cast, and a null content fails in new String, both
      before anything is written. */
  function ReplyWriteOf(content: ReplyContent, writerFails: bool): (w: Outcome<ReplyWrite>)
    ensures w.Threw? <==> !content.ByteContent?
    ensures content.NoContent? ==> w == Threw(NullPointer)
    ensures content.OtherContent? ==> w == Threw(ClassCast)
    ensures w.Returned? ==>
      w.value.setsHandled && w.value.contentType.None?
      && w.value.body == (if writerFails then "" else ByteChars(content.bytes))
      && w.value.status == (if writerFails then Some(500) else None)
  {
    match content
    case NoContent => Threw(NullPointer)
    case OtherContent => Threw(ClassCast)
    case ByteContent(bytes) =>
      Returned(ReplyWrite(None, if writerFails then "" else ByteChars(bytes), if writerFails then Some(500) else None, true))
  }
}
