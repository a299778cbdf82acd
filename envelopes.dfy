/** The parts of the bus's Envelope that the bridge reads and writes.
    The Envelope, DocumentMessage and DLC classes belong to another library; this module
    keeps only the fields the handlers touch. */
module Envelopes {
  import opened Wrappers

  newtype byte = x: int | 0 <= x < 256

  datatype Action = VIEW | ADD | UPDATE | REMOVE

  /** An envelope header value: the handlers store Strings, except the handler id, which is a
      Byte (null when the handler was never registered). */
  datatype HeaderValue = HStr(s: string) | HByte(b: int) | HNull

  /** The two keys the handlers put into a data map: Envelope.HEADER_CONTENT_TYPE and DLC.CONTENT. */
  datatype DataKey = ContentTypeKey | ContentKey

  datatype DataValue =
    | DNull
    | DText(text: string)
      /** Content.buildContent(bytes, contentType, fileName, ...) followed by setSize(size) */
    | DContent(bytes: seq<byte>, contentType: Option<string>, fileName: Option<string>, size: int)

  type DataMap = map<DataKey, DataValue>

  /** Items handed to DLC.addData or DLC.addContent, in the order the handler handed them over. */
  datatype Extra =
    | FormData(body: string)                          // addData(Map.class, JSONParser.parse(body))
    | QueryData(query: map<string, string>)           // addData(Map.class, queryMap)
    | ParamContent(params: map<string, seq<string>>)  // addContent(request.getParameterMap())
    | TextContent(text: string)                       // addContent(message)

  /** The SensorsService operation named by DLC.addRoute. */
  datatype Operation = OpSend | OpReply

  datatype Envelope = Envelope(
    id: int,                              // correlation key (a Java Long)
    isEvent: bool,                        // eventFactory rather than documentFactory
    action: Option<Action>,
    headers: map<string, HeaderValue>,
    data: seq<DataMap>,                   // DocumentMessage.data
    extras: seq<Extra>,
    external: bool,
    errors: seq<string>,                  // DLC.getErrorMessages
    url: Option<string>,
    commandPath: Option<string>,
    lowSensitivity: bool,
    routes: seq<Operation>)

  const HANDLER_ID: string := "1m5.sensors.clearnet.server.handler.id"
  const CONTENT_TYPE: string := "Content-Type"

  /** Envelope.documentFactory(): the document's data list starts with one empty map. */
  function DocumentEnvelope(id: int): Envelope {
    Envelope(id, false, None, map[], [map[]], [], false, [], None, None, false, [])
  }

  /** Envelope.eventFactory(EventMessage.Type.TEXT) */
  function EventEnvelope(id: int): Envelope {
    Envelope(id, true, None, map[], [], [], false, [], None, None, false, [])
  }

  /** The header value the handlers store under HANDLER_ID for their registry id. */
  function IdHeader(handlerId: Option<int>): HeaderValue {
    if handlerId.Some? then HByte(handlerId.value) else HNull
  }

  /** Envelope.getContentType(): read here as the Content-Type header, when it holds a String. */
  function ContentType(e: Envelope): Option<string> {
    if CONTENT_TYPE in e.headers && e.headers[CONTENT_TYPE].HStr? then Some(e.headers[CONTENT_TYPE].s) else None
  }

  /** DLC.addRoute(SensorsService.class, op, e) */
  function AddRoute(e: Envelope, op: Operation): Envelope {
    e.(routes := e.routes + [op])
  }
}
