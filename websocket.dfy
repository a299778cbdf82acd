/** JSONWebSocket: the browser's WebSocket. Text frames other than the keep-alive go to the bus
    as LOW-sensitivity TEXT events routed back for reply; pushEnvelope writes to the stored
    session's remote endpoint when there is one. The Jetty session is reduced to whether it has a
    remote address and a remote endpoint, and whether sending on that endpoint fails. */
module Sockets {
  import opened Wrappers
  import opened Envelopes
  import opened Routing
  import opened Server

  const KEEP_ALIVE: string := "keep-alive"

  datatype Endpoint = Endpoint(sendFails: bool)

  datatype WsSession = WsSession(hasRemoteAddress: bool, remote: Option<Endpoint>)

  /** The envelope onWebSocketText sends for a frame; None for a null frame or the keep-alive. */
  function TextEnvelope(message: Option<string>, eventId: int): (r: Option<Envelope>)
    ensures r.None? <==> message.None? || message.value == KEEP_ALIVE
    ensures r.Some? ==>
      r.value.id == eventId && r.value.isEvent && r.value.lowSensitivity
      && r.value.extras == [TextContent(message.value)] && r.value.routes == [OpReply]
      && r.value.headers == map[] && r.value.errors == [] && !r.value.external
  {
    if message.None? || message.value == KEEP_ALIVE then None
    else Some(AddRoute(EventEnvelope(eventId).(lowSensitivity := true, extras := [TextContent(message.value)]), OpReply))
  }

  /** What pushEnvelope gets to the browser: the message, when a session with a remote endpoint
      is stored and the send does not fail; otherwise nothing. */
  function Pushed(session: Option<WsSession>, json: string): (r: seq<string>)
    ensures r == [json] <==> session.Some? && session.value.remote.Some? && !session.value.remote.value.sendFails
    ensures r != [json] ==> r == []
  {
    if session.Some? && session.value.remote.Some? && !session.value.remote.value.sendFails then [json] else []
  }

  /** A text event carries no handler id, so in test mode the sensor suspends it, and it is never
      the cause of a failing cast. */
  lemma TextEventsAreSuspended(message: Option<string>, eventId: int, handlers: map<int, HandlerRef>)
    requires TextEnvelope(message, eventId).Some?
    ensures var e := TextEnvelope(message, eventId).value;
      ReplyVerdict(e.headers, handlers) == Returned(NoHandlerId)
      && SendResult(true, e.headers, handlers) == Returned(true)
  {
  }

  class JSONWebSocket {
    const sensor: ClearnetServerSensor?
    var session: Option<WsSession>
    /** Messages the remote endpoint accepted, in order. */
    var delivered: seq<string>

    constructor(s: ClearnetServerSensor?)
      ensures sensor == s && session == None && delivered == []
    {
      sensor := s;
      session := None;
      delivered := [];
    }

    /** onWebSocketConnect: the session is stored first; logging its host then dereferences the
        remote address. */
    method OnConnect(s: Option<WsSession>) returns (r: Outcome<()>)
      modifies this
      ensures session == s && delivered == old(delivered)
      ensures r.Threw? <==> s.None? || !s.value.hasRemoteAddress
      ensures r.Threw? ==> r.fault == NullPointer
    {
      session := s;
      if s.None? || !s.value.hasRemoteAddress {
        return Threw(NullPointer);
      }
      r := Returned(());
    }

    /** onWebSocketText: true when an envelope was sent. */
    method OnText(message: Option<string>, eventId: int) returns (r: Outcome<bool>)
      modifies sensor
      ensures var env := TextEnvelope(message, eventId);
        (env.None? ==>
           (r == Returned(false)
            && (sensor != null ==> sensor.toBus == old(sensor.toBus) && sensor.suspended == old(sensor.suspended))))
        && (env.Some? && sensor == null ==> r == Threw(NullPointer))
        && (env.Some? && sensor != null ==> r == Returned(true) && sensor.Sent(env.value))
    {
      if message.None? || message.value == KEEP_ALIVE {
        return Returned(false);
      }
      var e := EventEnvelope(eventId);
      e := e.(lowSensitivity := true);
      e := e.(extras := e.extras + [TextContent(message.value)]);
      e := AddRoute(e, OpReply);
      assert e == TextEnvelope(message, eventId).value;
      if sensor == null {
        return Threw(NullPointer);
      }
      var sent := sensor.Send(e);
      r := Returned(true);
    }

    /** pushEnvelope with the event's message text; a failing send is logged, not thrown. */
    method PushEnvelope(json: string)
      modifies this
      ensures session == old(session)
      ensures delivered == old(delivered) + Pushed(session, json)
    {
      if session.None? {
        return;
      }
      var remote := session.value.remote;
      if remote.Some? && !remote.value.sendFails {
        delivered := delivered + [json];
      }
    }
  }
}
