/** The stateful objects of the clearnet server: the sensor with its handler registry and listener
    list, and the three handlers with their `requests` tables. Each method's postcondition ties the
    new state to the functions of the modules it builds on, where the properties are proved. */
module Server {
  import opened Wrappers
  import opened Envelopes
  import opened Requests
  import opened Correlation
  import opened Routing
  import opened Listeners
  import ProxyRequests
  import JsonRequests
  import HttpRequests

  /** A handler registered with the sensor. Only the handlers of this package can register. */
  datatype HandlerRef =
    | ProxyRef(proxy: EnvelopeProxyDataHandler)
    | JsonRef(json: EnvelopeJSONDataHandler)
    | HttpRef(http: HttpEnvelopeHandler)

  /** The sensor's state outside the registry, which registration leaves alone. */
  datatype SensorRest = SensorRest(
    isTest: bool, servers: seq<Listener>, launched: seq<string>, properties: Option<Props>,
    toBus: seq<Envelope>, suspended: seq<Envelope>)

  class ClearnetServerSensor {
    var isTest: bool
    var servers: seq<Listener>
    /** URLs handed to launchBrowser, in order. */
    var launched: seq<string>
    var handlers: map<int, HandlerRef>
    /** The Byte counter of registerHandler. */
    var nextHandlerId: int
    var properties: Option<Props>
    /** Envelopes given to sensorManager.sendToBus, in order. */
    var toBus: seq<Envelope>
    /** Envelopes given to sensorManager.suspend, in order. */
    var suspended: seq<Envelope>

    predicate Valid()
      reads this
    {
      IsByte(nextHandlerId)
    }

    function HandlerRegistry(): Registry<HandlerRef>
      reads this
    {
      Registry(nextHandlerId, handlers)
    }

    function Rest(): SensorRest
      reads this
    {
      SensorRest(isTest, servers, launched, properties, toBus, suspended)
    }

    constructor()
      ensures Valid() && HandlerRegistry() == EmptyRegistry()
      ensures Rest() == SensorRest(false, [], [], None, [], [])
    {
      isTest := false;
      servers := [];
      launched := [];
      handlers := map[];
      nextHandlerId := 0;
      properties := None;
      toBus := [];
      suspended := [];
    }

    /** registerHandler: stored under the counter, the incremented counter returned. */
    method RegisterHandler(h: HandlerRef) returns (id: int)
      requires Valid()
      modifies this
      ensures Valid()
      ensures HandlerRegistry() == Register(old(HandlerRegistry()), h)
      ensures id == GivenId(old(HandlerRegistry())) && id == nextHandlerId
      ensures Rest() == old(Rest())
    {
      handlers := handlers[nextHandlerId := h];
      nextHandlerId := ByteInc(nextHandlerId);
      id := nextHandlerId;
    }

    /** reply: the three-way decision on the handler id header; the handler is not invoked. */
    method Reply(e: Envelope) returns (r: Outcome<bool>)
      modifies this
      ensures r == ReplyResult(ReplyVerdict(e.headers, old(handlers)))
      ensures suspended == old(suspended) + (if Suspends(ReplyVerdict(e.headers, old(handlers))) then [e] else [])
      ensures HandlerRegistry() == old(HandlerRegistry())
      ensures Rest() == old(Rest()).(suspended := suspended)
    {
      if HANDLER_ID !in e.headers || e.headers[HANDLER_ID].HNull? {
        suspended := suspended + [e];
        return Returned(false);
      }
      var header := e.headers[HANDLER_ID];
      if header.HStr? {
        return Threw(ClassCast);
      }
      if header.b !in handlers {
        suspended := suspended + [e];
        return Returned(false);
      }
      r := Returned(true);
    }

    /** What send does to the sensor: the envelope goes to the bus, or in test mode to reply. */
    twostate predicate Sent(e: Envelope)
      reads this
    {
      toBus == old(toBus) + (if !old(isTest) then [e] else [])
      && suspended == old(suspended)
           + (if old(isTest) && Suspends(ReplyVerdict(e.headers, old(handlers))) then [e] else [])
      && HandlerRegistry() == old(HandlerRegistry())
      && Rest() == old(Rest()).(toBus := toBus, suspended := suspended)
    }

    method Send(e: Envelope) returns (r: Outcome<bool>)
      modifies this
      ensures r == SendResult(old(isTest), e.headers, old(handlers))
      ensures Sent(e)
    {
      if !isTest {
        toBus := toBus + [e];
      } else {
        var replied := Reply(e);
        if replied.Threw? {
          return Threw(replied.fault);
        }
      }
      r := Returned(true);
    }

    /** startServer: binds 127.0.0.1:port; the list grows and the browser launches only on success. */
    method StartServer(name: string, port: int, handler: HandlerKind, contextPath: Option<string>, launch: bool, refused: set<int>)
      returns (r: Outcome<bool>)
      modifies this
      ensures var eff := StartServerEffect(Progress(old(servers), old(launched), None), name, port, handler, contextPath, launch, refused);
        servers == eff.progress.servers && launched == eff.progress.launched
        && r == (if eff.progress.fault.Some? then Threw(eff.progress.fault.value) else Returned(eff.started))
      ensures HandlerRegistry() == old(HandlerRegistry())
      ensures Rest() == old(Rest()).(servers := servers, launched := launched)
    {
      if !ValidPort(port) {
        return Threw(IllegalArgument);
      }
      if port in refused {
        return Returned(false);
      }
      servers := servers + [Listener(name, port, handler, contextPath, true)];
      if launch {
        launched := launched + [LaunchUrl(port)];
      }
      r := Returned(true);
    }

    /** start(p): `loaded` is what Config.loadFromClasspath returns, None when it throws;
        `classpath` and `refused` stand for class loading and for the binds that fail. */
    method Start(loaded: Option<Props>, classpath: map<string, ClassInfo>, refused: set<int>) returns (r: Outcome<bool>)
      requires Valid()
      modifies this
      ensures Valid()
      ensures var run := Listeners.Start(old(properties), loaded, old(servers), old(launched), classpath, refused);
        properties == run.properties && servers == run.progress.servers && launched == run.progress.launched
        && r == run.result
      ensures isTest == old(isTest) && toBus == old(toBus) && suspended == old(suspended)
      ensures var props := PropertiesAfterLoad(old(properties), loaded);
        if props.Some? && UiOn(props.value) then
          HandlerRegistry().next == ByteInc(old(nextHandlerId))
          && handlers.Keys == old(handlers).Keys + {old(nextHandlerId)}
          && handlers[old(nextHandlerId)].HttpRef? && fresh(handlers[old(nextHandlerId)].http)
          && forall k :: k in old(handlers) && k != old(nextHandlerId) ==> handlers[k] == old(handlers)[k]
        else HandlerRegistry() == old(HandlerRegistry())
    {
      if loaded.Some? {
        properties := loaded;
      }
      if properties.None? {
        return Threw(NullPointer);
      }
      var props := properties.value;
      if UiOn(props) {
        var ui := new HttpEnvelopeHandler(this);
        var ok := StartServer(UI_NAME, UI_PORT, HttpKind, Some("/"), UiLaunch(props), refused);
        if ok == Returned(false) {
          return Returned(false);
        }
      }
      if SERVERS_CONFIG !in props {
        return Returned(true);
      }
      r := RunConfig(ConfigEntries(props[SERVERS_CONFIG]), classpath, refused);
    }

    /** The loop over the configuration entries of start. */
    method RunConfig(entries: seq<string>, classpath: map<string, ClassInfo>, refused: set<int>) returns (r: Outcome<bool>)
      modifies this
      ensures var q := ConfigRun(Progress(old(servers), old(launched), None), entries, classpath, refused);
        servers == q.servers && launched == q.launched
        && r == (if q.fault.Some? then Threw(q.fault.value) else Returned(true))
      ensures HandlerRegistry() == old(HandlerRegistry())
      ensures Rest() == old(Rest()).(servers := servers, launched := launched)
    {
      ghost var p0 := Progress(servers, launched, None);
      var i := 0;
      while i < |entries|
        invariant 0 <= i <= |entries|
        invariant ConfigRun(Progress(servers, launched, None), entries[i..], classpath, refused)
          == ConfigRun(p0, entries, classpath, refused)
        invariant HandlerRegistry() == old(HandlerRegistry())
        invariant Rest() == old(Rest()).(servers := servers, launched := launched)
      {
        assert entries[i..][1..] == entries[i + 1..];
        match PlanEntry(entries[i], classpath) {
          case Threw(f) =>
            return Threw(f);
          case Returned(Skip) =>
          case Returned(Serve(name, port, kind, launch)) =>
            var ok := StartServer(name, port, kind, None, launch, refused);
            if ok.Threw? {
              return Threw(ok.fault);
            }
        }
        i := i + 1;
      }
      r := Returned(true);
    }

    /** shutdown: every server is asked to stop; the ones in `stopFails` throw, which is logged,
        and they stay as they were. */
    method Shutdown(stopFails: set<int>) returns (r: bool)
      modifies this
      ensures r
      ensures servers == Stopped(old(servers), stopFails)
      ensures HandlerRegistry() == old(HandlerRegistry())
      ensures Rest() == old(Rest()).(servers := servers)
    {
      var i := 0;
      while i < |servers|
        invariant 0 <= i <= |servers| && |servers| == |old(servers)|
        invariant forall j :: 0 <= j < i ==> servers[j] == Stopped(old(servers), stopFails)[j]
        invariant forall j :: i <= j < |servers| ==> servers[j] == old(servers)[j]
        invariant HandlerRegistry() == old(HandlerRegistry())
        invariant Rest() == old(Rest()).(servers := servers)
      {
        if i !in stopFails {
          servers := servers[i := servers[i].(running := false)];
        }
        i := i + 1;
      }
      r := true;
    }

    method GracefulShutdown(stopFails: set<int>) returns (r: bool)
      modifies this
      ensures r
      ensures servers == Stopped(old(servers), stopFails)
      ensures HandlerRegistry() == old(HandlerRegistry())
      ensures Rest() == old(Rest()).(servers := servers)
    {
      r := Shutdown(stopFails);
    }

    method Pause() returns (r: bool)
      ensures !r
    {
      r := false;
    }

    method Unpause() returns (r: bool)
      ensures !r
    {
      r := false;
    }

    method Restart() returns (r: bool)
      ensures !r
    {
      r := false;
    }
  }

  /** The servers after shutdown: each one whose stop did not throw is no longer running. */
  function Stopped(servers: seq<Listener>, stopFails: set<int>): (r: seq<Listener>)
    ensures |r| == |servers|
    ensures forall i :: 0 <= i < |r| ==>
      r[i].name == servers[i].name && r[i].port == servers[i].port && r[i].handler == servers[i].handler
      && (r[i].running <==> servers[i].running && i in stopFails)
  {
    seq(|servers|, i requires 0 <= i < |servers| => if i in stopFails then servers[i] else servers[i].(running := false))
  }

  /** The route outcome a handler meets when it sends through its sensor. */
  function SendThrough(sensorMissing: bool, isTest: bool, e: Envelope, handlers: map<int, HandlerRef>): Outcome<bool> {
    if sensorMissing then Threw(NullPointer) else SendResult(isTest, e.headers, handlers)
  }

  /** The end of every handler's `handle` once routing is over: the hold, which shares the routed
      envelope, is left unheld when routing threw; with errors it is removed and the request
      rejected; otherwise its thread goes to sleep. */
  method Settle(t: Table, target: Option<string>, e: Envelope, routed: Outcome<bool>, busErrors: seq<string>, wait: nat)
    returns (t': Table, r: Outcome<Handling>)
    ensures HandleEffect(t', r) == AfterRouting(t, target, e, routed, busErrors, wait)
  {
    t' := t[e.id := Hold(target, e, Untouched, Unheld, wait)];
    if routed.Threw? {
      return t', Threw(routed.fault);
    }
    var e1 := e.(errors := e.errors + busErrors);
    t' := t'[e.id := t'[e.id].(envelope := e1)];
    if |e1.errors| > 0 {
      t' := t' - {e.id};
      return t', Returned(Failed(Rejected));
    }
    t' := t'[e.id := t'[e.id].(phase := Asleep)];
    r := Returned(Holding(e.id));
  }

  // ---------------------------------------------------------------------------
  // EnvelopeProxyDataHandler

  class EnvelopeProxyDataHandler {
    var sensor: ClearnetServerSensor?
    /** The registry id, stamped into every envelope; None until setSensor. */
    var id: Option<int>
    var serviceName: Option<string>
    var parameters: Option<seq<string>>
    var requests: Table

    constructor()
      ensures sensor == null && id == None && serviceName == None && parameters == None && requests == map[]
    {
      sensor := null;
      id := None;
      serviceName := None;
      parameters := None;
      requests := map[];
    }

    method SetSensor(s: ClearnetServerSensor)
      requires s.Valid()
      modifies this, s
      ensures sensor == s && id == Some(GivenId(old(s.HandlerRegistry())))
      ensures s.Valid() && s.HandlerRegistry() == Register(old(s.HandlerRegistry()), ProxyRef(this))
      ensures s.Rest() == old(s.Rest())
      ensures serviceName == old(serviceName) && parameters == old(parameters) && requests == old(requests)
    {
      sensor := s;
      var given := s.RegisterHandler(ProxyRef(this));
      id := Some(given);
    }

    method SetServiceName(name: Option<string>)
      modifies this
      ensures serviceName == name
      ensures sensor == old(sensor) && id == old(id) && parameters == old(parameters) && requests == old(requests)
    {
      serviceName := name;
    }

    method SetParameters(ps: Option<seq<string>>)
      modifies this
      ensures parameters == ps
      ensures sensor == old(sensor) && id == old(id) && serviceName == old(serviceName) && requests == old(requests)
    {
      parameters := ps;
    }

    /** handle: the status page for /test; otherwise parse, put the hold, add the SEND route, route
        through the sensor, and then either reject (with the errors the bus attached, `busErrors`)
        or go to sleep on the hold for ten minutes. */
    method Handle(target: Option<string>, req: HttpRequest, envelopeId: int, urlAccepted: bool, busErrors: seq<string>)
      returns (r: Outcome<Handling>)
      requires sensor != null ==> sensor.Valid()
      modifies this, sensor
      ensures sensor == old(sensor) && id == old(id) && serviceName == old(serviceName) && parameters == old(parameters)
      ensures target == Some(ProxyRequests.TestTarget) ==>
        r == Returned(Answered(StatusPage(serviceName))) && requests == old(requests)
        && (sensor != null ==> sensor.toBus == old(sensor.toBus) && sensor.suspended == old(sensor.suspended))
      ensures target != Some(ProxyRequests.TestTarget) ==>
        var parsed := ProxyRequests.ProxyEnvelope(envelopeId, old(id), req, urlAccepted);
        (parsed.Threw? ==> r == Threw(parsed.fault) && requests == old(requests))
        && (parsed.Returned? ==>
              var e := AddRoute(parsed.value, OpSend);
              var eff := AfterRouting(old(requests), target, e,
                SendThrough(sensor == null, if sensor == null then false else old(sensor.isTest), e,
                            if sensor == null then map[] else old(sensor.handlers)),
                busErrors, ProxyRequests.HoldMillis);
              requests == eff.table && r == eff.result
              && (sensor != null ==> sensor.Sent(e)))
      ensures sensor != null ==> sensor.Valid()
    {
      if target == Some(ProxyRequests.TestTarget) {
        return Returned(Answered(StatusPage(serviceName)));
      }
      var parsed := ProxyRequests.ParseEnvelope(envelopeId, id, req, urlAccepted);
      if parsed.Threw? {
        return Threw(parsed.fault);
      }
      requests := requests[parsed.value.id := Hold(target, parsed.value, Untouched, Unheld, ProxyRequests.HoldMillis)];
      var e := AddRoute(parsed.value, OpSend);
      var routed: Outcome<bool>;
      if sensor == null {
        routed := Threw(NullPointer);
      } else {
        routed := sensor.Send(e);
      }
      AfterRoutingIgnoresPut(old(requests), Hold(target, parsed.value, Untouched, Unheld, ProxyRequests.HoldMillis), target, e, routed, busErrors, ProxyRequests.HoldMillis);
      requests, r := Settle(requests, target, e, routed, busErrors, ProxyRequests.HoldMillis);
    }

    /** reply: a missing hold is ignored; otherwise the content is written, the request marked
        handled and the holder woken. `content` is the reply envelope's content. */
    method Reply(e: Envelope, content: ProxyRequests.ReplyContent, writerFails: bool) returns (r: Outcome<ReplyEnd>)
      modifies this
      ensures var eff := Replied(old(requests), e.id, ProxyRequests.ReplyWriteOf(content, writerFails), true);
        requests == eff.table && r == eff.result
      ensures sensor == old(sensor) && id == old(id) && serviceName == old(serviceName) && parameters == old(parameters)
    {
      if e.id !in requests {
        return Returned(NoHold);
      }
      var write := ProxyRequests.ReplyWriteOf(content, writerFails);
      if write.Threw? {
        return Threw(write.fault);
      }
      var wake := WakeOf(requests[e.id].phase);
      requests := Delivered(requests, e.id, write.value);
      if wake == NullThread {
        return Threw(NullPointer);
      }
      r := Returned(Woke(wake));
    }

    /** The end of ClientHold.hold: an interrupted holder removes its entry; the response as the
        request returns it. */
    method HoldEnds(envelopeId: int) returns (response: Response)
      requires Sleeping(requests, envelopeId)
      modifies this
      ensures requests == Ended(old(requests), envelopeId)
      ensures response == old(requests)[envelopeId].response
      ensures sensor == old(sensor) && id == old(id) && serviceName == old(serviceName) && parameters == old(parameters)
    {
      response := requests[envelopeId].response;
      requests := Ended(requests, envelopeId);
    }
  }

  // ---------------------------------------------------------------------------
  // EnvelopeJSONDataHandler

  class EnvelopeJSONDataHandler {
    var sensor: ClearnetServerSensor?
    var id: Option<int>
    var serviceName: Option<string>
    var requests: Table

    constructor()
      ensures sensor == null && id == None && serviceName == None && requests == map[]
    {
      sensor := null;
      id := None;
      serviceName := None;
      requests := map[];
    }

    method SetSensor(s: ClearnetServerSensor)
      requires s.Valid()
      modifies this, s
      ensures sensor == s && id == Some(GivenId(old(s.HandlerRegistry())))
      ensures s.Valid() && s.HandlerRegistry() == Register(old(s.HandlerRegistry()), JsonRef(this))
      ensures s.Rest() == old(s.Rest())
      ensures serviceName == old(serviceName) && requests == old(requests)
    {
      sensor := s;
      var given := s.RegisterHandler(JsonRef(this));
      id := Some(given);
    }

    method SetServiceName(name: Option<string>)
      modifies this
      ensures serviceName == name
      ensures sensor == old(sensor) && id == old(id) && requests == old(requests)
    {
      serviceName := name;
    }

    /** handle: the status page for "/"; verifyRequest always gives 200, so the request is parsed,
        the hold put, the REPLY route added and the envelope routed (a switch on its command path,
        which throws on a null path, then the sensor); then reject or sleep for thirty seconds. */
    method Handle(target: Option<string>, req: HttpRequest, envelopeId: int, urlAccepted: bool, busErrors: seq<string>)
      returns (r: Outcome<Handling>)
      requires sensor != null ==> sensor.Valid()
      modifies this, sensor
      ensures sensor == old(sensor) && id == old(id) && serviceName == old(serviceName)
      ensures target == Some(JsonRequests.RootTarget) ==>
        r == Returned(Answered(StatusPage(serviceName))) && requests == old(requests)
        && (sensor != null ==> sensor.toBus == old(sensor.toBus) && sensor.suspended == old(sensor.suspended))
      ensures target != Some(JsonRequests.RootTarget) ==>
        var parsed := JsonRequests.JsonEnvelope(envelopeId, old(id), target, req, urlAccepted);
        (parsed.Threw? ==> r == Threw(parsed.fault) && requests == old(requests))
        && (parsed.Returned? ==>
              var e := AddRoute(parsed.value, OpReply);
              var routed := if e.commandPath.None? then Threw(NullPointer)
                else SendThrough(sensor == null, if sensor == null then false else old(sensor.isTest), e,
                                 if sensor == null then map[] else old(sensor.handlers));
              var eff := AfterRouting(old(requests), target, e, routed, busErrors, JsonRequests.HoldMillis);
              requests == eff.table && r == eff.result
              && (sensor != null && e.commandPath.Some? ==> sensor.Sent(e)))
      ensures sensor != null ==> sensor.Valid()
    {
      if target == Some(JsonRequests.RootTarget) {
        return Returned(Answered(StatusPage(serviceName)));
      }
      var parsed := JsonRequests.ParseEnvelope(envelopeId, id, target, req, urlAccepted);
      if parsed.Threw? {
        return Threw(parsed.fault);
      }
      requests := requests[parsed.value.id := Hold(target, parsed.value, Untouched, Unheld, JsonRequests.HoldMillis)];
      var e := AddRoute(parsed.value, OpReply);
      var routed: Outcome<bool>;
      if e.commandPath.None? {
        routed := Threw(NullPointer);
      } else if sensor == null {
        routed := Threw(NullPointer);
      } else {
        routed := sensor.Send(e);
      }
      AfterRoutingIgnoresPut(old(requests), Hold(target, parsed.value, Untouched, Unheld, JsonRequests.HoldMillis), target, e, routed, busErrors, JsonRequests.HoldMillis);
      requests, r := Settle(requests, target, e, routed, busErrors, JsonRequests.HoldMillis);
    }

    /** reply: the hold is dereferenced unchecked, the reply envelope's command path is switched
        on, then an empty application/json body is written and the holder woken. */
    method Reply(e: Envelope, writerFails: bool) returns (r: Outcome<ReplyEnd>)
      modifies this
      ensures var write := if e.commandPath.None? then Threw(NullPointer) else Returned(JsonRequests.ReplyWriteOf(writerFails));
        var eff := Replied(old(requests), e.id, write, false);
        requests == eff.table && r == eff.result
      ensures sensor == old(sensor) && id == old(id) && serviceName == old(serviceName)
    {
      if e.id !in requests {
        return Threw(NullPointer);
      }
      if e.commandPath.None? {
        return Threw(NullPointer);
      }
      var wake := WakeOf(requests[e.id].phase);
      requests := Delivered(requests, e.id, JsonRequests.ReplyWriteOf(writerFails));
      if wake == NullThread {
        return Threw(NullPointer);
      }
      r := Returned(Woke(wake));
    }

    method HoldEnds(envelopeId: int) returns (response: Response)
      requires Sleeping(requests, envelopeId)
      modifies this
      ensures requests == Ended(old(requests), envelopeId)
      ensures response == old(requests)[envelopeId].response
      ensures sensor == old(sensor) && id == old(id) && serviceName == old(serviceName)
    {
      response := requests[envelopeId].response;
      requests := Ended(requests, envelopeId);
    }
  }

  // ---------------------------------------------------------------------------
  // HttpEnvelopeHandler

  class HttpEnvelopeHandler {
    const sensor: ClearnetServerSensor
    var id: int
    var requests: Table

    /** The constructor registers the new handler with the sensor it is given. */
    constructor(s: ClearnetServerSensor)
      requires s.Valid()
      modifies s
      ensures sensor == s && id == GivenId(old(s.HandlerRegistry())) && requests == map[]
      ensures s.Valid() && s.HandlerRegistry() == Register(old(s.HandlerRegistry()), HttpRef(this))
      ensures s.Rest() == old(s.Rest())
    {
      sensor := s;
      requests := map[];
      id := 0;
      new;
      id := s.RegisterHandler(HttpRef(this));
    }

    /** handle: verifyRequest always gives 200; parse, put the hold, add the REPLY route, send,
        then reject or sleep for thirty seconds. */
    method Handle(target: Option<string>, req: HttpRequest, envelopeId: int, busErrors: seq<string>)
      returns (r: Outcome<Handling>)
      requires sensor.Valid()
      modifies this, sensor
      ensures id == old(id) && sensor.Valid()
      ensures var parsed := HttpRequests.HttpEnvelope(envelopeId, Some(old(id)), target, req);
        (parsed.Threw? ==> r == Threw(parsed.fault) && requests == old(requests))
        && (parsed.Returned? ==>
              var e := AddRoute(parsed.value, OpReply);
              var eff := AfterRouting(old(requests), target, e,
                SendResult(old(sensor.isTest), e.headers, old(sensor.handlers)), busErrors, HttpRequests.HoldMillis);
              requests == eff.table && r == eff.result && sensor.Sent(e))
    {
      var parsed := HttpRequests.ParseEnvelope(envelopeId, Some(id), target, req);
      if parsed.Threw? {
        return Threw(parsed.fault);
      }
      requests := requests[parsed.value.id := Hold(target, parsed.value, Untouched, Unheld, HttpRequests.HoldMillis)];
      var e := AddRoute(parsed.value, OpReply);
      var routed := sensor.Send(e);
      AfterRoutingIgnoresPut(old(requests), Hold(target, parsed.value, Untouched, Unheld, HttpRequests.HoldMillis), target, e, routed, busErrors, HttpRequests.HoldMillis);
      requests, r := Settle(requests, target, e, routed, busErrors, HttpRequests.HoldMillis);
    }

    /** reply: the hold is dereferenced unchecked; the content is printed as application/json and
        the holder woken, without marking the request handled. */
    method Reply(e: Envelope, content: Option<string>, writerFails: bool) returns (r: Outcome<ReplyEnd>)
      modifies this
      ensures var eff := Replied(old(requests), e.id, Returned(HttpRequests.ReplyWriteOf(content, writerFails)), false);
        requests == eff.table && r == eff.result
      ensures id == old(id)
    {
      if e.id !in requests {
        return Threw(NullPointer);
      }
      var wake := WakeOf(requests[e.id].phase);
      requests := Delivered(requests, e.id, HttpRequests.ReplyWriteOf(content, writerFails));
      if wake == NullThread {
        return Threw(NullPointer);
      }
      r := Returned(Woke(wake));
    }

    method HoldEnds(envelopeId: int) returns (response: Response)
      requires Sleeping(requests, envelopeId)
      modifies this
      ensures requests == Ended(old(requests), envelopeId)
      ensures response == old(requests)[envelopeId].response
      ensures id == old(id)
    {
      response := requests[envelopeId].response;
      requests := Ended(requests, envelopeId);
    }
  }
}
