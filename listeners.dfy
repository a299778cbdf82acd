/** ClearnetServerSensor.start and startServer as functions of their inputs: which listeners come
    up, which browser URLs are launched, and how the run ends.

    Each configuration entry is "name,port,handlerClass,launch". The instantiation failures the
    code catches skip one entry, and a refused bind is logged and passed over. Every other failure
    leaves start by an exception: a short entry, a port that is not a number, a port outside
    0..65535, a class that is not a handler, or a class whose initializer or constructor throws. The Jetty bind is an oracle: the set of ports
    on which server.start() fails. */
module Listeners {
  import opened Wrappers
  import opened Text

  type Props = map<string, string>

  const PROP_UI: string := "1m5.ui"
  const PROP_UI_LAUNCH: string := "1m5.ui.launchOnStart"
  const SERVERS_CONFIG: string := "1m5.sensors.clearnet.server.config"

  const UI_NAME: string := "1M5"
  const UI_PORT: int := 571

  const PROXY_CLASS: string := "io.onemfive.clearnet.server.EnvelopeProxyDataHandler"
  const JSON_CLASS: string := "io.onemfive.clearnet.server.EnvelopeJSONDataHandler"
  const HTTP_CLASS: string := "io.onemfive.clearnet.server.HttpEnvelopeHandler"

  /** The handler a listener serves. */
  datatype HandlerKind = ProxyKind | JsonKind | HttpKind | ForeignKind(className: string)

  /** What Class.forName(name).newInstance() meets for a class outside this package. */
  datatype ClassInfo =
    | Handler            // an AsynchronousHandler with a public no-argument constructor
    | NotAHandler        // instantiable, but the cast to AsynchronousHandler fails
    | NoNullaryConstructor
    | Inaccessible
    | InitFails          // its static initializer or its constructor throws

  datatype Listener = Listener(name: string, port: int, handler: HandlerKind, contextPath: Option<string>, running: bool)

  /** The handler for a class name, None when the entry is skipped. The data handlers have
      no-argument constructors; HttpEnvelopeHandler's only constructor takes the sensor, so
      newInstance fails and the entry is skipped. A class whose initializer or constructor throws
      is not among the exceptions caught, so that exception leaves start. */
  function Instantiate(name: string, classpath: map<string, ClassInfo>): (r: Outcome<Option<HandlerKind>>)
    ensures r != Returned(Some(HttpKind))
    ensures r.Threw? ==> r.fault == ClassCast || r.fault == InitializerFailed
    ensures name == HTTP_CLASS ==> r == Returned(None)
    ensures name == PROXY_CLASS ==> r == Returned(Some(ProxyKind))
    ensures name == JSON_CLASS ==> r == Returned(Some(JsonKind))
    ensures name !in {PROXY_CLASS, JSON_CLASS, HTTP_CLASS} ==>
      (r == Returned(Some(ForeignKind(name))) <==> name in classpath && classpath[name] == Handler)
      && (r == Threw(ClassCast) <==> name in classpath && classpath[name] == NotAHandler)
      && (r == Threw(InitializerFailed) <==> name in classpath && classpath[name] == InitFails)
  {
    if name == PROXY_CLASS then Returned(Some(ProxyKind))
    else if name == JSON_CLASS then Returned(Some(JsonKind))
    else if name == HTTP_CLASS then Returned(None)
    else if name !in classpath then Returned(None)
    else
      match classpath[name]
      case Handler => Returned(Some(ForeignKind(name)))
      case NotAHandler => Threw(ClassCast)
      case InitFails => Threw(InitializerFailed)
      case _ => Returned(None)
  }

  /** What one entry asks for. */
  datatype EntryPlan = Skip | Serve(name: string, port: int, handler: HandlerKind, launch: bool)

  /** One entry of the loop up to startServer: fields read in order m[0], m[1], parse, m[2],
      instantiate, m[3]. */
  function PlanEntry(entry: string, classpath: map<string, ClassInfo>): (r: Outcome<EntryPlan>)
    ensures r.Threw? <==>
      var m := Split(entry, ',');
      |m| < 3 || ParseInt(m[1]).None? || Instantiate(m[2], classpath).Threw?
      || (Instantiate(m[2], classpath).value.Some? && |m| < 4)
    ensures r == Returned(Skip) <==>
      var m := Split(entry, ',');
      |m| >= 3 && ParseInt(m[1]).Some? && Instantiate(m[2], classpath) == Returned(None)
    ensures r.Returned? && r.value.Serve? ==>
      var m := Split(entry, ',');
      |m| >= 4 && r.value.name == m[0] && ParseInt(m[1]) == Some(r.value.port)
      && Instantiate(m[2], classpath) == Returned(Some(r.value.handler))
      && (r.value.launch <==> m[3] == "true")
      && r.value.handler != HttpKind
  {
    var m := Split(entry, ',');
    if |m| < 2 then Threw(IndexOutOfBounds)
    else
      var port := ParseInt(m[1]);
      if port.None? then Threw(NumberFormat)
      else if |m| < 3 then Threw(IndexOutOfBounds)
      else
        match Instantiate(m[2], classpath)
        case Threw(f) => Threw(f)
        case Returned(None) => Returned(Skip)
        case Returned(Some(kind)) =>
          if |m| < 4 then Threw(IndexOutOfBounds)
          else Returned(Serve(m[0], port.value, kind, m[3] == "true"))
  }

  /** The ports new InetSocketAddress accepts. */
  predicate ValidPort(port: int) {
    0 <= port <= 65535
  }

  function LaunchUrl(port: int): string {
    "http://127.0.0.1:" + (if port < 0 then "-" + Decimal(-port) else Decimal(port)) + "/"
  }

  /** The sensor's listeners and launched URLs as a run leaves them, and the exception that ended
      it, if any. */
  datatype Progress = Progress(servers: seq<Listener>, launched: seq<string>, fault: Option<Fault>)

  /** The outcome of a startServer call. */
  datatype ServeResult = ServeResult(progress: Progress, started: bool)

  /** startServer(name, port, handler, launch). The socket address is checked outside the try,
      so a bad port escapes; a refused bind returns false, and the list grows only on success. */
  function StartServerEffect(p: Progress, name: string, port: int, handler: HandlerKind, contextPath: Option<string>, launch: bool, refused: set<int>): (r: ServeResult)
    requires p.fault.None?
    ensures !ValidPort(port) ==> r == ServeResult(p.(fault := Some(IllegalArgument)), false)
    ensures ValidPort(port) && port in refused ==> r == ServeResult(p, false)
    ensures r.started <==> ValidPort(port) && port !in refused
    ensures r.started ==>
      r.progress.servers == p.servers + [Listener(name, port, handler, contextPath, true)]
      && r.progress.launched == p.launched + (if launch then [LaunchUrl(port)] else [])
      && r.progress.fault.None?
  {
    if !ValidPort(port) then ServeResult(p.(fault := Some(IllegalArgument)), false)
    else if port in refused then ServeResult(p, false)
    else
      ServeResult(
        Progress(p.servers + [Listener(name, port, handler, contextPath, true)],
                 p.launched + (if launch then [LaunchUrl(port)] else []), None),
        true)
  }

  /** The one step of the config loop for one entry from a fault-free state. */
  function ConfigStep(p: Progress, entry: string, classpath: map<string, ClassInfo>, refused: set<int>): Progress
    requires p.fault.None?
  {
    match PlanEntry(entry, classpath)
    case Threw(f) => p.(fault := Some(f))
    case Returned(Skip) => p
    case Returned(Serve(name, port, kind, launch)) =>
      StartServerEffect(p, name, port, kind, None, launch, refused).progress
  }

  /** The config loop over the entries; a fault stops it. */
  function ConfigRun(p: Progress, entries: seq<string>, classpath: map<string, ClassInfo>, refused: set<int>): (r: Progress)
    ensures p.fault.Some? ==> r == p
    ensures r.fault.None? ==> p.fault.None?
    decreases |entries|
  {
    if entries == [] || p.fault.Some? then p
    else ConfigRun(ConfigStep(p, entries[0], classpath, refused), entries[1..], classpath, refused)
  }

  /** The config entries as evidently intended: the property value cut at each '|'. */
  function ConfigEntries(s: string): (r: seq<string>)
    ensures forall i :: 0 <= i < |r| ==> '|' !in r[i]
    ensures |r| <= |RawSplit(s, '|')| && r == RawSplit(s, '|')[..|r|]
    ensures forall j :: |r| <= j < |RawSplit(s, '|')| ==> RawSplit(s, '|')[j] == ""
    ensures '|' !in s ==> r == [s]
  {
    SplitKeepsPrefix(s, '|');
    RawSplitPiecesFree(s, '|');
    Split(s, '|')
  }

  /** Entries written one after another with '|' between them are read back one by one. */
  lemma ConfigEntriesRoundTrip(es: seq<string>)
    requires |es| >= 2 && es[|es| - 1] != "" && forall i :: 0 <= i < |es| ==> '|' !in es[i]
    ensures ConfigEntries(Join(es, '|')) == es
  {
    SplitJoin(es, '|');
  }

  /** serversConfig.split("|") as written: "|" is a regular expression matching the empty string,
      so the value is cut between every two characters. */
  function RegexBarSplit(s: string): (r: seq<string>)
    ensures |r| >= 1
    ensures s != "" ==> |r| == |s| && forall i :: 0 <= i < |s| ==> r[i] == [s[i]]
  {
    if s == "" then [""] else seq(|s|, i requires 0 <= i < |s| => [s[i]])
  }

  // ---------------------------------------------------------------------------
  // start

  predicate UiOn(props: Props) {
    PROP_UI in props && props[PROP_UI] == "true"
  }

  predicate UiLaunch(props: Props) {
    PROP_UI_LAUNCH in props && props[PROP_UI_LAUNCH] == "true"
  }

  /** start's run: the properties it ends with, the listeners, the launches, and the result. */
  datatype StartRun = StartRun(properties: Option<Props>, progress: Progress, result: Outcome<bool>)

  /** The properties start works with: the loaded ones, or the old field when loading threw. */
  function PropertiesAfterLoad(current: Option<Props>, loaded: Option<Props>): Option<Props> {
    if loaded.Some? then loaded else current
  }

  /** start(p) with the given entry splitter applied to the config property; `servers` is the
      sensor's list before the call. */
  function StartWith(splitter: string -> seq<string>, current: Option<Props>, loaded: Option<Props>, servers: seq<Listener>, launched: seq<string>, classpath: map<string, ClassInfo>, refused: set<int>): (r: StartRun)
    ensures r.properties == PropertiesAfterLoad(current, loaded)
    ensures r.properties.None? ==> r == StartRun(None, Progress(servers, launched, None), Threw(NullPointer))
    ensures r.result == Returned(false) <==> r.properties.Some? && UiOn(r.properties.value) && UI_PORT in refused
    ensures r.result.Threw? ==> r.result.fault == NullPointer || r.progress.fault == Some(r.result.fault)
  {
    var props := PropertiesAfterLoad(current, loaded);
    var p0 := Progress(servers, launched, None);
    if props.None? then StartRun(None, p0, Threw(NullPointer))
    else
      var pr := props.value;
      var ui := if UiOn(pr) then StartServerEffect(p0, UI_NAME, UI_PORT, HttpKind, Some("/"), UiLaunch(pr), refused)
                else ServeResult(p0, true);
      if !ui.started then StartRun(props, ui.progress, Returned(false))
      else if SERVERS_CONFIG !in pr then StartRun(props, ui.progress, Returned(true))
      else
        var p := ConfigRun(ui.progress, splitter(pr[SERVERS_CONFIG]), classpath, refused);
        StartRun(props, p, if p.fault.Some? then Threw(p.fault.value) else Returned(true))
  }

  /** start as intended, with entries separated at '|'. */
  function Start(current: Option<Props>, loaded: Option<Props>, servers: seq<Listener>, launched: seq<string>, classpath: map<string, ClassInfo>, refused: set<int>): (r: StartRun)
    ensures r.properties == PropertiesAfterLoad(current, loaded)
    ensures r.result == Returned(true) ==> r.progress.fault.None?
    ensures r.result.Threw? <==> r.properties.None? || r.progress.fault.Some?
    ensures r.properties.Some? && SERVERS_CONFIG !in r.properties.value ==>
      |servers| <= |r.progress.servers| <= |servers| + 1
  {
    StartWith(ConfigEntries, current, loaded, servers, launched, classpath, refused)
  }

  // ---------------------------------------------------------------------------
  // Properties

  /** The loop only appends: earlier listeners and launches stay as they were, and every listener
      it adds is running on a valid port whose bind was not refused. */
  lemma {:induction false} ConfigRunAppends(p: Progress, entries: seq<string>, classpath: map<string, ClassInfo>, refused: set<int>)
    ensures var q := ConfigRun(p, entries, classpath, refused);
      |p.servers| <= |q.servers| && q.servers[..|p.servers|] == p.servers
      && |p.launched| <= |q.launched| && q.launched[..|p.launched|] == p.launched
      && (forall i :: |p.servers| <= i < |q.servers| ==>
            ValidPort(q.servers[i].port) && q.servers[i].port !in refused
            && q.servers[i].running && q.servers[i].contextPath.None? && q.servers[i].handler != HttpKind)
    ensures p.fault.Some? ==> ConfigRun(p, entries, classpath, refused) == p
    decreases |entries|
  {
    if entries != [] && p.fault.None? {
      var p1 := ConfigStep(p, entries[0], classpath, refused);
      ConfigStepAppends(p, entries[0], classpath, refused);
      ConfigRunAppends(p1, entries[1..], classpath, refused);
      var q := ConfigRun(p1, entries[1..], classpath, refused);
      assert q == ConfigRun(p, entries, classpath, refused);
      assert q.servers[..|p.servers|] == p.servers by {
        assert q.servers[..|p1.servers|][..|p.servers|] == q.servers[..|p.servers|];
      }
      assert q.launched[..|p.launched|] == p.launched by {
        assert q.launched[..|p1.launched|][..|p.launched|] == q.launched[..|p.launched|];
      }
      forall i | |p.servers| <= i < |q.servers|
        ensures ValidPort(q.servers[i].port) && q.servers[i].port !in refused
          && q.servers[i].running && q.servers[i].contextPath.None? && q.servers[i].handler != HttpKind
      {
        if i < |p1.servers| {
          assert q.servers[i] == q.servers[..|p1.servers|][i] == p1.servers[i];
        }
      }
    }
  }

  /** One entry's effect: it faults exactly when planning it threw or its port is invalid, and it
      adds one listener exactly when it serves on a valid port whose bind is accepted. */
  lemma ConfigStepEffect(p: Progress, entry: string, classpath: map<string, ClassInfo>, refused: set<int>)
    requires p.fault.None?
    ensures var q, plan := ConfigStep(p, entry, classpath, refused), PlanEntry(entry, classpath);
      (q.fault.Some? <==> plan.Threw? || (plan.value.Serve? && !ValidPort(plan.value.port)))
      && (plan.Threw? ==> q == p.(fault := Some(plan.fault)))
      && (q.servers != p.servers <==>
            plan.Returned? && plan.value.Serve? && ValidPort(plan.value.port) && plan.value.port !in refused)
      && (q.servers != p.servers ==> |q.servers| == |p.servers| + 1 && q.servers[..|p.servers|] == p.servers)
      && (q.servers == p.servers ==> q.launched == p.launched)
  {
  }

  /** One step only appends, and what it adds runs on a valid, unrefused port outside the root path. */
  lemma ConfigStepAppends(p: Progress, entry: string, classpath: map<string, ClassInfo>, refused: set<int>)
    requires p.fault.None?
    ensures var q := ConfigStep(p, entry, classpath, refused);
      |p.servers| <= |q.servers| && q.servers[..|p.servers|] == p.servers
      && |p.launched| <= |q.launched| && q.launched[..|p.launched|] == p.launched
      && (forall i :: |p.servers| <= i < |q.servers| ==>
            ValidPort(q.servers[i].port) && q.servers[i].port !in refused
            && q.servers[i].running && q.servers[i].contextPath.None? && q.servers[i].handler != HttpKind)
  {
  }

  /** Each entry adds at most one listener. */
  lemma {:induction false} ConfigRunBounded(p: Progress, entries: seq<string>, classpath: map<string, ClassInfo>, refused: set<int>)
    ensures |ConfigRun(p, entries, classpath, refused).servers| <= |p.servers| + |entries|
    decreases |entries|
  {
    if entries != [] && p.fault.None? {
      ConfigRunBounded(ConfigStep(p, entries[0], classpath, refused), entries[1..], classpath, refused);
    }
  }

  /** An entry that is skipped, or whose bind is refused, has no effect at all: the run is the
      run without it. */
  lemma {:induction false} InertEntryIsRemovable(p: Progress, entries: seq<string>, i: int, classpath: map<string, ClassInfo>, refused: set<int>)
    requires 0 <= i < |entries|
    requires var plan := PlanEntry(entries[i], classpath);
      plan == Returned(Skip)
      || (plan.Returned? && plan.value.Serve? && ValidPort(plan.value.port) && plan.value.port in refused)
    ensures ConfigRun(p, entries, classpath, refused) == ConfigRun(p, entries[..i] + entries[i + 1..], classpath, refused)
    decreases i
  {
    if p.fault.Some? {
    } else if i == 0 {
      assert (entries[..0] + entries[1..]) == entries[1..];
    } else {
      var p1 := ConfigStep(p, entries[0], classpath, refused);
      InertEntryIsRemovable(p1, entries[1..], i - 1, classpath, refused);
      assert entries[1..][..i - 1] + entries[1..][i..] == (entries[..i] + entries[i + 1..])[1..];
    }
  }

  /** A faulting entry ends the loop there: nothing after it is started. */
  lemma {:induction false} FaultingEntryStops(p: Progress, entries: seq<string>, i: int, classpath: map<string, ClassInfo>, refused: set<int>)
    requires 0 <= i < |entries| && p.fault.None?
    requires PlanEntry(entries[i], classpath).Threw?
    requires ConfigRun(p, entries[..i], classpath, refused).fault.None?
    ensures ConfigRun(p, entries, classpath, refused)
      == ConfigRun(p, entries[..i], classpath, refused).(fault := Some(PlanEntry(entries[i], classpath).fault))
    decreases i
  {
    if i > 0 {
      var p1 := ConfigStep(p, entries[0], classpath, refused);
      assert entries[..i][0] == entries[0] && entries[..i][1..] == entries[1..][..i - 1];
      FaultingEntryStops(p1, entries[1..], i - 1, classpath, refused);
    }
  }

  /** A well-formed entry whose class instantiates asks to serve exactly what it names. */
  lemma PlanEntryRoundTrip(name: string, port: nat, className: string, launch: string, classpath: map<string, ClassInfo>)
    requires port <= IntMax
    requires ',' !in name && ',' !in className && ',' !in launch && launch != ""
    requires Instantiate(className, classpath).Returned? && Instantiate(className, classpath).value.Some?
    ensures PlanEntry(Join([name, Decimal(port), className, launch], ','), classpath)
      == Returned(Serve(name, port, Instantiate(className, classpath).value.value, launch == "true"))
  {
    var ps := [name, Decimal(port), className, launch];
    DecimalFree(port, ',');
    assert forall i :: 0 <= i < |ps| ==> ',' !in ps[i];
    SplitJoin(ps, ',');
    ParseIntDecimal(port);
  }

  /** HttpEnvelopeHandler named in the configuration is always skipped. */
  lemma HttpFromConfigSkipped(entry: string, classpath: map<string, ClassInfo>)
    requires |Split(entry, ',')| >= 3 && ParseInt(Split(entry, ',')[1]).Some?
    requires Split(entry, ',')[2] == HTTP_CLASS
    ensures PlanEntry(entry, classpath) == Returned(Skip)
  {
  }

  /** Field 3 is read only after instantiation: a three-field entry whose class is skipped is
      only skipped, while one whose class instantiates throws. */
  lemma LaunchFieldReadAfterInstantiation(name: string, port: nat, className: string, classpath: map<string, ClassInfo>)
    requires port <= IntMax && ',' !in name && ',' !in className && className != ""
    requires Instantiate(className, classpath).Returned?
    ensures var entry := Join([name, Decimal(port), className], ',');
      PlanEntry(entry, classpath)
        == if Instantiate(className, classpath).value.None? then Returned(Skip) else Threw(IndexOutOfBounds)
  {
    var ps := [name, Decimal(port), className];
    DecimalFree(port, ',');
    assert forall i :: 0 <= i < |ps| ==> ',' !in ps[i];
    SplitJoin(ps, ',');
    ParseIntDecimal(port);
  }

  /** A piece of at most one character never has a second field. */
  lemma ShortPieceHasNoPort(x: string)
    requires |x| <= 1
    ensures |Split(x, ',')| < 2
  {
    if x == [','] {
      assert RawSplit(x, ',') == ["", ""] by {
        assert x[1..] == "";
      }
      assert DropTrailingEmpty(["", ""]) == [] by {
        assert ["", ""][..1] == [""];
        assert [""][..0] == [];
      }
    }
  }

  /** As written, the regex split turns any configuration into one-character entries, and the
      first of them throws ArrayIndexOutOfBoundsException before any configured server starts. */
  lemma AsWrittenConfigFaults(p: Progress, s: string, classpath: map<string, ClassInfo>, refused: set<int>)
    requires p.fault.None?
    ensures ConfigRun(p, RegexBarSplit(s), classpath, refused) == p.(fault := Some(IndexOutOfBounds))
  {
    var es := RegexBarSplit(s);
    ShortPieceHasNoPort(es[0]);
    assert PlanEntry(es[0], classpath) == Threw(IndexOutOfBounds);
    assert ConfigStep(p, es[0], classpath, refused) == p.(fault := Some(IndexOutOfBounds));
    ConfigRunAppends(p.(fault := Some(IndexOutOfBounds)), es[1..], classpath, refused);
  }

  /** With the intended split, two well-formed entries serve both, in order, and the launch
      field decides which URLs open. */
  lemma IntendedConfigServes(n1: string, port1: nat, c1: string, n2: string, port2: nat, c2: string, classpath: map<string, ClassInfo>, refused: set<int>)
    requires ',' !in n1 && ',' !in c1 && ',' !in n2 && ',' !in c2
    requires port1 <= 65535 && port2 <= 65535 && port1 !in refused && port2 !in refused
    requires Instantiate(c1, classpath).Returned? && Instantiate(c1, classpath).value.Some?
    requires Instantiate(c2, classpath).Returned? && Instantiate(c2, classpath).value.Some?
    ensures var e1 := Join([n1, Decimal(port1), c1, "true"], ',');
      var e2 := Join([n2, Decimal(port2), c2, "false"], ',');
      ConfigRun(Progress([], [], None), [e1, e2], classpath, refused)
        == Progress([Listener(n1, port1, Instantiate(c1, classpath).value.value, None, true),
                     Listener(n2, port2, Instantiate(c2, classpath).value.value, None, true)],
                    [LaunchUrl(port1)], None)
  {
    var e1 := Join([n1, Decimal(port1), c1, "true"], ',');
    var e2 := Join([n2, Decimal(port2), c2, "false"], ',');
    PlanEntryRoundTrip(n1, port1, c1, "true", classpath);
    PlanEntryRoundTrip(n2, port2, c2, "false", classpath);
    var p0 := Progress([], [], None);
    var p1 := ConfigStep(p0, e1, classpath, refused);
    assert p1 == Progress([Listener(n1, port1, Instantiate(c1, classpath).value.value, None, true)], [LaunchUrl(port1)], None);
    var p2 := ConfigStep(p1, e2, classpath, refused);
    var es := [e1, e2];
    assert es[1..] == [e2] && es[1..][1..] == [];
    assert ConfigRun(p0, es, classpath, refused) == ConfigRun(p1, [e2], classpath, refused) == p2;
  }

  /** A refused UI bind makes start return false before the configuration is read. */
  lemma UiRefusedStopsStart(current: Option<Props>, loaded: Option<Props>, servers: seq<Listener>, launched: seq<string>, classpath: map<string, ClassInfo>, refused: set<int>)
    requires PropertiesAfterLoad(current, loaded).Some? && UiOn(PropertiesAfterLoad(current, loaded).value)
    requires UI_PORT in refused
    ensures Start(current, loaded, servers, launched, classpath, refused)
      == StartRun(PropertiesAfterLoad(current, loaded), Progress(servers, launched, None), Returned(false))
  {
  }

  /** The UI step keeps the earlier listeners; it adds at most the UI listener, on an accepted port,
      and reports a fault only if it did not start. */
  lemma UiStepAppends(p0: Progress, pr: Props, refused: set<int>)
    requires p0.fault.None?
    ensures var ui := if UiOn(pr) then StartServerEffect(p0, UI_NAME, UI_PORT, HttpKind, Some("/"), UiLaunch(pr), refused)
                      else ServeResult(p0, true);
      |p0.servers| <= |ui.progress.servers| && ui.progress.servers[..|p0.servers|] == p0.servers
      && (forall i :: |p0.servers| <= i < |ui.progress.servers| ==>
            ValidPort(ui.progress.servers[i].port) && ui.progress.servers[i].port !in refused)
      && (ui.started ==> ui.progress.fault.None?)
      && (!ui.started <==> UiOn(pr) && UI_PORT in refused)
  {
  }

  /** start never removes a listener; it returns true unless the UI bind was refused or an entry
      threw, and every listener it adds runs on a valid port whose bind was not refused. */
  lemma StartAppends(current: Option<Props>, loaded: Option<Props>, servers: seq<Listener>, launched: seq<string>, classpath: map<string, ClassInfo>, refused: set<int>)
    ensures var r := Start(current, loaded, servers, launched, classpath, refused);
      |servers| <= |r.progress.servers| && r.progress.servers[..|servers|] == servers
      && (forall i :: |servers| <= i < |r.progress.servers| ==>
            ValidPort(r.progress.servers[i].port) && r.progress.servers[i].port !in refused)
      && (r.result == Returned(true) <==>
            (r.properties.Some? && r.progress.fault.None? && !(UiOn(r.properties.value) && UI_PORT in refused)))
  {
    var r := Start(current, loaded, servers, launched, classpath, refused);
    var props := PropertiesAfterLoad(current, loaded);
    var p0 := Progress(servers, launched, None);
    if props.None? {
      assert r == StartRun(None, p0, Threw(NullPointer));
    } else {
      var pr := props.value;
      var ui := if UiOn(pr) then StartServerEffect(p0, UI_NAME, UI_PORT, HttpKind, Some("/"), UiLaunch(pr), refused)
                else ServeResult(p0, true);
      UiStepAppends(p0, pr, refused);
      if !ui.started {
        assert r == StartRun(props, ui.progress, Returned(false));
      } else if SERVERS_CONFIG !in pr {
        assert r == StartRun(props, ui.progress, Returned(true));
      } else {
        var es := ConfigEntries(pr[SERVERS_CONFIG]);
        ConfigRunAppends(ui.progress, es, classpath, refused);
        var q := ConfigRun(ui.progress, es, classpath, refused);
        assert r == StartRun(props, q, if q.fault.Some? then Threw(q.fault.value) else Returned(true));
        assert q.servers[..|servers|] == servers by {
          assert q.servers[..|ui.progress.servers|][..|servers|] == q.servers[..|servers|];
        }
        forall i | |servers| <= i < |q.servers|
          ensures ValidPort(q.servers[i].port) && q.servers[i].port !in refused
        {
          if i < |ui.progress.servers| {
            assert q.servers[i] == q.servers[..|ui.progress.servers|][i] == ui.progress.servers[i];
          }
        }
      }
    }
  }

  /** As written, start throws whenever the configuration property is present and the UI did not
      stop it first, and no configured listener is started. */
  lemma AsWrittenStartThrows(current: Option<Props>, loaded: Option<Props>, servers: seq<Listener>, launched: seq<string>, classpath: map<string, ClassInfo>, refused: set<int>)
    requires PropertiesAfterLoad(current, loaded).Some?
    requires SERVERS_CONFIG in PropertiesAfterLoad(current, loaded).value
    requires !(UiOn(PropertiesAfterLoad(current, loaded).value) && UI_PORT in refused)
    ensures var r := StartWith(RegexBarSplit, current, loaded, servers, launched, classpath, refused);
      r.result == Threw(IndexOutOfBounds)
      && |r.progress.servers| == |servers| + (if UiOn(PropertiesAfterLoad(current, loaded).value) then 1 else 0)
  {
    var pr := PropertiesAfterLoad(current, loaded).value;
    var p0 := Progress(servers, launched, None);
    var ui := if UiOn(pr) then StartServerEffect(p0, UI_NAME, UI_PORT, HttpKind, Some("/"), UiLaunch(pr), refused)
              else ServeResult(p0, true);
    AsWrittenConfigFaults(ui.progress, pr[SERVERS_CONFIG], classpath, refused);
  }
}
