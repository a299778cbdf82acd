/** The request-translation steps that EnvelopeProxyDataHandler, EnvelopeJSONDataHandler and
    HttpEnvelopeHandler each carry a copy of, identical in all three: the method switch, the
    header folding loop, the query loop, and (in the JSON and plain HTTP handlers) the parts loop. */
module Requests {
  import opened Wrappers
  import opened Text
  import opened Envelopes

  /** One header name with all its values, in arrival order (getHeaders(name)). */
  datatype HeaderField = HeaderField(name: string, values: seq<string>)

  /** Part.getInputStream(): null, a readable stream, or one whose reading throws IOException. */
  datatype PartStream = NoStream | Bytes(bytes: seq<byte>) | Unreadable

  datatype Part = Part(
    name: Option<string>,
    fileName: Option<string>,
    contentType: Option<string>,
    size: int,
    stream: PartStream)

  /** What request.getParts() did. */
  datatype PartsSource =
    | Parts(parts: seq<Part>)
    | PartsCheckedFailure    // threw IOException or ServletException
    | PartsUncheckedFailure  // threw a runtime exception (e.g. IllegalStateException)

  /** The servlet request as the handlers read it. */
  datatype HttpRequest = HttpRequest(
    verb: Option<string>,                // getMethod()
    uri: string,                         // getRequestURI()
    headers: seq<HeaderField>,           // getHeaderNames() with getHeaders(name)
    parts: PartsSource,
    formBody: string,                    // what the body reader collected
    formIsObject: bool,                  // JSONParser.parse(formBody) gives a Map
    query: Option<string>,               // getQueryString()
    params: map<string, seq<string>>)    // getParameterMap()

  // ---------------------------------------------------------------------------
  // HTTP method to envelope action

  /** The method switch: GET, POST, PUT and DELETE in any letter case, everything else VIEW. */
  function ActionFor(verb: Option<string>): (a: Action)
    ensures verb.None? ==> a == VIEW
    ensures verb.Some? ==> (a == ADD <==> ToUpper(verb.value) == "POST")
    ensures verb.Some? ==> (a == UPDATE <==> ToUpper(verb.value) == "PUT")
    ensures verb.Some? ==> (a == REMOVE <==> ToUpper(verb.value) == "DELETE")
    ensures verb.Some? ==> (a == VIEW <==> ToUpper(verb.value) !in {"POST", "PUT", "DELETE"})
  {
    match verb
    case None => VIEW
    case Some(m) =>
      var u := ToUpper(m);
      if u == "GET" then VIEW
      else if u == "POST" then ADD
      else if u == "PUT" then UPDATE
      else if u == "DELETE" then REMOVE
      else VIEW
  }

  /** Letter case does not matter: lower-case and mixed-case methods map like upper-case ones. */
  lemma ActionForIgnoresCase(s: string, t: string)
    requires ToUpper(s) == ToUpper(t)
    ensures ActionFor(Some(s)) == ActionFor(Some(t))
    ensures ActionFor(Some("post")) == ADD && ActionFor(Some("Delete")) == REMOVE
    ensures ActionFor(Some("put")) == UPDATE && ActionFor(Some("PATCH")) == VIEW
  {
    assert ToUpper("post") == "POST";
    assert ToUpper("Delete") == "DELETE";
    assert ToUpper("put") == "PUT";
    assert ToUpper("PATCH") == "PATCH";
  }

  // ---------------------------------------------------------------------------
  // Header folding

  /** The key of the n-th value of a header: the bare name for the first, name + n after that. */
  function HeaderKey(name: string, n: nat): string
    requires n >= 1
  {
    if n == 1 then name else name + Decimal(n)
  }

  /** Values of h from index j on, stored under their keys. */
  function FoldFrom(m: map<string, HeaderValue>, name: string, values: seq<string>, j: nat): (r: map<string, HeaderValue>)
    requires j <= |values|
    ensures m.Keys <= r.Keys
    decreases |values| - j
  {
    if j == |values| then m
    else FoldFrom(m[HeaderKey(name, j + 1) := HStr(values[j])], name, values, j + 1)
  }

  function FoldHeader(m: map<string, HeaderValue>, h: HeaderField): (r: map<string, HeaderValue>)
    ensures m.Keys <= r.Keys
  {
    FoldFrom(m, h.name, h.values, 0)
  }

  /** The headers loop: every header in turn, each value under its key (a later write to the same key wins). */
  function FoldHeaders(m: map<string, HeaderValue>, hs: seq<HeaderField>): (r: map<string, HeaderValue>)
    ensures m.Keys <= r.Keys
    decreases |hs|
  {
    if hs == [] then m else FoldHeaders(FoldHeader(m, hs[0]), hs[1..])
  }

  ghost predicate IsKeyOf(h: HeaderField, k: string) {
    exists j :: 1 <= j <= |h.values| && HeaderKey(h.name, j) == k
  }

  /** No two header values of different headers are stored under the same key. */
  ghost predicate DistinctKeys(hs: seq<HeaderField>) {
    forall a, b, j, t ::
      0 <= a < b < |hs| && 1 <= j <= |hs[a].values| && 1 <= t <= |hs[b].values| ==>
        HeaderKey(hs[a].name, j) != HeaderKey(hs[b].name, t)
  }

  lemma HeaderKeyInjective(name: string, a: nat, b: nat)
    requires a >= 1 && b >= 1 && HeaderKey(name, a) == HeaderKey(name, b)
    ensures a == b
  {
    if a > 1 && b > 1 {
      assert (name + Decimal(a))[|name|..] == Decimal(a);
      assert (name + Decimal(b))[|name|..] == Decimal(b);
      DecimalInjective(a, b);
    }
  }

  lemma {:induction false} FoldFromRecords(m: map<string, HeaderValue>, name: string, values: seq<string>, j: nat)
    requires j <= |values|
    ensures forall t :: j < t <= |values| ==>
      HeaderKey(name, t) in FoldFrom(m, name, values, j) && FoldFrom(m, name, values, j)[HeaderKey(name, t)] == HStr(values[t - 1])
    ensures forall k :: (forall t :: j < t <= |values| ==> HeaderKey(name, t) != k) ==>
      (k in FoldFrom(m, name, values, j) <==> k in m) && (k in m ==> FoldFrom(m, name, values, j)[k] == m[k])
    decreases |values| - j
  {
    if j < |values| {
      var key := HeaderKey(name, j + 1);
      var m' := m[key := HStr(values[j])];
      FoldFromRecords(m', name, values, j + 1);
      forall t | j + 1 < t <= |values|
        ensures HeaderKey(name, t) != key
      {
        if HeaderKey(name, t) == key {
          HeaderKeyInjective(name, t, j + 1);
        }
      }
    }
  }

  /** One header with values v1..vn: v1 under the bare name, vj under name + j, nothing else touched. */
  lemma FoldHeaderRecords(m: map<string, HeaderValue>, h: HeaderField)
    ensures forall j :: 1 <= j <= |h.values| ==>
      HeaderKey(h.name, j) in FoldHeader(m, h) && FoldHeader(m, h)[HeaderKey(h.name, j)] == HStr(h.values[j - 1])
    ensures forall k :: !IsKeyOf(h, k) ==> (k in FoldHeader(m, h) <==> k in m) && (k in m ==> FoldHeader(m, h)[k] == m[k])
  {
    FoldFromRecords(m, h.name, h.values, 0);
  }

  /** Keys no header produces (HANDLER_ID, say) keep the value they had. */
  lemma {:induction false} FoldHeadersKeepsOthers(m: map<string, HeaderValue>, hs: seq<HeaderField>, k: string)
    requires forall a :: 0 <= a < |hs| ==> !IsKeyOf(hs[a], k)
    ensures (k in FoldHeaders(m, hs) <==> k in m) && (k in m ==> FoldHeaders(m, hs)[k] == m[k])
    decreases |hs|
  {
    if hs != [] {
      assert !IsKeyOf(hs[0], k);
      FoldHeaderRecords(m, hs[0]);
      forall b | 0 <= b < |hs[1..]|
        ensures !IsKeyOf(hs[1..][b], k)
      {
        assert hs[1..][b] == hs[b + 1];
      }
      FoldHeadersKeepsOthers(FoldHeader(m, hs[0]), hs[1..], k);
    }
  }

  /** When the suffixed keys of different headers do not clash, every value of every header is
      kept under its key. */
  lemma {:induction false} FoldHeadersRecords(m: map<string, HeaderValue>, hs: seq<HeaderField>)
    requires DistinctKeys(hs)
    ensures forall a, j :: 0 <= a < |hs| && 1 <= j <= |hs[a].values| ==>
      HeaderKey(hs[a].name, j) in FoldHeaders(m, hs) && FoldHeaders(m, hs)[HeaderKey(hs[a].name, j)] == HStr(hs[a].values[j - 1])
    decreases |hs|
  {
    if hs != [] {
      var m1 := FoldHeader(m, hs[0]);
      var rest := hs[1..];
      FoldHeaderRecords(m, hs[0]);
      assert DistinctKeys(rest) by {
        forall a, b, j, t | 0 <= a < b < |rest| && 1 <= j <= |rest[a].values| && 1 <= t <= |rest[b].values|
          ensures HeaderKey(rest[a].name, j) != HeaderKey(rest[b].name, t)
        {
          assert rest[a] == hs[a + 1] && rest[b] == hs[b + 1];
        }
      }
      FoldHeadersRecords(m1, rest);
      assert FoldHeaders(m, hs) == FoldHeaders(m1, rest);
      forall a, j | 0 <= a < |hs| && 1 <= j <= |hs[a].values|
        ensures HeaderKey(hs[a].name, j) in FoldHeaders(m, hs)
        ensures FoldHeaders(m, hs)[HeaderKey(hs[a].name, j)] == HStr(hs[a].values[j - 1])
      {
        if a == 0 {
          var k := HeaderKey(hs[0].name, j);
          forall b | 0 <= b < |rest|
            ensures !IsKeyOf(rest[b], k)
          {
            assert rest[b] == hs[b + 1];
          }
          FoldHeadersKeepsOthers(m1, rest, k);
        } else {
          assert hs[a] == rest[a - 1];
        }
      }
    }
  }

  /** The handler id header survives the folding unless some request header produces its key. */
  lemma HandlerIdKept(handlerId: Option<int>, hs: seq<HeaderField>)
    requires forall a :: 0 <= a < |hs| ==> !IsKeyOf(hs[a], HANDLER_ID)
    ensures HANDLER_ID in FoldHeaders(map[HANDLER_ID := IdHeader(handlerId)], hs)
    ensures FoldHeaders(map[HANDLER_ID := IdHeader(handlerId)], hs)[HANDLER_ID] == IdHeader(handlerId)
  {
    FoldHeadersKeepsOthers(map[HANDLER_ID := IdHeader(handlerId)], hs, HANDLER_ID);
  }

  /** A client that sends a header named like the handler id replaces the Byte with its String. */
  lemma HandlerIdSpoofed(handlerId: Option<int>, v: string)
    ensures var folded := FoldHeaders(map[HANDLER_ID := IdHeader(handlerId)], [HeaderField(HANDLER_ID, [v])]);
      HANDLER_ID in folded && folded[HANDLER_ID] == HStr(v)
  {
    var hs := [HeaderField(HANDLER_ID, [v])];
    assert hs[1..] == [];
    FoldHeaderRecords(map[HANDLER_ID := IdHeader(handlerId)], hs[0]);
    assert HeaderKey(HANDLER_ID, 1) == HANDLER_ID;
  }

  /** Folding is only as good as its keys: a header literally named "Accept2" overwrites the
      second value of "Accept". */
  lemma FoldHeadersCanOverwrite()
    ensures var hs := [HeaderField("Accept", ["a", "b"]), HeaderField("Accept2", ["c"])];
      FoldHeaders(map[], hs)["Accept2"] == HStr("c")
  {
    var hs := [HeaderField("Accept", ["a", "b"]), HeaderField("Accept2", ["c"])];
    assert Decimal(2) == "2";
    assert HeaderKey("Accept", 2) == "Accept2";
    var m1 := FoldHeader(map[], hs[0]);
    assert m1 == map["Accept" := HStr("a"), "Accept2" := HStr("b")];
    assert hs[1..] == [hs[1]];
    assert FoldHeaders(map[], hs) == FoldHeaders(FoldHeader(m1, hs[1]), []);
  }

  /** The nested headers loop of parseEnvelope. */
  method FoldRequestHeaders(m0: map<string, HeaderValue>, hs: seq<HeaderField>) returns (m: map<string, HeaderValue>)
    ensures m == FoldHeaders(m0, hs)
  {
    m := m0;
    var n := 0;
    while n < |hs|
      invariant 0 <= n <= |hs|
      invariant FoldHeaders(m, hs[n..]) == FoldHeaders(m0, hs)
    {
      var headerName := hs[n].name;
      var headerValues := hs[n].values;
      ghost var before := m;
      var first := true;
      var i := 2;
      var j := 0;
      while j < |headerValues|
        invariant 0 <= j <= |headerValues|
        invariant first <==> j == 0
        invariant i == if j == 0 then 2 else j + 1
        invariant FoldFrom(m, headerName, headerValues, j) == FoldHeader(before, hs[n])
      {
        var headerValue := headerValues[j];
        if first {
          m := m[headerName := HStr(headerValue)];
          first := false;
        } else {
          m := m[headerName + Decimal(i) := HStr(headerValue)];
          i := i + 1;
        }
        j := j + 1;
      }
      assert hs[n..][1..] == hs[n + 1..];
      n := n + 1;
    }
  }

  // ---------------------------------------------------------------------------
  // Query string

  /** Field 0 of `pair.split("=")` (empty when there is none). */
  function Key(pair: string): string {
    var nvp := Split(pair, '=');
    if |nvp| >= 1 then nvp[0] else ""
  }

  /** Field 1 of `pair.split("=")` (empty when there is none). */
  function Value(pair: string): string {
    var nvp := Split(pair, '=');
    if |nvp| >= 2 then nvp[1] else ""
  }

  /** `nvp[0]` and `nvp[1]` both exist. */
  predicate WellFormedPair(pair: string) {
    |Split(pair, '=')| >= 2
  }

  /** The pairs put into the map in order; a pair without two fields throws. */
  function QueryInto(m: map<string, string>, pairs: seq<string>): (r: Outcome<map<string, string>>)
    ensures r.Threw? ==> r.fault == IndexOutOfBounds
    ensures r.Returned? ==> m.Keys <= r.value.Keys
    decreases |pairs|
  {
    if pairs == [] then Returned(m)
    else if !WellFormedPair(pairs[0]) then Threw(IndexOutOfBounds)
    else QueryInto(m[Key(pairs[0]) := Value(pairs[0])], pairs[1..])
  }

  /** The query loop: split on '&', each pair on '=', field 0 mapped to field 1 in a HashMap. */
  function ParseQuery(q: string): (r: Outcome<map<string, string>>)
    ensures r.Threw? ==> r.fault == IndexOutOfBounds
    ensures q == "" ==> r == Threw(IndexOutOfBounds)
  {
    QueryInto(map[], Split(q, '&'))
  }

  method ParseQueryString(query: string) returns (r: Outcome<map<string, string>>)
    ensures r == ParseQuery(query)
  {
    var queryMap: map<string, string> := map[];
    var nvps := Split(query, '&');
    var n := 0;
    while n < |nvps|
      invariant 0 <= n <= |nvps|
      invariant QueryInto(queryMap, nvps[n..]) == ParseQuery(query)
    {
      var nvp := Split(nvps[n], '=');
      if |nvp| < 2 {
        return Threw(IndexOutOfBounds);
      }
      queryMap := queryMap[nvp[0] := nvp[1]];
      assert nvps[n..][1..] == nvps[n + 1..];
      n := n + 1;
    }
    r := Returned(queryMap);
  }

  lemma {:induction false} QueryIntoThrows(m: map<string, string>, pairs: seq<string>)
    ensures QueryInto(m, pairs).Threw? <==> exists i :: 0 <= i < |pairs| && !WellFormedPair(pairs[i])
    decreases |pairs|
  {
    if pairs != [] && WellFormedPair(pairs[0]) {
      QueryIntoThrows(m[Key(pairs[0]) := Value(pairs[0])], pairs[1..]);
      if exists i :: 0 <= i < |pairs| && !WellFormedPair(pairs[i]) {
        var i :| 0 <= i < |pairs| && !WellFormedPair(pairs[i]);
        assert pairs[1..][i - 1] == pairs[i];
      }
    }
  }

  lemma {:induction false} QueryIntoKeys(m: map<string, string>, pairs: seq<string>)
    requires QueryInto(m, pairs).Returned?
    ensures forall k :: k in QueryInto(m, pairs).value <==> (k in m || exists i :: 0 <= i < |pairs| && Key(pairs[i]) == k)
    decreases |pairs|
  {
    if pairs != [] {
      var rest := pairs[1..];
      QueryIntoKeys(m[Key(pairs[0]) := Value(pairs[0])], rest);
      forall k
        ensures k in QueryInto(m, pairs).value <==> (k in m || exists i :: 0 <= i < |pairs| && Key(pairs[i]) == k)
      {
        if exists i :: 0 <= i < |rest| && Key(rest[i]) == k {
          var i :| 0 <= i < |rest| && Key(rest[i]) == k;
          assert Key(pairs[i + 1]) == k;
        }
        if exists i :: 0 <= i < |pairs| && Key(pairs[i]) == k {
          var i :| 0 <= i < |pairs| && Key(pairs[i]) == k;
          if i > 0 {
            assert Key(rest[i - 1]) == k;
          }
        }
      }
    }
  }

  /** A key no later pair repeats keeps its own pair's value; keys of no pair keep m's value. */
  lemma {:induction false} QueryIntoValues(m: map<string, string>, pairs: seq<string>, k: string, v: string)
    requires QueryInto(m, pairs).Returned?
    requires k in QueryInto(m, pairs).value
    requires (k in m && m[k] == v && forall i :: 0 <= i < |pairs| ==> Key(pairs[i]) != k)
          || (exists i :: 0 <= i < |pairs| && Key(pairs[i]) == k && Value(pairs[i]) == v
                && forall j :: i < j < |pairs| ==> Key(pairs[j]) != k)
    ensures QueryInto(m, pairs).value[k] == v
    decreases |pairs|
  {
    if pairs != [] {
      var m' := m[Key(pairs[0]) := Value(pairs[0])];
      var rest := pairs[1..];
      assert QueryInto(m, pairs) == QueryInto(m', rest);
      if k in m && m[k] == v && forall i :: 0 <= i < |pairs| ==> Key(pairs[i]) != k {
        assert Key(pairs[0]) != k;
        forall i | 0 <= i < |rest| ensures Key(rest[i]) != k { assert rest[i] == pairs[i + 1]; }
        QueryIntoValues(m', rest, k, v);
      } else {
        var i :| 0 <= i < |pairs| && Key(pairs[i]) == k && Value(pairs[i]) == v
                && forall j :: i < j < |pairs| ==> Key(pairs[j]) != k;
        if i == 0 {
          forall j | 0 <= j < |rest| ensures Key(rest[j]) != k { assert rest[j] == pairs[j + 1]; }
        } else {
          assert rest[i - 1] == pairs[i];
          forall j | i - 1 < j < |rest| ensures Key(rest[j]) != k { assert rest[j] == pairs[j + 1]; }
        }
        QueryIntoValues(m', rest, k, v);
      }
    }
  }

  /** The query loop throws exactly when some '&'-separated piece lacks field 1 after splitting on '='
      ("b", "a=", "=" and the empty query all do). */
  lemma ParseQueryThrows(q: string)
    ensures ParseQuery(q).Threw? <==> exists i :: 0 <= i < |Split(q, '&')| && !WellFormedPair(Split(q, '&')[i])
  {
    QueryIntoThrows(map[], Split(q, '&'));
  }

  /** The map holds exactly the keys of the pieces; for a repeated key the last piece wins. */
  lemma ParseQueryLastWins(q: string)
    requires ParseQuery(q).Returned?
    ensures var pairs := Split(q, '&');
      (forall k :: k in ParseQuery(q).value <==> exists i :: 0 <= i < |pairs| && Key(pairs[i]) == k)
      && (forall i :: 0 <= i < |pairs| && (forall j :: i < j < |pairs| ==> Key(pairs[j]) != Key(pairs[i])) ==>
            ParseQuery(q).value[Key(pairs[i])] == Value(pairs[i]))
  {
    var pairs := Split(q, '&');
    QueryIntoKeys(map[], pairs);
    forall i | 0 <= i < |pairs| && (forall j :: i < j < |pairs| ==> Key(pairs[j]) != Key(pairs[i]))
      ensures ParseQuery(q).value[Key(pairs[i])] == Value(pairs[i])
    {
      QueryIntoValues(map[], pairs, Key(pairs[i]), Value(pairs[i]));
    }
  }

  /** A pair written as key '=' value reads back as that key and value. */
  lemma PairFields(k: string, v: string)
    requires '=' !in k && '=' !in v && v != ""
    ensures WellFormedPair(k + ['='] + v) && Key(k + ['='] + v) == k && Value(k + ['='] + v) == v
  {
    SplitOnce(k, v, '=');
  }

  /** Two pairs joined with '&' parse to the map of both; when the keys are equal the second wins. */
  lemma ParseQueryTwoPairs(k1: string, v1: string, k2: string, v2: string)
    requires '=' !in k1 && '=' !in v1 && '=' !in k2 && '=' !in v2
    requires '&' !in k1 && '&' !in v1 && '&' !in k2 && '&' !in v2
    requires v1 != "" && v2 != ""
    ensures ParseQuery(k1 + ['='] + v1 + ['&'] + k2 + ['='] + v2) == Returned(map[k1 := v1, k2 := v2])
  {
    var p1 := k1 + ['='] + v1;
    var p2 := k2 + ['='] + v2;
    assert Split(k1 + ['='] + v1 + ['&'] + k2 + ['='] + v2, '&') == [p1, p2] by {
      assert '&' !in p1 && '&' !in p2 && p2 != "";
      assert p1 + ['&'] + p2 == k1 + ['='] + v1 + ['&'] + k2 + ['='] + v2;
      SplitOnce(p1, p2, '&');
    }
    assert QueryInto(map[], [p1, p2]) == Returned(map[k1 := v1, k2 := v2]) by {
      PairFields(k1, v1);
      PairFields(k2, v2);
      assert [p1, p2][1..] == [p2] && [p2][1..] == [];
      assert QueryInto(map[], [p1, p2]) == QueryInto(map[k1 := v1], [p2]);
      assert QueryInto(map[k1 := v1], [p2]) == QueryInto(map[k1 := v1, k2 := v2], []);
    }
  }

  /** `?a=1&b=2` gives the map {a: "1", b: "2"}. */
  lemma ParseQueryExample()
    ensures ParseQuery("a=1&b=2") == Returned(map["a" := "1", "b" := "2"])
  {
    ParseQueryTwoPairs("a", "1", "b", "2");
    assert "a" + ['='] + "1" + ['&'] + "b" + ['='] + "2" == "a=1&b=2";
  }

  /** The query step: nothing without a query string, otherwise its map is handed to addData. */
  function WithQuery(e: Envelope, query: Option<string>): (r: Outcome<Envelope>)
    ensures query.None? ==> r == Returned(e)
    ensures query.Some? ==> (r.Threw? <==> ParseQuery(query.value).Threw?)
    ensures r.Returned? && query.Some? ==> r.value == e.(extras := e.extras + [QueryData(ParseQuery(query.value).value)])
  {
    match query
    case None => Returned(e)
    case Some(q) =>
      match ParseQuery(q)
      case Threw(f) => Threw(f)
      case Returned(m) => Returned(e.(extras := e.extras + [QueryData(m)]))
  }

  /** The parameter step: a non-empty parameter map is handed to addContent. */
  function WithParams(e: Envelope, params: map<string, seq<string>>): Envelope {
    if params == map[] then e else e.(extras := e.extras + [ParamContent(params)])
  }

  // ---------------------------------------------------------------------------
  // Parts, as the JSON and plain HTTP handlers read them

  /** Why the parts loop stopped. */
  datatype PartsEnd = AllRead | ReadFailed | TooLarge

  datatype PartsResult = PartsResult(data: seq<DataMap>, end: PartsEnd)

  function TypeValue(contentType: Option<string>): DataValue {
    if contentType.Some? then DText(contentType.value) else DNull
  }

  /** The string built by `b.append((char) is.read())`: one char per byte. */
  function ByteChars(bytes: seq<byte>): string {
    seq(|bytes|, i requires 0 <= i < |bytes| => (bytes[i] as int) as char)
  }

  /** The map a later readable part is appended as. */
  function TextMap(p: Part): DataMap {
    map[ContentTypeKey := TypeValue(p.contentType),
        ContentKey := DText(if p.stream.Bytes? then ByteChars(p.stream.bytes) else "")]
  }

  /** The parts loop: parts without a stream are skipped; the first readable one puts only its
      content into data[0]; later ones are appended with their content type; a read error ends it. */
  function TextParts(data: seq<DataMap>, parts: seq<Part>, first: bool): (r: PartsResult)
    requires |data| >= 1
    ensures r.end != TooLarge
    decreases |parts|
  {
    if parts == [] then PartsResult(data, AllRead)
    else
      match parts[0].stream
      case NoStream => TextParts(data, parts[1..], first)
      case Unreadable => PartsResult(data, ReadFailed)
      case Bytes(b) =>
        if first then TextParts(data[0 := data[0][ContentKey := DText(ByteChars(b))]], parts[1..], false)
        else TextParts(data + [TextMap(parts[0])], parts[1..], false)
  }

  method ReadTextParts(data0: seq<DataMap>, parts: seq<Part>) returns (result: PartsResult)
    requires |data0| >= 1
    ensures result == TextParts(data0, parts, true)
  {
    var data := data0;
    var k := 0;
    var n := 0;
    while n < |parts|
      invariant 0 <= n <= |parts| && |data| >= 1
      invariant k == 0 || k == 1
      invariant TextParts(data, parts[n..], k == 0) == TextParts(data0, parts, true)
    {
      var part := parts[n];
      assert parts[n..][1..] == parts[n + 1..];
      match part.stream {
        case NoStream =>
        case Unreadable =>
          return PartsResult(data, ReadFailed);
        case Bytes(b) =>
          var content := ByteChars(b);
          if k == 0 {
            data := data[k := data[k][ContentKey := DText(content)]];
            k := k + 1;
          } else {
            var d := map[ContentTypeKey := TypeValue(part.contentType), ContentKey := DText(content)];
            data := data + [d];
          }
      }
      n := n + 1;
    }
    result := PartsResult(data, AllRead);
  }

  /** The readable parts, in order. */
  function StreamParts(parts: seq<Part>): (r: seq<Part>)
    ensures forall i :: 0 <= i < |r| ==> r[i].stream.Bytes?
    decreases |parts|
  {
    if parts == [] then []
    else if parts[0].stream.Bytes? then [parts[0]] + StreamParts(parts[1..])
    else StreamParts(parts[1..])
  }

  predicate NoUnreadable(parts: seq<Part>) {
    forall i :: 0 <= i < |parts| ==> !parts[i].stream.Unreadable?
  }

  function TextMaps(ps: seq<Part>): seq<DataMap> {
    seq(|ps|, i requires 0 <= i < |ps| => TextMap(ps[i]))
  }

  lemma {:induction false} TextPartsAppendAll(data: seq<DataMap>, parts: seq<Part>)
    requires |data| >= 1 && NoUnreadable(parts)
    ensures TextParts(data, parts, false) == PartsResult(data + TextMaps(StreamParts(parts)), AllRead)
    decreases |parts|
  {
    if parts != [] {
      var rest := parts[1..];
      assert NoUnreadable(rest) by {
        forall i | 0 <= i < |rest| ensures !rest[i].stream.Unreadable? { assert rest[i] == parts[i + 1]; }
      }
      TextPartsAppendAll(data + [TextMap(parts[0])], rest);
      TextPartsAppendAll(data, rest);
      if parts[0].stream.Bytes? {
        assert TextMaps([parts[0]] + StreamParts(rest)) == [TextMap(parts[0])] + TextMaps(StreamParts(rest));
      }
    }
  }

  /** With no read error: the first readable part's content lands in data[0], every later
      readable part is appended as its own map, in order; nothing else changes. */
  lemma {:induction false} TextPartsPlacement(data: seq<DataMap>, parts: seq<Part>)
    requires |data| >= 1 && NoUnreadable(parts)
    ensures var sp := StreamParts(parts);
      TextParts(data, parts, true) == PartsResult(
        if sp == [] then data
        else [data[0][ContentKey := DText(ByteChars(sp[0].stream.bytes))]] + data[1..] + TextMaps(sp[1..]),
        AllRead)
    decreases |parts|
  {
    if parts != [] {
      var rest := parts[1..];
      assert NoUnreadable(rest) by {
        forall i | 0 <= i < |rest| ensures !rest[i].stream.Unreadable? { assert rest[i] == parts[i + 1]; }
      }
      if parts[0].stream.Bytes? {
        var d := data[0 := data[0][ContentKey := DText(ByteChars(parts[0].stream.bytes))]];
        TextPartsAppendAll(d, rest);
        assert d == [data[0][ContentKey := DText(ByteChars(parts[0].stream.bytes))]] + data[1..];
      } else {
        TextPartsPlacement(data, rest);
      }
    }
  }
}
