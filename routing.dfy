/** ClearnetServerSensor's handler registry and its reply routing.

    registerHandler stores a handler under the current Byte counter and returns the counter
    after the increment, so the id a handler stamps into its envelopes is one more than the key
    it is stored under. reply reads the Byte back from the HANDLER_ID header and only checks that
    something is registered under it. */
module Routing {
  import opened Wrappers
  import opened Envelopes

  /** A Java Byte. */
  predicate IsByte(b: int) {
    -128 <= b <= 127
  }

  /** `b++` on a Byte: 127 wraps around to -128. */
  function ByteInc(b: int): (r: int)
    requires IsByte(b)
    ensures IsByte(r)
  {
    if b == 127 then -128 else b + 1
  }

  /** The counter and the map, over any kind of handler. */
  datatype Registry<H> = Registry(next: int, handlers: map<int, H>)

  function EmptyRegistry<H>(): Registry<H> {
    Registry(0, map[])
  }

  /** registerHandler's new state: the handler under the old counter, the counter incremented. */
  function Register<H>(r: Registry<H>, h: H): (r': Registry<H>)
    requires IsByte(r.next)
    ensures IsByte(r'.next)
  {
    Registry(ByteInc(r.next), r.handlers[r.next := h])
  }

  /** registerHandler's result: the counter after the increment. */
  function GivenId<H>(r: Registry<H>): int
    requires IsByte(r.next)
  {
    ByteInc(r.next)
  }

  function RegisterAll<H>(r: Registry<H>, hs: seq<H>): (r': Registry<H>)
    requires IsByte(r.next)
    ensures IsByte(r'.next)
    decreases |hs|
  {
    if hs == [] then r else RegisterAll(Register(r, hs[0]), hs[1..])
  }

  /** The off-by-one: a handler is stored under the old counter but given the new one, which is
      where the next handler will be stored. */
  lemma RegistrationOffByOne<H>(r: Registry<H>, h1: H, h2: H)
    requires IsByte(r.next)
    ensures r.next in Register(r, h1).handlers && Register(r, h1).handlers[r.next] == h1
    ensures GivenId(r) != r.next
    ensures var r2 := Register(Register(r, h1), h2);
      GivenId(r) in r2.handlers && r2.handlers[GivenId(r)] == h2
  {
  }

  /** Registering n handlers from the start (n at most 127) stores the k-th under k and leaves
      the counter at n. */
  lemma {:induction false} RegisterAllFrom<H>(r: Registry<H>, hs: seq<H>)
    requires 0 <= r.next && r.next + |hs| <= 127
    ensures RegisterAll(r, hs).next == r.next + |hs|
    ensures forall k :: k in RegisterAll(r, hs).handlers <==> (k in r.handlers || r.next <= k < r.next + |hs|)
    ensures forall k :: r.next <= k < r.next + |hs| ==> RegisterAll(r, hs).handlers[k] == hs[k - r.next]
    ensures forall k :: k in r.handlers && !(r.next <= k < r.next + |hs|) ==> RegisterAll(r, hs).handlers[k] == r.handlers[k]
    decreases |hs|
  {
    if hs != [] {
      var r1 := Register(r, hs[0]);
      RegisterAllFrom(r1, hs[1..]);
      forall k | r1.next <= k < r1.next + |hs[1..]|
        ensures RegisterAll(r, hs).handlers[k] == hs[k - r.next]
      {
        assert hs[1..][k - r1.next] == hs[k - r.next];
      }
    }
  }

  /** The k-th handler registered from the start is given id k + 1: looking that id up finds the
      handler registered after it, or nothing when it was the last one. */
  lemma OwnIdLookup<H>(hs: seq<H>, k: int)
    requires 0 <= k < |hs| <= 127
    ensures GivenId(RegisterAll(EmptyRegistry(), hs[..k])) == k + 1
    ensures var r := RegisterAll(EmptyRegistry<H>(), hs);
      (k + 1 < |hs| ==> k + 1 in r.handlers && r.handlers[k + 1] == hs[k + 1])
      && (k + 1 == |hs| ==> k + 1 !in r.handlers)
  {
    RegisterAllFrom(EmptyRegistry<H>(), hs[..k]);
    RegisterAllFrom(EmptyRegistry<H>(), hs);
  }

  /** After 128 registrations the counter has wrapped, and the next id handed out is negative. */
  lemma CounterWraps<H>(hs: seq<H>, h: H)
    requires |hs| == 127
    ensures RegisterAll(EmptyRegistry<H>(), hs).next == 127
    ensures GivenId(RegisterAll(EmptyRegistry<H>(), hs)) == -128
    ensures Register(RegisterAll(EmptyRegistry<H>(), hs), h).next == -128
  {
    RegisterAllFrom(EmptyRegistry<H>(), hs);
  }

  // ---------------------------------------------------------------------------
  // reply

  datatype Verdict =
    | Accepted     // a handler is registered under the id: true
    | NoHandlerId  // no id in the header: suspend, false
    | Unregistered // nothing under the id: suspend, false

  /** reply's decision on the HANDLER_ID header. A String there (a client header folded under
      the same name) fails the cast to Byte. */
  function ReplyVerdict<H>(headers: map<string, HeaderValue>, handlers: map<int, H>): (r: Outcome<Verdict>)
    ensures r == Returned(Accepted) <==>
      HANDLER_ID in headers && headers[HANDLER_ID].HByte? && headers[HANDLER_ID].b in handlers
    ensures r == Returned(NoHandlerId) <==> HANDLER_ID !in headers || headers[HANDLER_ID].HNull?
    ensures r == Returned(Unregistered) <==>
      HANDLER_ID in headers && headers[HANDLER_ID].HByte? && headers[HANDLER_ID].b !in handlers
    ensures r.Threw? <==> HANDLER_ID in headers && headers[HANDLER_ID].HStr?
    ensures r.Threw? ==> r.fault == ClassCast
  {
    if HANDLER_ID !in headers || headers[HANDLER_ID].HNull? then Returned(NoHandlerId)
    else if headers[HANDLER_ID].HStr? then Threw(ClassCast)
    else if headers[HANDLER_ID].b in handlers then Returned(Accepted)
    else Returned(Unregistered)
  }

  /** reply's result: true exactly when accepted. The handler itself is never invoked. */
  function ReplyResult(v: Outcome<Verdict>): (r: Outcome<bool>)
    ensures v.Threw? <==> r.Threw?
    ensures r == Returned(true) <==> v == Returned(Accepted)
  {
    match v
    case Threw(f) => Threw(f)
    case Returned(verdict) => Returned(verdict == Accepted)
  }

  /** Whether reply hands the envelope to sensorManager.suspend. */
  predicate Suspends(v: Outcome<Verdict>) {
    v == Returned(NoHandlerId) || v == Returned(Unregistered)
  }

  /** send's result: true, whether the envelope went to the bus or (in test mode) to reply; only a
      failing cast inside reply escapes. */
  function SendResult<H>(isTest: bool, headers: map<string, HeaderValue>, handlers: map<int, H>): (r: Outcome<bool>)
    ensures r.Returned? ==> r.value
    ensures !isTest ==> r == Returned(true)
    ensures r.Threw? ==> isTest && ReplyVerdict(headers, handlers).Threw?
  {
    if isTest && ReplyVerdict(headers, handlers).Threw? then Threw(ClassCast) else Returned(true)
  }

  /** An envelope stamped by the k-th of the registered handlers is accepted exactly when some
      handler was registered after it: the last one's replies are all suspended. */
  lemma StampedReplyVerdict<H>(hs: seq<H>, k: int, headers: map<string, HeaderValue>)
    requires 0 <= k < |hs| <= 127
    requires HANDLER_ID in headers && headers[HANDLER_ID] == HByte(GivenId(RegisterAll(EmptyRegistry(), hs[..k])))
    ensures ReplyVerdict(headers, RegisterAll(EmptyRegistry(), hs).handlers) == Returned(Accepted) <==> k + 1 < |hs|
  {
    OwnIdLookup(hs, k);
  }
}
