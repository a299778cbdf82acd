/** The `requests` table each data handler keeps: envelope id to the ClientHold of the HTTP
    exchange waiting for its reply. `handle` puts the entry before routing, `reply` writes to the
    held response and interrupts the holder, and only the holder removes its entry, and only when
    it was interrupted. Threads are not modelled: the sleeping and waking become explicit events
    on a sequential table. */
module Correlation {
  import opened Wrappers
  import opened Envelopes

  /** The servlet response as a handler leaves it. */
  datatype Response = Response(status: Option<int>, contentType: Option<string>, body: string, handled: bool)

  const Untouched: Response := Response(None, None, "", false)

  /** What `handle` leaves in the response when routing reported errors. */
  const Rejected: Response := Response(Some(500), None, "", true)

  /** Where the thread of a held exchange is. */
  datatype Phase =
    | Unheld   // entry put, but routing threw before hold() was reached: no thread recorded
    | Asleep   // inside Thread.sleep
    | Waking   // interrupted, about to leave sleep and remove its own entry
    | Lapsed   // the sleep ran out: the thread returned and the entry stays behind

  datatype Hold = Hold(target: Option<string>, envelope: Envelope, response: Response, phase: Phase, waitMillis: nat)

  type Table = map<int, Hold>

  /** What a handler's reply writes into the held response. */
  datatype ReplyWrite = ReplyWrite(contentType: Option<string>, body: string, status: Option<int>, setsHandled: bool)

  /** What wake() (thread.interrupt()) meets. */
  datatype Wake =
    | HolderWoken     // the sleeping holder, which then removes its entry
    | NullThread      // no thread recorded: NullPointerException
    | StrayInterrupt  // a thread that has long since returned to the server's pool

  /** How a request ended, as `handle` leaves it. */
  datatype Handling =
    | Answered(page: Response)    // a status page, without an envelope
    | Failed(response: Response)  // routing reported errors
    | Holding(id: int)            // asleep, waiting for the reply

  datatype Event =
    | Dispatch(target: Option<string>, envelope: Envelope, threw: bool, waitMillis: nat)
    | Reply(id: int, write: ReplyWrite)
    | HoldEnds(id: int)

  /** `handle` from the put to the hold: the entry is put under the envelope id first; if routing
      threw it stays without a holder; with errors it is removed again; otherwise its holder sleeps. */
  function Dispatched(t: Table, target: Option<string>, e: Envelope, threw: bool, wait: nat): (r: Table)
    ensures threw ==> e.id in r && r[e.id] == Hold(target, e, Untouched, Unheld, wait)
    ensures !threw && |e.errors| > 0 ==> r == t - {e.id}
    ensures !threw && |e.errors| == 0 ==> e.id in r && r[e.id] == Hold(target, e, Untouched, Asleep, wait)
    ensures forall k :: k != e.id ==> (k in r <==> k in t) && (k in t ==> r[k] == t[k])
  {
    var t1 := t[e.id := Hold(target, e, Untouched, Unheld, wait)];
    if threw then t1
    else if |e.errors| > 0 then t1 - {e.id}
    else t1[e.id := t1[e.id].(phase := Asleep)]
  }

  /** The response after a write: status and content type replaced when given, body appended. */
  function Write(r: Response, w: ReplyWrite): Response {
    Response(
      if w.status.Some? then w.status else r.status,
      if w.contentType.Some? then w.contentType else r.contentType,
      r.body + w.body,
      r.handled || w.setsHandled)
  }

  function WakeOf(p: Phase): Wake {
    match p
    case Unheld => NullThread
    case Lapsed => StrayInterrupt
    case _ => HolderWoken
  }

  /** A reply for a pending id: the held response is written and the holder interrupted. */
  function Delivered(t: Table, id: int, w: ReplyWrite): (r: Table)
    requires id in t
    ensures r.Keys == t.Keys
    ensures r[id].response == Write(t[id].response, w)
    ensures r[id].phase == (if t[id].phase == Asleep then Waking else t[id].phase)
    ensures forall k :: k in t && k != id ==> r[k] == t[k]
  {
    var h := t[id];
    t[id := h.(response := Write(h.response, w), phase := if h.phase == Asleep then Waking else h.phase)]
  }

  predicate Sleeping(t: Table, id: int) {
    id in t && (t[id].phase == Asleep || t[id].phase == Waking)
  }

  /** The holder's sleep ends: an interrupted holder removes its entry, one that ran out leaves it. */
  function Ended(t: Table, id: int): (r: Table)
    requires Sleeping(t, id)
    ensures t[id].phase == Waking ==> r == t - {id}
    ensures t[id].phase == Asleep ==> id in r && r[id] == t[id].(phase := Lapsed)
    ensures forall k :: k != id ==> (k in r <==> k in t) && (k in t ==> r[k] == t[k])
  {
    if t[id].phase == Waking then t - {id} else t[id := t[id].(phase := Lapsed)]
  }

  /** One event: only a dispatch adds a key (its envelope's id), and a reply keeps the keys. */
  function Step(t: Table, ev: Event): (r: Table)
    ensures forall k :: k in r && k !in t ==> ev.Dispatch? && k == ev.envelope.id
    ensures ev.Reply? ==> r.Keys == t.Keys
    ensures ev.HoldEnds? ==> r.Keys <= t.Keys
    ensures forall k :: k in t && k !in r ==>
      (ev.HoldEnds? && ev.id == k && t[k].phase == Waking) || (ev.Dispatch? && ev.envelope.id == k)
  {
    match ev
    case Dispatch(target, e, threw, wait) => Dispatched(t, target, e, threw, wait)
    case Reply(id, w) => if id in t then Delivered(t, id, w) else t
    case HoldEnds(id) => if Sleeping(t, id) then Ended(t, id) else t
  }

  /** Events in order; every key the run adds is the envelope id of one of its dispatches. */
  function Run(t: Table, evs: seq<Event>): (r: Table)
    ensures forall k :: k in r && k !in t ==> exists i :: 0 <= i < |evs| && evs[i].Dispatch? && evs[i].envelope.id == k
    ensures (forall i :: 0 <= i < |evs| ==> !evs[i].Dispatch?) ==> r.Keys <= t.Keys
    decreases |evs|
  {
    if evs == [] then t
    else
      assert forall i :: 0 <= i < |evs| - 1 ==> evs[1..][i] == evs[i + 1];
      Run(Step(t, evs[0]), evs[1..])
  }

  /** Every entry sits under its own envelope's id. */
  ghost predicate Keyed(t: Table) {
    forall k :: k in t ==> t[k].envelope.id == k
  }

  lemma StepKeepsKeyed(t: Table, ev: Event)
    requires Keyed(t)
    ensures Keyed(Step(t, ev))
  {
  }

  /** An entry leaves the table in exactly two ways: its woken holder removes it, or `handle`
      removes it after routing reported errors. A reply never removes anything. */
  lemma RemovedOnlyByWokenHolder(t: Table, ev: Event, k: int)
    requires k in t && k !in Step(t, ev)
    ensures (ev.HoldEnds? && ev.id == k && t[k].phase == Waking)
         || (ev.Dispatch? && ev.envelope.id == k && !ev.threw && |ev.envelope.errors| > 0)
  {
    match ev
    case Dispatch(target, e, threw, wait) =>
    case Reply(id, w) =>
    case HoldEnds(id) =>
  }

  /** A hold that ran out leaks: whatever replies and hold endings follow, its entry stays, as
      long as no new request reuses its id. */
  lemma {:induction false} LapsedEntryStays(t: Table, evs: seq<Event>, k: int)
    requires k in t && t[k].phase == Lapsed
    requires forall i :: 0 <= i < |evs| && evs[i].Dispatch? ==> evs[i].envelope.id != k
    ensures k in Run(t, evs) && Run(t, evs)[k].phase == Lapsed
    decreases |evs|
  {
    if evs != [] {
      var t1 := Step(t, evs[0]);
      assert k in t1 && t1[k].phase == Lapsed by {
        match evs[0]
        case Dispatch(target, e, threw, wait) =>
        case Reply(id, w) =>
        case HoldEnds(id) =>
      }
      forall i | 0 <= i < |evs[1..]| && evs[1..][i].Dispatch?
        ensures evs[1..][i].envelope.id != k
      {
        assert evs[1..][i] == evs[i + 1];
      }
      LapsedEntryStays(t1, evs[1..], k);
    }
  }

  /** The intended path: a reply reaches the sleeping holder, which wakes and removes its entry;
      the response it returns holds what the reply wrote. */
  lemma ReplyThenWake(t: Table, k: int, w: ReplyWrite)
    requires k in t && t[k].phase == Asleep
    ensures Run(t, [Reply(k, w), HoldEnds(k)]) == t - {k}
    ensures Step(t, Reply(k, w))[k].response == Write(t[k].response, w)
  {
    var t1 := Step(t, Reply(k, w));
    assert t1 == Delivered(t, k, w);
    assert Sleeping(t1, k) && t1[k].phase == Waking;
    var evs := [Reply(k, w), HoldEnds(k)];
    assert evs[1..] == [HoldEnds(k)] && evs[1..][1..] == [];
    assert Run(t, evs) == Run(t1, [HoldEnds(k)]) == Ended(t1, k);
  }

  /** The leak: the hold runs out first, then the late reply still writes into the returned
      response and interrupts a thread that is no longer the holder; the entry remains. */
  lemma ExpiryThenLateReply(t: Table, k: int, w: ReplyWrite)
    requires k in t && t[k].phase == Asleep
    ensures var r := Run(t, [HoldEnds(k), Reply(k, w)]);
      k in r && r[k].phase == Lapsed && r[k].response == Write(t[k].response, w)
    ensures WakeOf(Step(t, HoldEnds(k))[k].phase) == StrayInterrupt
  {
    var t1 := Step(t, HoldEnds(k));
    assert t1 == Ended(t, k);
    var t2 := Step(t1, Reply(k, w));
    assert t2 == Delivered(t1, k, w);
    var evs := [HoldEnds(k), Reply(k, w)];
    assert evs[1..] == [Reply(k, w)] && evs[1..][1..] == [];
    assert Run(t, evs) == Run(t1, [Reply(k, w)]) == t2;
  }

  /** How a handler's reply ends when it did not throw. */
  datatype ReplyEnd =
    | NoHold          // nothing pending under the id: logged and ignored
    | Woke(wake: Wake)

  datatype ReplyEffect = ReplyEffect(table: Table, result: Outcome<ReplyEnd>)

  /** A handler's `reply` for envelope id `id`. `write` is what it prepares for the response, or the
      exception preparing it throws; `checksHold` says whether a missing entry is checked for
      (otherwise it is dereferenced, a NullPointerException). The write lands before the wake, so
      even a reply that then throws on a null thread has written the response. */
  function Replied(t: Table, id: int, write: Outcome<ReplyWrite>, checksHold: bool): (r: ReplyEffect)
    ensures r.table.Keys == t.Keys
    ensures id !in t ==> r.table == t && r.result == (if checksHold then Returned(NoHold) else Threw(NullPointer))
    ensures id in t && write.Threw? ==> r.table == t && r.result == Threw(write.fault)
    ensures id in t && write.Returned? ==>
      r.table == Delivered(t, id, write.value)
      && (r.result.Threw? <==> t[id].phase == Unheld)
      && (r.result.Returned? ==> r.result == Returned(Woke(WakeOf(t[id].phase))))
  {
    if id !in t then ReplyEffect(t, if checksHold then Returned(NoHold) else Threw(NullPointer))
    else if write.Threw? then ReplyEffect(t, Threw(write.fault))
    else
      var wake := WakeOf(t[id].phase);
      ReplyEffect(Delivered(t, id, write.value), if wake == NullThread then Threw(NullPointer) else Returned(Woke(wake)))
  }

  /** A reply that prepares its write changes the table exactly as the Reply event does. */
  lemma RepliedIsReplyEvent(t: Table, id: int, w: ReplyWrite, checksHold: bool)
    ensures Replied(t, id, Returned(w), checksHold).table == Step(t, Reply(id, w))
  {
  }

  /** The page a data handler answers its status target with; a null service name prints as "null". */
  function StatusPage(serviceName: Option<string>): (r: Response)
    ensures r.status == Some(200) && r.contentType == Some("text/html") && r.handled
    ensures r.body == "<html><body>" + (if serviceName.Some? then serviceName.value else "null") + " Available</body></html>"
  {
    Response(Some(200), Some("text/html"),
      "<html><body>" + (if serviceName.Some? then serviceName.value else "null") + " Available</body></html>", true)
  }

  /** `handle` after routing, given the sensor's outcome (`routed`) and the errors the bus attached
      to the envelope while routing; `e` is the envelope as handed to the sensor. */
  datatype HandleEffect = HandleEffect(table: Table, result: Outcome<Handling>)

  function AfterRouting(t: Table, target: Option<string>, e: Envelope, routed: Outcome<bool>, busErrors: seq<string>, wait: nat): (r: HandleEffect)
    ensures routed.Threw? ==> r.result == Threw(routed.fault) && e.id in r.table && r.table[e.id].phase == Unheld
    ensures r.table == Dispatched(t, target, if routed.Threw? then e else e.(errors := e.errors + busErrors), routed.Threw?, wait)
    ensures routed.Returned? ==> (r.result == Returned(Failed(Rejected)) <==> |e.errors + busErrors| > 0)
    ensures routed.Returned? ==> (r.result == Returned(Holding(e.id)) <==> (e.id in r.table && r.table[e.id].phase == Asleep))
  {
    if routed.Threw? then HandleEffect(Dispatched(t, target, e, true, wait), Threw(routed.fault))
    else
      var e1 := e.(errors := e.errors + busErrors);
      HandleEffect(
        Dispatched(t, target, e1, false, wait),
        if |e1.errors| > 0 then Returned(Failed(Rejected)) else Returned(Holding(e.id)))
  }

  /** The hold `handle` puts before routing is overwritten by what routing leaves. */
  lemma AfterRoutingIgnoresPut(t: Table, h: Hold, target: Option<string>, e: Envelope, routed: Outcome<bool>, busErrors: seq<string>, wait: nat)
    ensures AfterRouting(t[e.id := h], target, e, routed, busErrors, wait) == AfterRouting(t, target, e, routed, busErrors, wait)
  {
  }
}
