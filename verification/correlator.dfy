/**
 * Request correlation of the Lightroom client (src/lightroom/LrClient.js):
 * the table of pending request ids, how an inbound frame or a timer settles
 * an entry, and the envelope format. The client class keeps its fields equal
 * to these functions of its previous fields.
 */
module Correlator {
  import opened Wrappers
  import opened Json

  type RequestId = string

  /** The outbound request `{requestId, object, message, params}`. */
  datatype Envelope = Envelope(requestId: RequestId, object: Value, message: string, params: seq<Value>)

  /** How a request's promise settled; a rejection carries what `new Error(...)` was given. */
  datatype Settlement = Resolved(response: Value) | Rejected(error: Value)

  const TimeoutError: Value := Str("Request timeout")
  const RequestFailed: Value := Str("Request failed")

  /**
   * An inbound frame after JSON.parse: Malformed when parsing fails (or the
   * frame is `null`, whose field access throws); otherwise the fields read
   * from it, `Undefined` where absent.
   */
  datatype Inbound =
    | Malformed
    | Frame(requestId: Value, success: Value, response: Value, error: Value, observerId: Value, data: Value)

  /**
   * The ids whose promises are still open (`pendingRequests`) and the
   * outcome of every id that was removed from it.
   */
  datatype Table = Table(pending: set<RequestId>, settled: map<RequestId, Settlement>) {
    /** No id is both open and settled. */
    ghost predicate Valid() {
      pending !! settled.Keys
    }

    /** Every id ever issued. */
    function Known(): set<RequestId> {
      pending + settled.Keys
    }
  }

  /** sendMessage records a fresh id before sending. */
  function Issue(t: Table, id: RequestId): (r: Table)
    requires id !in t.Known()
    ensures r.Valid() <==> t.Valid()
    ensures r.Known() == t.Known() + {id} && id in r.pending && r.settled == t.settled
  {
    t.(pending := t.pending + {id})
  }

  /** Removes `id` and records its outcome, only if it is still pending. */
  function Settle(t: Table, id: RequestId, s: Settlement): (r: Table)
    ensures t.Valid() ==> r.Valid()
    ensures r.Known() == t.Known()
    ensures id in t.pending ==> r.pending == t.pending - {id} && r.settled == t.settled[id := s]
    ensures id !in t.pending ==> r == t
  {
    if id in t.pending then Table(t.pending - {id}, t.settled[id := s]) else t
  }

  /** The request a frame answers: a truthy `requestId` that is a string. */
  function ResponseTarget(f: Inbound): (r: Option<RequestId>)
    ensures r.Some? <==> f.Frame? && f.requestId.Str? && f.requestId.s != ""
    ensures r.Some? ==> r.value == f.requestId.s
  {
    if f.Frame? && Truthy(f.requestId) && f.requestId.Str? then Some(f.requestId.s) else None
  }

  /** `success` resolves with `response`; otherwise rejects with `error || 'Request failed'`. */
  function SettlementOf(f: Inbound): (s: Settlement)
    requires f.Frame?
    ensures s.Rejected? ==> Truthy(s.error)
    ensures s.Resolved? <==> Truthy(f.success)
    ensures s.Resolved? ==> s.response == f.response
    ensures s.Rejected? && Truthy(f.error) ==> s.error == f.error
    ensures s.Rejected? && !Truthy(f.error) ==> s.error == RequestFailed
  {
    if Truthy(f.success) then Resolved(f.response)
    else Rejected(if Truthy(f.error) then f.error else RequestFailed)
  }

  /** The observer a frame is pushed to: a truthy `observerId` that is a string. */
  function ObserverTarget(f: Inbound): (r: Option<string>)
    ensures r.Some? <==> f.Frame? && f.observerId.Str? && f.observerId.s != ""
    ensures r.Some? ==> r.value == f.observerId.s
  {
    if f.Frame? && Truthy(f.observerId) && f.observerId.Str? then Some(f.observerId.s) else None
  }

  /** The effect of an inbound frame on the table. */
  function Receive(t: Table, f: Inbound): (r: Table)
    ensures t.Valid() ==> r.Valid()
    ensures r.Known() == t.Known()
    ensures ResponseTarget(f).None? || ResponseTarget(f).value !in t.pending ==> r == t
    ensures ResponseTarget(f).Some? && ResponseTarget(f).value in t.pending ==>
              r.pending == t.pending - {ResponseTarget(f).value}
              && r.settled == t.settled[ResponseTarget(f).value := SettlementOf(f)]
  {
    match ResponseTarget(f)
    case None => t
    case Some(id) => Settle(t, id, SettlementOf(f))
  }

  /** The 10-second timer of a request. */
  function Expire(t: Table, id: RequestId): (r: Table)
    ensures t.Valid() ==> r.Valid()
    ensures r.Known() == t.Known()
    ensures id in t.pending ==> r.pending == t.pending - {id} && r.settled == t.settled[id := Rejected(TimeoutError)]
    ensures id !in t.pending ==> r == t
  {
    Settle(t, id, Rejected(TimeoutError))
  }

  /** A response arriving after its request timed out changes nothing. */
  lemma LateResponseIgnored(t: Table, f: Inbound)
    requires ResponseTarget(f).Some?
    ensures var id := ResponseTarget(f).value;
            Receive(Expire(t, id), f) == Expire(t, id)
  {
  }

  /** A timer firing after the response arrived changes nothing. */
  lemma LateTimeoutIgnored(t: Table, f: Inbound)
    requires ResponseTarget(f).Some?
    ensures var id := ResponseTarget(f).value;
            Expire(Receive(t, f), id) == Receive(t, f)
  {
  }

  /** One step of the correlator: a send, an inbound frame, or a timer. */
  datatype Event = Send(id: RequestId) | Deliver(frame: Inbound) | Timer(id: RequestId)

  function Step(t: Table, e: Event): Table
    requires e.Send? ==> e.id !in t.Known()
  {
    match e
    case Send(id) => Issue(t, id)
    case Deliver(f) => Receive(t, f)
    case Timer(id) => Expire(t, id)
  }

  /** Every send in `events` uses an id never issued before (uuid v4). */
  ghost predicate FreshSends(t: Table, events: seq<Event>)
    decreases |events|
  {
    events == [] ||
    ((events[0].Send? ==> events[0].id !in t.Known()) && FreshSends(Step(t, events[0]), events[1..]))
  }

  function Run(t: Table, events: seq<Event>): Table
    requires FreshSends(t, events)
    decreases |events|
  {
    if events == [] then t else Run(Step(t, events[0]), events[1..])
  }

  /** The ids issued by the sends of a sequence of events. */
  function SentIds(events: seq<Event>): set<RequestId>
    decreases |events|
  {
    if events == [] then {} else (if events[0].Send? then {events[0].id} else {}) + SentIds(events[1..])
  }

  /**
   * Over any sequence of events, every issued id is pending or settled and
   * never both, and an outcome once recorded never changes: each request is
   * removed and settled at most once, by its response or by its timer.
   */
  lemma {:induction false} SettlesAtMostOnce(t: Table, events: seq<Event>)
    requires t.Valid() && FreshSends(t, events)
    ensures Run(t, events).Valid()
    ensures Run(t, events).Known() == t.Known() + SentIds(events)
    ensures forall id :: id in t.settled ==> id in Run(t, events).settled && Run(t, events).settled[id] == t.settled[id]
    decreases |events|
  {
    if events != [] {
      var t' := Step(t, events[0]);
      SettlesAtMostOnce(t', events[1..]);
    }
  }

  /** A request whose response never arrives is settled by its timer with the timeout error. */
  lemma UnansweredRequestTimesOut(t: Table, id: RequestId)
    requires t.Valid() && id !in t.Known()
    ensures var r := Expire(Issue(t, id), id);
            r.Valid() && id !in r.pending && r.settled[id] == Rejected(TimeoutError)
            && r.pending == t.pending
  {
  }
}
