/**
 * The Lightroom client object (src/lightroom/LrClient.js): connection flag,
 * pending-request table, observers and the stored client GUID, updated in
 * place by the socket's events. The socket, uuid generator, timers and the
 * identity file are replaced by explicit steps and parameters.
 */
module Client {
  import opened Wrappers
  import opened Json
  import opened LrApi
  import opened Correlator

  const DefaultAppName := "LR MIDI Controller"
  const DefaultAppVersion := "0.1.0"
  const NotConnectedMessage := "Not connected to Lightroom"

  /** Why a call did not reach the socket. */
  datatype SendError =
    | NotConnected       // sendMessage throws 'Not connected to Lightroom'
    | InvalidArgument    // the wrapper throws a TypeError before sending

  /** `options.x || default`. */
  function OrDefault(option: Option<string>, default: string): (r: string)
    ensures option.Some? && option.value != "" ==> r == option.value
    ensures option.None? || option.value == "" ==> r == default
  {
    if option.Some? && option.value != "" then option.value else default
  }

  /** The request ids of a sequence of envelopes. */
  ghost function EnvelopeIds(sent: seq<Envelope>): set<RequestId> {
    set e | e in sent :: e.requestId
  }

  class LrClient {
    const appName: string
    const appVersion: string

    var hasSocket: bool          // `this.ws` has been set by connect()
    var connected: bool
    var pendingRequests: set<RequestId>
    var settled: map<RequestId, Settlement>   // outcome of each request's promise
    var observers: set<string>
    var clientGUID: Option<string>

    ghost var identityStore: Option<string>   // the persisted client-id file
    ghost var sent: seq<Envelope>              // every frame written to the socket
    ghost var notifications: seq<(string, Value)>  // observer callbacks invoked
    ghost var connectionChanges: seq<bool>     // onConnectionChange arguments
    ghost var reconnectsScheduled: nat         // 5-second reconnect timers not yet fired

    function Table(): Correlator.Table
      reads this
    {
      Correlator.Table(pendingRequests, settled)
    }

    /**
     * The table is consistent, and the requests written to the socket are
     * exactly the issued ids, each once.
     */
    ghost predicate Valid()
      reads this
    {
      && Table().Valid()
      && Table().Known() == EnvelopeIds(sent)
      && (forall i, j :: 0 <= i < j < |sent| ==> sent[i].requestId != sent[j].requestId)
    }

    /** The stored GUID is whatever the identity file held when the client was created. */
    constructor (appNameOption: Option<string>, appVersionOption: Option<string>, storedGUID: Option<string>)
      ensures Valid()
      ensures appName == OrDefault(appNameOption, DefaultAppName)
      ensures appVersion == OrDefault(appVersionOption, DefaultAppVersion)
      ensures !hasSocket && !connected && pendingRequests == {} && settled == map[] && observers == {}
      ensures clientGUID == storedGUID && identityStore == storedGUID
      ensures sent == [] && notifications == [] && connectionChanges == [] && reconnectsScheduled == 0
    {
      appName := OrDefault(appNameOption, DefaultAppName);
      appVersion := OrDefault(appVersionOption, DefaultAppVersion);
      hasSocket := false;
      connected := false;
      pendingRequests := {};
      settled := map[];
      observers := {};
      clientGUID := storedGUID;
      identityStore := storedGUID;
      sent := [];
      notifications := [];
      connectionChanges := [];
      reconnectsScheduled := 0;
    }

    /**
     * sendMessage(message, params, null): throws when not connected, else
     * records the fresh id as pending and writes the envelope.
     */
    method SendMessage(message: string, params: seq<Value>, id: RequestId) returns (r: Result<RequestId, SendError>)
      requires Valid() && id !in Table().Known()
      modifies this
      ensures Valid()
      ensures !old(connected) ==> r == Failure(NotConnected) && unchanged(this)
      ensures old(connected) ==>
                && r == Success(id)
                && Table() == Issue(old(Table()), id)
                && sent == old(sent) + [Envelope(id, Null, message, params)]
      ensures connected == old(connected) && hasSocket == old(hasSocket) && observers == old(observers)
      ensures clientGUID == old(clientGUID) && identityStore == old(identityStore)
      ensures notifications == old(notifications) && connectionChanges == old(connectionChanges)
      ensures reconnectsScheduled == old(reconnectsScheduled)
    {
      if !connected {
        return Failure(NotConnected);
      }
      pendingRequests := pendingRequests + {id};
      assert EnvelopeIds(sent + [Envelope(id, Null, message, params)]) == EnvelopeIds(sent) + {id};
      sent := sent + [Envelope(id, Null, message, params)];
      r := Success(id);
    }

    /** An API wrapper: builds the message and params, then sends them. */
    method Invoke(call: ApiCall, id: RequestId) returns (r: Result<RequestId, SendError>)
      requires Valid() && id !in Table().Known() && IsApiMethod(call.name)
      modifies this
      ensures Valid()
      ensures Request(call).None? ==> r == Failure(InvalidArgument) && unchanged(this)
      ensures Request(call).Some? && !old(connected) ==> r == Failure(NotConnected) && unchanged(this)
      ensures Request(call).Some? && old(connected) ==>
                && r == Success(id)
                && Table() == Issue(old(Table()), id)
                && sent == old(sent) + [Envelope(id, Null, Request(call).value.message, Request(call).value.params)]
      ensures connected == old(connected) && hasSocket == old(hasSocket) && observers == old(observers)
      ensures clientGUID == old(clientGUID) && identityStore == old(identityStore)
      ensures notifications == old(notifications) && connectionChanges == old(connectionChanges)
      ensures reconnectsScheduled == old(reconnectsScheduled)
    {
      var out := Request(call);
      if out.None? {
        return Failure(InvalidArgument);
      }
      r := SendMessage(out.value.message, out.value.params, id);
    }

    /**
     * handleMessage: a response to a pending id settles it; an observer push
     * reaches its callback, which stays registered; anything else, including
     * a malformed frame, is dropped.
     */
    method HandleMessage(frame: Inbound)
      requires Valid()
      modifies this
      ensures Valid()
      ensures Table() == Receive(old(Table()), frame)
      ensures sent == old(sent) && observers == old(observers)
      ensures notifications == old(notifications) +
                (if ObserverTarget(frame).Some? && ObserverTarget(frame).value in old(observers)
                 then [(ObserverTarget(frame).value, frame.data)] else [])
      ensures connected == old(connected) && hasSocket == old(hasSocket) && clientGUID == old(clientGUID)
      ensures identityStore == old(identityStore) && connectionChanges == old(connectionChanges)
      ensures reconnectsScheduled == old(reconnectsScheduled)
    {
      if frame.Malformed? {
        return;
      }
      var target := ResponseTarget(frame);
      if target.Some? && target.value in pendingRequests {
        pendingRequests := pendingRequests - {target.value};
        settled := settled[target.value := SettlementOf(frame)];
      }
      var observer := ObserverTarget(frame);
      if observer.Some? && observer.value in observers {
        notifications := notifications + [(observer.value, frame.data)];
      }
    }

    /** The request timer: rejects with 'Request timeout' only if the id is still pending. */
    method Timeout(id: RequestId)
      requires Valid()
      modifies this
      ensures Valid()
      ensures Table() == Expire(old(Table()), id)
      ensures sent == old(sent) && observers == old(observers) && notifications == old(notifications)
      ensures connected == old(connected) && hasSocket == old(hasSocket) && clientGUID == old(clientGUID)
      ensures identityStore == old(identityStore) && connectionChanges == old(connectionChanges)
      ensures reconnectsScheduled == old(reconnectsScheduled)
    {
      if id in pendingRequests {
        pendingRequests := pendingRequests - {id};
        settled := settled[id := Rejected(TimeoutError)];
      }
    }

    /** saveClientGUID: a failed write (a non-string GUID, or a file error) changes nothing. */
    method SaveClientGUID(guid: Value, writable: bool)
      requires Valid()
      modifies this
      ensures Valid()
      ensures writable && guid.Str? ==> clientGUID == Some(guid.s) && identityStore == Some(guid.s)
      ensures !(writable && guid.Str?) ==> clientGUID == old(clientGUID) && identityStore == old(identityStore)
      ensures connected == old(connected) && hasSocket == old(hasSocket) && Table() == old(Table())
      ensures sent == old(sent) && observers == old(observers) && notifications == old(notifications)
      ensures connectionChanges == old(connectionChanges) && reconnectsScheduled == old(reconnectsScheduled)
    {
      if writable && guid.Str? {
        identityStore := Some(guid.s);
        clientGUID := Some(guid.s);
      }
    }

    /** connect(): opens a new socket. */
    method Connect()
      requires Valid()
      modifies this
      ensures Valid()
      ensures hasSocket
      ensures connected == old(connected) && Table() == old(Table()) && clientGUID == old(clientGUID)
      ensures sent == old(sent) && observers == old(observers) && notifications == old(notifications)
      ensures identityStore == old(identityStore) && connectionChanges == old(connectionChanges)
      ensures reconnectsScheduled == old(reconnectsScheduled)
    {
      hasSocket := true;
    }

    /**
     * The socket's 'open' event: sets `connected` before registering, then
     * sends register with `[appName, appVersion]` and the stored GUID if any.
     */
    method OnOpen(id: RequestId) returns (r: Result<RequestId, SendError>)
      requires Valid() && id !in Table().Known()
      modifies this
      ensures Valid()
      ensures connected && r == Success(id)
      ensures Table() == Issue(old(Table()), id)
      ensures sent == old(sent) + [Envelope(id, Null, "register", RegisterParams(appName, appVersion, old(clientGUID)))]
      ensures hasSocket == old(hasSocket) && clientGUID == old(clientGUID) && observers == old(observers)
      ensures identityStore == old(identityStore) && notifications == old(notifications)
      ensures connectionChanges == old(connectionChanges) && reconnectsScheduled == old(reconnectsScheduled)
    {
      connected := true;
      r := SendMessage("register", RegisterParams(appName, appVersion, clientGUID), id);
    }

    /**
     * The continuation of register() once its request has settled: on success
     * a truthy `clientGUID` in the response is saved and the connection change
     * reported; on failure `connected` is reset.
     */
    method OnRegisterSettled(registerId: RequestId, writable: bool)
      requires Valid() && registerId in settled
      modifies this
      ensures Valid()
      ensures Table() == old(Table()) && sent == old(sent) && observers == old(observers)
      ensures hasSocket == old(hasSocket) && notifications == old(notifications)
      ensures reconnectsScheduled == old(reconnectsScheduled)
      ensures old(settled[registerId]).Rejected? ==>
                !connected && clientGUID == old(clientGUID) && identityStore == old(identityStore)
                && connectionChanges == old(connectionChanges)
      ensures old(settled[registerId]).Resolved? ==>
                var response := old(settled[registerId]).response;
                var guid := if Truthy(response) then Get(response, "clientGUID") else Undefined;
                && connected == old(connected)
                && connectionChanges == old(connectionChanges) + [true]
                && (Truthy(guid) && guid.Str? && writable ==> clientGUID == Some(guid.s) && identityStore == Some(guid.s))
                && (!(Truthy(guid) && guid.Str? && writable) ==> clientGUID == old(clientGUID) && identityStore == old(identityStore))
    {
      match settled[registerId]
      case Resolved(response) =>
        if Truthy(response) && Truthy(Get(response, "clientGUID")) {
          SaveClientGUID(Get(response, "clientGUID"), writable);
        }
        connectionChanges := connectionChanges + [true];
      case Rejected(_) =>
        connected := false;
    }

    /** The socket's 'close' event: reports the change and schedules one reconnect in 5 seconds. */
    method OnClose()
      requires Valid()
      modifies this
      ensures Valid()
      ensures !connected
      ensures connectionChanges == old(connectionChanges) + [false]
      ensures reconnectsScheduled == old(reconnectsScheduled) + 1
      ensures hasSocket == old(hasSocket) && Table() == old(Table()) && clientGUID == old(clientGUID)
      ensures sent == old(sent) && observers == old(observers) && notifications == old(notifications)
      ensures identityStore == old(identityStore)
    {
      connected := false;
      connectionChanges := connectionChanges + [false];
      reconnectsScheduled := reconnectsScheduled + 1;
    }

    /** A scheduled reconnect timer fires and calls connect() again. */
    method OnReconnectTimer()
      requires Valid() && reconnectsScheduled > 0
      modifies this
      ensures Valid()
      ensures hasSocket && reconnectsScheduled == old(reconnectsScheduled) - 1
      ensures connected == old(connected) && Table() == old(Table()) && clientGUID == old(clientGUID)
      ensures sent == old(sent) && observers == old(observers) && notifications == old(notifications)
      ensures identityStore == old(identityStore) && connectionChanges == old(connectionChanges)
    {
      reconnectsScheduled := reconnectsScheduled - 1;
      Connect();
    }

    /**
     * disconnect(): closes the socket if there is one. The 'close' event that
     * follows is OnClose, which still schedules a reconnect.
     */
    method Disconnect()
      requires Valid()
      modifies this
      ensures Valid()
      ensures connected == (old(connected) && !old(hasSocket))
      ensures hasSocket == old(hasSocket) && Table() == old(Table()) && clientGUID == old(clientGUID)
      ensures sent == old(sent) && observers == old(observers) && notifications == old(notifications)
      ensures identityStore == old(identityStore) && connectionChanges == old(connectionChanges)
      ensures reconnectsScheduled == old(reconnectsScheduled)
    {
      if hasSocket {
        connected := false;
      }
    }
  }
}
