/**
 * The client protocol engine `RpcHostInstance`: one outbound connection, a registry of
 * operations keyed by id, a queue of messages held back while connecting, reconnection
 * with an attempt budget, a keep-alive watchdog, an inactivity timer and a middleware
 * chain. Timers are armed/disarmed flags whose expiry the environment signals by calling
 * the matching `...Fired` method; the transport's callbacks are the `OnTransport...`
 * methods and `ProcessReceivedData`; the transport status is a field the environment sets.
 */
module RpcClient {
  import opened Wrappers
  import opened Decimal
  import opened JsValues
  import opened MessageTypes
  import opened Protocol
  import opened ClientValues
  import opened ClientRouting

  /** `reconnectionAttempts`; the default is `Infinity`. */
  datatype Limit = Unlimited | AtMost(n: nat)

  /** The three values `wasKeepAliveReceived` takes: `undefined`, `true`, `false`. */
  datatype KeepAliveFlag = Unset | Received | NotReceived

  /** The constructor options (the connect-timeout duration is not modelled). */
  datatype ClientOptions = ClientOptions(
    lazy: bool,
    reconnect: bool,
    reconnectionAttempts: Limit,
    inactivityTimeout: nat,
    hasConnectionCallback: bool,
    connectionParams: ConnectionParamsOption)

  /** The promise `executeOperation` leaves behind: whom to tell, and how the middleware chain settled. */
  datatype Setup = Setup(handler: HandlerId, chain: Chain)

  /** `connection_terminate`, sent by a forced close: no id and a `null` payload. */
  function TerminateMessage(): Message {
    Message(None, ToString(GqlConnectionTerminate), Null)
  }

  /** `buildMessage` leaves the `null` payload of `connection_terminate` as it is. */
  lemma TerminateMessageBuilt()
    ensures TerminateMessage() == BuildMessage(None, GqlConnectionTerminate, Null)
  {
  }

  /** The first message on an opened transport: the connection parameters, or the error computing them. */
  function HandshakeMessage(params: Result<JsValue, JsValue>): Message {
    match params
    case Ok(p) => BuildMessage(None, GqlConnectionInit, p)
    case Err(e) => BuildMessage(None, GqlConnectionError, e)
  }

  /**
   * The handshake has no id. It is `connection_init` exactly when the params resolve and
   * `connection_error` exactly when they reject, and it carries the resolved value or the
   * rejection (a value with a truthy `query` has it printed, as every built message does).
   * A plain params value always resolves to itself, a promise settles as it does, and a
   * provider settles as it returns or throws.
   */
  lemma HandshakeSpec(option: ConnectionParamsOption, providerOutcome: Result<JsValue, JsValue>)
    ensures var params := ResolveConnectionParams(option, providerOutcome);
      var m := HandshakeMessage(params);
      && m.id.None?
      && (KindOf(m) == Some(GqlConnectionInit) <==> params.Ok?)
      && (KindOf(m) == Some(GqlConnectionError) <==> params.Err?)
      && (params.Ok? && !(Truthy(params.value) && Truthy(Get(params.value, "query"))) ==> m.payload == params.value)
      && (params.Err? && !(Truthy(params.error) && Truthy(Get(params.error, "query"))) ==> m.payload == params.error)
      && (option.StaticParams? ==> params == Ok(option.value))
      && (option.PromisedParams? ==> params == option.settled)
      && (option.ParamsProvider? ==> params == providerOutcome)
  {
    var params := ResolveConnectionParams(option, providerOutcome);
    ToStringInjective(GqlConnectionInit, GqlConnectionError);
    match params
    case Ok(v) =>
      BuildMessageEnvelope(None, GqlConnectionInit, v);
      BuildMessagePayload(None, GqlConnectionInit, v);
    case Err(e) =>
      BuildMessageEnvelope(None, GqlConnectionError, e);
      BuildMessagePayload(None, GqlConnectionError, e);
  }

  /** The registry key a received message addresses; a missing `id` is looked up as `"undefined"`. */
  function AddressedKey(m: Message): Option<nat> {
    KeyOf(m.id.GetOr("undefined"))
  }

  /** The kinds whose messages are dropped when their id is not registered. */
  predicate IsOperationReply(m: Message) {
    KindOf(m) in {Some(GqlData), Some(GqlComplete), Some(GqlError)}
  }

  /** The kinds `processReceivedData` has a case for. */
  predicate IsHandledKind(m: Message) {
    KindOf(m) in {Some(GqlConnectionError), Some(GqlConnectionAck), Some(GqlComplete), Some(GqlError),
                  Some(GqlData), Some(GqlConnectionKeepAlive)}
  }

  /** What `processReceivedData` does with a received message, given the registered keys. */
  datatype Reaction =
    | Ignored                                  // a falsy message, or a reply to an id that is not registered
    | ConnectionErrorReported(payload: JsValue)
    | Acknowledged
    | Completed(key: nat)
    | Failed(key: nat, errors: seq<JsValue>)
    | Delivered(key: nat, result: JsValue)
    | KeepAliveSeen
    | Thrown                                   // an unknown type, or a DATA payload that cannot be read

  function ReactionTo(msg: Option<Message>, registered: set<nat>): Reaction {
    if msg.None? then Ignored
    else
      var m := msg.value;
      var key := AddressedKey(m);
      var kind := KindOf(m);
      if IsOperationReply(m) && !(key.Some? && key.value in registered) then Ignored
      else if kind == Some(GqlConnectionError) then ConnectionErrorReported(m.payload)
      else if kind == Some(GqlConnectionAck) then Acknowledged
      else if kind == Some(GqlComplete) then Completed(key.value)
      else if kind == Some(GqlError) then Failed(key.value, FormatErrors(m.payload))
      else if kind == Some(GqlData) then
        if m.payload in {Null, Undefined} then Thrown else Delivered(key.value, DataPayload(m.payload))
      else if kind == Some(GqlConnectionKeepAlive) then KeepAliveSeen
      else Thrown
  }

  /** Replies reach only registered operations, the one their `id` names, with the payload normalised. */
  lemma ReactionReachesRegistered(msg: Option<Message>, registered: set<nat>)
    ensures var r := ReactionTo(msg, registered);
      && (r.Completed? || r.Failed? || r.Delivered? ==>
            msg.Some? && AddressedKey(msg.value) == Some(r.key) && r.key in registered)
      && (r.Completed? ==> KindOf(msg.value) == Some(GqlComplete))
      && (r.Failed? ==> KindOf(msg.value) == Some(GqlError) && r.errors == FormatErrors(msg.value.payload))
      && (r.Delivered? ==> KindOf(msg.value) == Some(GqlData) && r.result == DataPayload(msg.value.payload))
  {
    if msg.Some? && KindOf(msg.value) in {Some(GqlData), Some(GqlComplete), Some(GqlError)} {
      assert IsOperationReply(msg.value);
    }
  }

  /** A message is dropped exactly when it is falsy or a reply to an id that is not registered. */
  lemma ReactionIgnoresExactly(msg: Option<Message>, registered: set<nat>)
    ensures ReactionTo(msg, registered).Ignored? <==>
      msg.None? || (IsOperationReply(msg.value) && !(AddressedKey(msg.value).Some? && AddressedKey(msg.value).value in registered))
  {
  }

  /** Exactly the unknown types and the DATA messages whose payload is `null` or `undefined` throw. */
  lemma ReactionThrowsExactly(msg: Option<Message>, registered: set<nat>)
    ensures ReactionTo(msg, registered).Thrown? <==>
      && msg.Some? && !ReactionTo(msg, registered).Ignored?
      && (!IsHandledKind(msg.value) || (KindOf(msg.value) == Some(GqlData) && msg.value.payload in {Null, Undefined}))
  {
  }

  /**
   * What the observer of `request` receives for the handler call a reply makes (the call
   * `ProcessReceivedData` logs): COMPLETE completes it; ERROR reports the first normalised
   * error, `undefined` for an empty list, and an entry with a truthy message unless the
   * payload unwraps to a list; DATA passes the payload on, its errors normalised.
   */
  lemma ObserverSeesReplies(msg: Option<Message>, registered: set<nat>)
    ensures var r := ReactionTo(msg, registered);
      && (r.Completed? ==> Notify(None, Null) == CompleteCall)
      && (r.Failed? ==>
            var errors := FormatErrors(msg.value.payload);
            && Notify(Some(r.errors), Null) == ErrorCall(if errors == [] then Undefined else errors[0])
            && (!Innermost(msg.value.payload).Arr? ==> Truthy(Get(Notify(Some(r.errors), Null).error, "message"))))
      && (r.Delivered? ==> Notify(None, r.result) == NextCall(DataPayload(msg.value.payload)))
  {
    var r := ReactionTo(msg, registered);
    ReactionReachesRegistered(msg, registered);
    if r.Failed? {
      ObserverGetsFirstError(msg.value.payload, Null);
    }
  }

  /**
   * A setup that failed (`FailSetup`) reports the first normalised error to the observer;
   * an option check that rejected the resolved options reports its one error, which has a
   * truthy message.
   */
  lemma ObserverSeesSetupFailure(chain: Chain, operationFound: bool)
    requires !chain.Stalled? && SetupError(chain, operationFound).Some?
    ensures var errors := FormatErrors(SetupError(chain, operationFound).value);
      && Notify(Some(errors), Undefined) == ErrorCall(if errors == [] then Undefined else errors[0])
      && (chain.Resolved? ==> |errors| == 1 && Truthy(Get(Notify(Some(errors), Undefined).error, "message")))
  {
    var e := SetupError(chain, operationFound).value;
    ObserverGetsFirstError(e, Undefined);
    if chain.Resolved? {
      CheckOperationOptionsSpec(chain.options, operationFound);
    }
  }

  class RpcHostInstance {
    // configuration, fixed at construction
    const reconnect: bool
    const reconnectionAttempts: Limit
    const inactivityTimeout: nat
    const lazy: bool
    const hasConnectionCallback: bool
    const connectionParams: ConnectionParamsOption

    /** The transport's `status`, as the environment sets it; `None` reads as open. */
    var transportStatus: Option<Status>

    /** `operations`, keyed by the number `n` of the id `String(n)`. */
    var operations: map<nat, Operation>
    var nextOperationId: nat
    var unsentMessagesQueue: seq<Message>
    var reconnecting: bool
    var closedByUser: bool
    var wasKeepAliveReceived: KeepAliveFlag
    var middlewares: seq<Middleware>
    /** Operations whose settled middleware promise has not been continued yet. */
    var pendingSetups: map<nat, Setup>

    // timers: armed or not
    var inactivityTimerArmed: bool
    var tryReconnectTimerArmed: bool
    var checkConnectionArmed: bool
    var maxConnectTimerArmed: bool

    /** Whether `connect` has installed the transport callbacks. */
    var callbacksInstalled: bool

    /** `backoff.attempts` and `maxConnectTimeGenerator.attempts`. */
    var backoffAttempts: nat
    var maxConnectAttempts: nat

    /** Everything sent, emitted and called, in order. */
    var log: seq<Effect>

    /** The `status` getter. */
    function Status(): Status
      reads this`transportStatus
    {
      transportStatus.GetOr(Open)
    }

    function Outputs(): Outputs
      reads this`log, this`unsentMessagesQueue
    {
      ClientRouting.Outputs(log, unsentMessagesQueue)
    }

    /** Every registered key was issued by `generateOperationId`. */
    ghost predicate KeysIssued()
      reads this`operations, this`nextOperationId
    {
      forall k :: k in operations ==> 1 <= k <= nextOperationId
    }

    /** Every pending key was issued, and a pending promise is one that settled. */
    ghost predicate SetupsSettled()
      reads this`pendingSetups, this`nextOperationId
    {
      forall k :: k in pendingSetups ==> 1 <= k <= nextOperationId && !pendingSetups[k].chain.Stalled?
    }

    /** The keep-alive interval is only armed once a keep-alive was seen. */
    predicate WatchdogConsistent()
      reads this`wasKeepAliveReceived, this`checkConnectionArmed
    {
      wasKeepAliveReceived == Unset ==> !checkConnectionArmed
    }

    /**
     * The engine invariant. Each method keeps the parts over the fields it changes, so
     * every method keeps the whole.
     */
    ghost predicate Valid()
      reads this`operations, this`pendingSetups, this`nextOperationId, this`wasKeepAliveReceived, this`checkConnectionArmed
    {
      KeysIssued() && SetupsSettled() && WatchdogConsistent()
    }

    /** A reconnect attempt is allowed with this many attempts made so far. */
    predicate CanReconnect(attempts: nat) {
      reconnect && (reconnectionAttempts.Unlimited? || attempts < reconnectionAttempts.n)
    }

    /** The START messages a reconnect requeues for the current registry. */
    function Requeue(): seq<Message>
      reads this`operations, this`nextOperationId
    {
      Restarts(operations, nextOperationId)
    }

    /** The effect of `tryReconnect` on the state it changes. */
    twostate predicate TriedReconnect()
      reads this
    {
      if old(CanReconnect(backoffAttempts)) then
        && reconnecting && tryReconnectTimerArmed && backoffAttempts == old(backoffAttempts) + 1
        && unsentMessagesQueue == old(unsentMessagesQueue) + (if old(reconnecting) then [] else old(Requeue()))
      else
        && unsentMessagesQueue == old(unsentMessagesQueue) && reconnecting == old(reconnecting)
        && tryReconnectTimerArmed == old(tryReconnectTimerArmed) && backoffAttempts == old(backoffAttempts)
    }

    /** The effect of `close(false, byUser)`: the transport is closed and a reconnect is tried. */
    twostate predicate ClosedNonForced(byUser: bool)
      reads this
    {
      && closedByUser == byUser && !inactivityTimerArmed
      && operations == old(operations)
      && checkConnectionArmed == old(checkConnectionArmed) && maxConnectTimerArmed == old(maxConnectTimerArmed)
      && log == old(log) + [TransportClosed, Emitted(EventDisconnected)]
      && TriedReconnect()
    }

    /**
     * The effect of `close(true, byUser)`: every timer but the inactivity timer is
     * cleared, every operation is unsubscribed in key order, `connection_terminate` is
     * sent and the transport is closed.
     */
    twostate predicate ClosedForced(byUser: bool)
      reads this
    {
      && closedByUser == byUser
      && !checkConnectionArmed && !maxConnectTimerArmed && !tryReconnectTimerArmed
      && operations == map[]
      && inactivityTimerArmed == (inactivityTimeout > 0 && old(operations) != map[])
      && reconnecting == old(reconnecting) && backoffAttempts == old(backoffAttempts)
      && Outputs() == Append(
           Route(Status(), reconnecting, TerminateMessage(),
             RouteStops(Status(), reconnecting, old(operations).Keys, nextOperationId, old(Outputs()))),
           [TransportClosed, Emitted(EventDisconnected)])
    }

    /** Only the effect log grew, by `effects`; nothing `processReceivedData` may change changed otherwise. */
    twostate predicate OnlyLogged(effects: seq<Effect>)
      reads this`operations, this`unsentMessagesQueue, this`reconnecting, this`backoffAttempts,
        this`maxConnectAttempts, this`wasKeepAliveReceived, this`checkConnectionArmed, this`inactivityTimerArmed, this`closedByUser, this`maxConnectTimerArmed, this`tryReconnectTimerArmed, this`log
    {
      && log == old(log) + effects
      && unchanged(this`operations, this`unsentMessagesQueue, this`reconnecting, this`backoffAttempts,
           this`maxConnectAttempts, this`wasKeepAliveReceived, this`checkConnectionArmed,
           this`inactivityTimerArmed, this`closedByUser, this`maxConnectTimerArmed, this`tryReconnectTimerArmed)
    }

    /** A COMPLETE or ERROR: the operation is removed (without re-arming the inactivity timer) and its handler called. */
    twostate predicate ReplyConsumed(k: nat, effect: Effect)
      reads this`operations, this`unsentMessagesQueue, this`reconnecting, this`backoffAttempts,
        this`maxConnectAttempts, this`wasKeepAliveReceived, this`checkConnectionArmed, this`inactivityTimerArmed, this`closedByUser, this`maxConnectTimerArmed, this`tryReconnectTimerArmed, this`log
    {
      && operations == old(operations) - {k}
      && log == old(log) + [effect]
      && unchanged(this`unsentMessagesQueue, this`reconnecting, this`backoffAttempts,
           this`maxConnectAttempts, this`wasKeepAliveReceived, this`checkConnectionArmed,
           this`inactivityTimerArmed, this`closedByUser, this`maxConnectTimerArmed, this`tryReconnectTimerArmed)
    }

    /** `connection_ack`: the (re)connection is reported and both backoffs start over. */
    twostate predicate AckApplied()
      reads this`operations, this`unsentMessagesQueue, this`reconnecting, this`backoffAttempts,
        this`maxConnectAttempts, this`wasKeepAliveReceived, this`checkConnectionArmed, this`inactivityTimerArmed, this`closedByUser, this`maxConnectTimerArmed, this`tryReconnectTimerArmed, this`log
    {
      && log == old(log) + [Emitted(if old(reconnecting) then EventReconnected else EventConnected)]
           + (if hasConnectionCallback then [ConnectionCallbackCalled(Undefined)] else [])
      && !reconnecting && backoffAttempts == 0 && maxConnectAttempts == 0
      && unchanged(this`operations, this`unsentMessagesQueue, this`wasKeepAliveReceived, this`checkConnectionArmed,
           this`inactivityTimerArmed, this`closedByUser, this`maxConnectTimerArmed, this`tryReconnectTimerArmed)
    }

    /**
     * `ka`: the watchdog interval is (re)armed, and the flag ends `false` whenever the
     * handler ran `checkConnection`, that is on the first keep-alive and whenever the
     * interval was armed; the handler never closes the connection.
     */
    twostate predicate KeepAliveApplied()
      reads this`operations, this`unsentMessagesQueue, this`reconnecting, this`backoffAttempts,
        this`maxConnectAttempts, this`wasKeepAliveReceived, this`checkConnectionArmed, this`inactivityTimerArmed, this`closedByUser, this`maxConnectTimerArmed, this`tryReconnectTimerArmed, this`log
    {
      && checkConnectionArmed
      && wasKeepAliveReceived == (if old(wasKeepAliveReceived) == Unset || old(checkConnectionArmed) then NotReceived else Received)
      && unchanged(this`operations, this`log, this`unsentMessagesQueue, this`reconnecting, this`backoffAttempts,
           this`maxConnectAttempts, this`inactivityTimerArmed, this`closedByUser, this`maxConnectTimerArmed,
           this`tryReconnectTimerArmed)
    }

    /**
     * The START of a settled setup: a still-registered operation gets the processed options
     * and its START is routed; an operation unsubscribed meanwhile is left alone.
     */
    twostate predicate Started(k: nat, op: Operation)
      reads this`inactivityTimerArmed, this`operations, this`log, this`unsentMessagesQueue, this`transportStatus, this`reconnecting
    {
      && inactivityTimerArmed == old(inactivityTimerArmed)
      && (k in old(operations) ==>
            operations == old(operations)[k := op] && Outputs() == Route(Status(), reconnecting, StartMessage(k, op), old(Outputs())))
      && (k !in old(operations) ==> operations == old(operations) && Outputs() == old(Outputs()))
    }

    /** A failed setup: the operation is unsubscribed (a STOP if it was registered) and its handler gets the errors. */
    twostate predicate SetupFailed(k: nat, handler: HandlerId, errors: seq<JsValue>)
      reads this`inactivityTimerArmed, this`operations, this`log, this`unsentMessagesQueue, this`transportStatus, this`reconnecting
    {
      && operations == old(operations) - {k}
      && inactivityTimerArmed == (old(inactivityTimerArmed) || (k in old(operations) && inactivityTimeout > 0 && operations == map[]))
      && Outputs() == Append(
           if k in old(operations) then Route(Status(), reconnecting, StopMessage(k), old(Outputs())) else old(Outputs()),
           [HandlerCalled(handler, Some(errors), Undefined)])
    }

    constructor (options: ClientOptions, initialStatus: Option<Status>)
      ensures Valid()
      ensures reconnect == options.reconnect && reconnectionAttempts == options.reconnectionAttempts
      ensures inactivityTimeout == options.inactivityTimeout && lazy == options.lazy
      ensures hasConnectionCallback == options.hasConnectionCallback && connectionParams == options.connectionParams
      ensures transportStatus == initialStatus
      ensures operations == map[] && nextOperationId == 0 && unsentMessagesQueue == [] && pendingSetups == map[]
      ensures !reconnecting && !closedByUser && wasKeepAliveReceived == Unset && middlewares == [] && log == []
      ensures !inactivityTimerArmed && !tryReconnectTimerArmed && !checkConnectionArmed && backoffAttempts == 0
      ensures maxConnectTimerArmed == !options.lazy && maxConnectAttempts == (if options.lazy then 0 else 1)
      ensures callbacksInstalled == !options.lazy
    {
      reconnect := options.reconnect;
      reconnectionAttempts := options.reconnectionAttempts;
      inactivityTimeout := options.inactivityTimeout;
      lazy := options.lazy;
      hasConnectionCallback := options.hasConnectionCallback;
      connectionParams := options.connectionParams;
      transportStatus := initialStatus;
      operations := map[];
      nextOperationId := 0;
      unsentMessagesQueue := [];
      reconnecting := false;
      closedByUser := false;
      wasKeepAliveReceived := Unset;
      middlewares := [];
      pendingSetups := map[];
      inactivityTimerArmed := false;
      tryReconnectTimerArmed := false;
      checkConnectionArmed := false;
      maxConnectTimerArmed := false;
      backoffAttempts := 0;
      maxConnectAttempts := 0;
      log := [];
      callbacksInstalled := false;
      new;
      if !options.lazy {
        Connect();
      }
    }

    /** `connect`: installs the transport callbacks and arms the connect timeout. */
    method Connect()
      modifies this`maxConnectTimerArmed, this`maxConnectAttempts, this`callbacksInstalled
      ensures maxConnectTimerArmed && maxConnectAttempts == old(maxConnectAttempts) + 1 && callbacksInstalled
    {
      CheckMaxConnectTimeout();
      callbacksInstalled := true;
    }

    /** `checkMaxConnectTimeout`: re-arms the connect timeout, drawing one backoff duration. */
    method CheckMaxConnectTimeout()
      modifies this`maxConnectTimerArmed, this`maxConnectAttempts
      ensures maxConnectTimerArmed && maxConnectAttempts == old(maxConnectAttempts) + 1
    {
      maxConnectTimerArmed := false;
      maxConnectAttempts := maxConnectAttempts + 1;
      maxConnectTimerArmed := true;
    }

    // ------------------------------------------------------------ transport callbacks

    /**
     * The `onopen` callback `connect` installs, run once the connection-params promise
     * settled with `providerOutcome`. On an open transport the connect timeout is cleared,
     * `(re)connecting` is emitted, and the handshake (`connection_init`, or
     * `connection_error` when the params rejected) goes out ahead of every queued message;
     * the queue ends empty.
     */
    method OnOpen(providerOutcome: Result<JsValue, JsValue>)
      requires callbacksInstalled
      modifies this`maxConnectTimerArmed, this`closedByUser, this`log, this`unsentMessagesQueue
      ensures Status() != Open ==> unchanged(this)
      ensures Status() == Open ==>
        && !maxConnectTimerArmed && !closedByUser && unsentMessagesQueue == []
        && log == old(log)
             + [Emitted(if reconnecting then EventReconnecting else EventConnecting),
                Sent(HandshakeMessage(ResolveConnectionParams(connectionParams, providerOutcome)))]
             + Sends(old(unsentMessagesQueue))
    {
      if Status() != Open {
        return;
      }
      maxConnectTimerArmed := false;
      closedByUser := false;
      SendHandshake(ResolveConnectionParams(connectionParams, providerOutcome));
      RouteAllOpen(reconnecting, unsentMessagesQueue, Outputs());
      FlushUnsentMessagesQueue();
    }

    /** The body of the `try`/`catch` in `onopen` up to the flush, on an open transport. */
    method SendHandshake(params: Result<JsValue, JsValue>)
      requires Status() == Open
      modifies this`log, this`unsentMessagesQueue
      ensures unsentMessagesQueue == old(unsentMessagesQueue)
      ensures log == old(log) + [Emitted(if reconnecting then EventReconnecting else EventConnecting), Sent(HandshakeMessage(params))]
    {
      log := log + [Emitted(if reconnecting then EventReconnecting else EventConnecting)];
      if params.Ok? {
        SendMessage(None, GqlConnectionInit, params.value);
      } else {
        SendMessage(None, GqlConnectionError, params.error);
      }
    }

    /** The `onclose` callback: a close the user did not ask for closes without forcing, so a reconnect is tried. */
    method OnTransportClose()
      requires callbacksInstalled && KeysIssued()
      modifies this`inactivityTimerArmed, this`closedByUser, this`checkConnectionArmed, this`maxConnectTimerArmed,
        this`tryReconnectTimerArmed, this`operations, this`log, this`unsentMessagesQueue, this`reconnecting,
        this`backoffAttempts
      ensures KeysIssued()
      ensures old(closedByUser) ==> unchanged(this)
      ensures !old(closedByUser) ==> ClosedNonForced(false)
    {
      if !closedByUser {
        Close(false, false);
      }
    }

    /** The `onerror` callback: the error is re-emitted and nothing else happens. */
    method OnTransportError()
      requires callbacksInstalled
      modifies this`log
      ensures log == old(log) + [Emitted(EventError)]
    {
      log := log + [Emitted(EventError)];
    }

    // ------------------------------------------------------------ timers firing

    /**
     * The inactivity timeout firing: with the registry still empty the client closes for
     * good, by the user's authority; otherwise only the timer is spent.
     */
    method InactivityTimerFired()
      requires inactivityTimerArmed && KeysIssued()
      modifies this`inactivityTimerArmed, this`closedByUser, this`checkConnectionArmed, this`maxConnectTimerArmed,
        this`tryReconnectTimerArmed, this`operations, this`log, this`unsentMessagesQueue, this`reconnecting,
        this`backoffAttempts
      ensures KeysIssued()
      ensures old(operations) == map[] ==> ClosedForced(true) && !inactivityTimerArmed
      ensures old(operations) != map[] ==>
        && !inactivityTimerArmed
        && unchanged(this`closedByUser, this`checkConnectionArmed, this`maxConnectTimerArmed,
             this`tryReconnectTimerArmed, this`operations, this`log, this`unsentMessagesQueue, this`reconnecting,
             this`backoffAttempts)
    {
      if |operations| == 0 {
        Close(true, true);
      } else {
        inactivityTimerArmed := false;
      }
    }

    /**
     * The connect timeout firing while the transport is not open: the client marks itself
     * reconnecting and closes without forcing. Because `reconnecting` is already set, the
     * reconnect attempt requeues nothing.
     */
    method MaxConnectTimerFired()
      requires maxConnectTimerArmed && KeysIssued()
      modifies this`inactivityTimerArmed, this`closedByUser, this`checkConnectionArmed, this`maxConnectTimerArmed,
        this`tryReconnectTimerArmed, this`operations, this`log, this`unsentMessagesQueue, this`reconnecting,
        this`backoffAttempts
      ensures KeysIssued() && !maxConnectTimerArmed
      ensures Status() == Open ==>
        unchanged(this`inactivityTimerArmed, this`closedByUser, this`checkConnectionArmed, this`tryReconnectTimerArmed,
          this`operations, this`log, this`unsentMessagesQueue, this`reconnecting, this`backoffAttempts)
      ensures Status() != Open ==>
        && reconnecting && closedByUser && !inactivityTimerArmed
        && operations == old(operations) && unsentMessagesQueue == old(unsentMessagesQueue)
        && checkConnectionArmed == old(checkConnectionArmed)
        && log == old(log) + [TransportClosed, Emitted(EventDisconnected)]
        && (if CanReconnect(old(backoffAttempts))
            then tryReconnectTimerArmed && backoffAttempts == old(backoffAttempts) + 1
            else tryReconnectTimerArmed == old(tryReconnectTimerArmed) && backoffAttempts == old(backoffAttempts))
    {
      maxConnectTimerArmed := false;
      if Status() != Open {
        reconnecting := true;
        Close(false, true);
      }
    }

    /** The reconnect timeout firing: `connect` runs again. */
    method TryReconnectTimerFired()
      requires tryReconnectTimerArmed
      modifies this`tryReconnectTimerArmed, this`maxConnectTimerArmed, this`maxConnectAttempts, this`callbacksInstalled
      ensures !tryReconnectTimerArmed && callbacksInstalled
      ensures maxConnectTimerArmed && maxConnectAttempts == old(maxConnectAttempts) + 1
    {
      tryReconnectTimerArmed := false;
      Connect();
    }

    // ------------------------------------------------------------ sending

    /** `sendMessageRaw`: send, queue or drop according to the transport status. */
    method SendMessageRaw(m: Message)
      modifies this`log, this`unsentMessagesQueue
      ensures Outputs() == Route(Status(), reconnecting, m, old(Outputs()))
    {
      match Status()
      case Open =>
        log := log + [Sent(m)];
      case Connecting =>
        unsentMessagesQueue := unsentMessagesQueue + [m];
      case _ =>
        if !reconnecting {
          log := log + [Emitted(EventError)];
        }
    }

    method SendMessage(id: Option<string>, kind: MessageKind, payload: JsValue)
      modifies this`log, this`unsentMessagesQueue
      ensures Outputs() == Route(Status(), reconnecting, BuildMessage(id, kind, payload), old(Outputs()))
    {
      SendMessageRaw(BuildMessage(id, kind, payload));
    }

    /** `flushUnsentMessagesQueue`: every queued message goes through `sendMessageRaw`, in order; the queue ends empty. */
    method FlushUnsentMessagesQueue()
      modifies this`log, this`unsentMessagesQueue
      ensures unsentMessagesQueue == []
      ensures log == RouteAll(Status(), reconnecting, old(unsentMessagesQueue), old(Outputs())).log
    {
      var queued := unsentMessagesQueue;
      var i := 0;
      while i < |queued|
        invariant 0 <= i <= |queued|
        invariant Outputs() == RouteAll(Status(), reconnecting, queued[..i], old(Outputs()))
      {
        RouteAllSnoc(Status(), reconnecting, queued[..i], queued[i], old(Outputs()));
        assert queued[..i + 1] == queued[..i] + [queued[i]];
        SendMessageRaw(queued[i]);
        i := i + 1;
      }
      assert queued[..i] == queued;
      unsentMessagesQueue := [];
    }

    // ------------------------------------------------------------ ids and registry

    /** `generateOperationId`: `String(++nextOperationId)`, a key above every key issued before. */
    method GenerateOperationId() returns (id: string)
      requires KeysIssued() && SetupsSettled()
      modifies this`nextOperationId
      ensures KeysIssued() && SetupsSettled()
      ensures nextOperationId == old(nextOperationId) + 1
      ensures id == IdOf(nextOperationId) && KeyOf(id) == Some(nextOperationId)
      ensures nextOperationId !in operations && nextOperationId !in pendingSetups
    {
      nextOperationId := nextOperationId + 1;
      id := IdOf(nextOperationId);
      KeyOfIdOf(nextOperationId);
    }

    method ClearInactivityTimeout()
      modifies this`inactivityTimerArmed
      ensures !inactivityTimerArmed
    {
      inactivityTimerArmed := false;
    }

    /** `setInactivityTimeout`: arms the timer when one is configured and the registry is empty. */
    method SetInactivityTimeout()
      modifies this`inactivityTimerArmed
      ensures inactivityTimerArmed == (old(inactivityTimerArmed) || (inactivityTimeout > 0 && operations == map[]))
    {
      if inactivityTimeout > 0 && |operations| == 0 {
        inactivityTimerArmed := true;
      }
    }

    /**
     * `unsubscribe(String(k))`: a registered key is removed, the inactivity timer may be
     * armed and one STOP is sent; an unknown key changes nothing.
     */
    method Unsubscribe(k: nat)
      modifies this`operations, this`inactivityTimerArmed, this`log, this`unsentMessagesQueue
      ensures operations == old(operations) - {k}
      ensures k in old(operations) ==>
        && inactivityTimerArmed == (old(inactivityTimerArmed) || (inactivityTimeout > 0 && operations == map[]))
        && Outputs() == Route(Status(), reconnecting, StopMessage(k), old(Outputs()))
      ensures k !in old(operations) ==>
        inactivityTimerArmed == old(inactivityTimerArmed) && Outputs() == old(Outputs())
    {
      if k in operations {
        operations := operations - {k};
        SetInactivityTimeout();
        StopMessageBuilt(k);
        SendMessage(Some(IdOf(k)), GqlStop, Undefined);
      }
    }

    /** `unsubscribeAll`: unsubscribes every registered id in `Object.keys` order. */
    method UnsubscribeAll()
      requires KeysIssued()
      modifies this`operations, this`inactivityTimerArmed, this`log, this`unsentMessagesQueue
      ensures operations == map[]
      ensures Outputs() == RouteStops(Status(), reconnecting, old(operations).Keys, nextOperationId, old(Outputs()))
      ensures inactivityTimerArmed == (old(inactivityTimerArmed) || (inactivityTimeout > 0 && old(operations) != map[]))
    {
      ghost var ops0 := operations;
      AboveBounds(ops0, nextOperationId);
      var n := 0;
      while n < nextOperationId
        modifies this`operations, this`inactivityTimerArmed, this`log, this`unsentMessagesQueue
        invariant 0 <= n <= nextOperationId
        invariant operations == Above(ops0, n)
        invariant Outputs() == RouteStops(Status(), reconnecting, ops0.Keys, n, old(Outputs()))
        invariant inactivityTimerArmed == (old(inactivityTimerArmed) || (inactivityTimeout > 0 && operations == map[] && ops0 != map[]))
      {
        n := n + 1;
        UnsubscribeNext(ops0, n, old(Outputs()), old(inactivityTimerArmed));
      }
    }

    /** One step of `unsubscribeAll`: the key `n`, if it is registered. */
    method UnsubscribeNext(ghost ops0: map<nat, Operation>, n: nat, ghost out0: Outputs, ghost armed0: bool)
      requires n >= 1
      requires operations == Above(ops0, n - 1)
      requires Outputs() == RouteStops(Status(), reconnecting, ops0.Keys, n - 1, out0)
      requires inactivityTimerArmed == (armed0 || (inactivityTimeout > 0 && operations == map[] && ops0 != map[]))
      modifies this`operations, this`inactivityTimerArmed, this`log, this`unsentMessagesQueue
      ensures operations == Above(ops0, n)
      ensures Outputs() == RouteStops(Status(), reconnecting, ops0.Keys, n, out0)
      ensures inactivityTimerArmed == (armed0 || (inactivityTimeout > 0 && operations == map[] && ops0 != map[]))
    {
      AboveStep(ops0, n);
      Unsubscribe(n);
    }

    // ------------------------------------------------------------ reconnecting

    /** The requeue loop of `tryReconnect`: one START per registered id, in `Object.keys` order. */
    method RequeueOperations()
      modifies this`unsentMessagesQueue
      ensures unsentMessagesQueue == old(unsentMessagesQueue) + Requeue()
    {
      var n := 0;
      while n < nextOperationId
        invariant 0 <= n <= nextOperationId
        invariant unsentMessagesQueue == old(unsentMessagesQueue) + Restarts(operations, n)
      {
        n := n + 1;
        if n in operations {
          unsentMessagesQueue := unsentMessagesQueue + [BuildMessage(Some(IdOf(n)), GqlStart, operations[n].options)];
        }
      }
    }

    /**
     * `tryReconnect`: within the attempt budget, the first call of a reconnect cycle
     * requeues one START per registered operation; every allowed call draws a backoff
     * duration and arms the reconnect timer.
     */
    method TryReconnect()
      modifies this`unsentMessagesQueue, this`reconnecting, this`tryReconnectTimerArmed, this`backoffAttempts
      ensures TriedReconnect()
    {
      if !CanReconnect(backoffAttempts) {
        return;
      }
      if !reconnecting {
        RequeueOperations();
        reconnecting := true;
      }
      tryReconnectTimerArmed := false;
      backoffAttempts := backoffAttempts + 1;
      tryReconnectTimerArmed := true;
    }

    /**
     * `close(isForced, closedByUser)`. A forced close tears everything down and sends
     * `connection_terminate`; a non-forced close keeps the registry and tries to reconnect.
     */
    method Close(isForced: bool, byUser: bool)
      requires KeysIssued()
      modifies this`inactivityTimerArmed, this`closedByUser, this`checkConnectionArmed, this`maxConnectTimerArmed,
        this`tryReconnectTimerArmed, this`operations, this`log, this`unsentMessagesQueue, this`reconnecting,
        this`backoffAttempts
      ensures KeysIssued()
      ensures isForced ==> ClosedForced(byUser)
      ensures !isForced ==> ClosedNonForced(byUser)
    {
      if isForced {
        CloseForced(byUser);
      } else {
        CloseNonForced(byUser);
      }
    }

    /** The forced branch of `close`. */
    method CloseForced(byUser: bool)
      requires KeysIssued()
      modifies this`inactivityTimerArmed, this`closedByUser, this`checkConnectionArmed, this`maxConnectTimerArmed,
        this`tryReconnectTimerArmed, this`operations, this`log, this`unsentMessagesQueue
      ensures ClosedForced(byUser)
    {
      ClearInactivityTimeout();
      closedByUser := byUser;
      checkConnectionArmed := false;
      maxConnectTimerArmed := false;
      tryReconnectTimerArmed := false;
      UnsubscribeAll();
      TerminateMessageBuilt();
      SendMessage(None, GqlConnectionTerminate, Null);
      log := log + [TransportClosed, Emitted(EventDisconnected)];
    }

    /** The non-forced branch of `close`. */
    method CloseNonForced(byUser: bool)
      modifies this`inactivityTimerArmed, this`closedByUser, this`log, this`unsentMessagesQueue, this`reconnecting,
        this`tryReconnectTimerArmed, this`backoffAttempts
      ensures ClosedNonForced(byUser)
    {
      ClearInactivityTimeout();
      closedByUser := byUser;
      log := log + [TransportClosed, Emitted(EventDisconnected)];
      TryReconnect();
    }

    // ------------------------------------------------------------ middleware

    /**
     * `use`: appends the middlewares in order; the first one whose `applyMiddleware` is
     * not a function throws, and the ones before it stay appended.
     */
    method Use(mws: seq<Middleware>) returns (threw: bool)
      modifies this`middlewares
      ensures middlewares == old(middlewares) + mws[..FirstInvalid(mws)]
      ensures threw <==> FirstInvalid(mws) < |mws|
    {
      var i := 0;
      while i < |mws|
        invariant 0 <= i <= |mws|
        invariant forall j :: 0 <= j < i ==> mws[j].hasApplyMiddleware
        invariant middlewares == old(middlewares) + mws[..i]
      {
        if !mws[i].hasApplyMiddleware {
          return true;
        }
        middlewares := middlewares + [mws[i]];
        assert mws[..i + 1] == mws[..i] + [mws[i]];
        i := i + 1;
      }
      assert mws[..i] == mws;
      return false;
    }

    /**
     * `applyMiddlewares`: runs a copy of the middleware list in order on the options; the
     * promise resolves with the updated options, rejects with the first error passed to
     * `next`, or never settles when a middleware does not call `next`.
     */
    method ApplyMiddlewares(options: JsValue) returns (chain: Chain)
      ensures chain == RunChain(middlewares, options)
    {
      var funcs := middlewares;
      var current := options;
      while funcs != [] && Continues(funcs[0])
        invariant RunChain(funcs, current) == RunChain(middlewares, options)
        decreases |funcs|
      {
        current := Update(current, funcs[0].stage.updates);
        funcs := funcs[1..];
      }
      if funcs == [] {
        chain := Resolved(current);
      } else if funcs[0].stage.NeverCallsNext? {
        chain := Stalled;
      } else {
        chain := Rejected(funcs[0].stage.arg);
      }
    }

    // ------------------------------------------------------------ operations

    /** `request`: clears the inactivity timer; subscribing to the result is `ExecuteOperation`. */
    method Request()
      modifies this`inactivityTimerArmed
      ensures !inactivityTimerArmed
    {
      ClearInactivityTimeout();
    }

    /**
     * `executeOperation`: registers the operation under a fresh id and runs the middleware
     * chain; a chain that settled leaves its outcome for `SettleOperation`.
     */
    method ExecuteOperation(options: JsValue, handler: HandlerId) returns (id: string)
      requires KeysIssued() && SetupsSettled()
      modifies this`nextOperationId, this`operations, this`pendingSetups
      ensures KeysIssued() && SetupsSettled()
      ensures nextOperationId == old(nextOperationId) + 1
      ensures id == IdOf(nextOperationId) && KeyOf(id) == Some(nextOperationId)
      ensures nextOperationId !in old(operations) && nextOperationId !in old(pendingSetups)
      ensures operations == old(operations)[nextOperationId := Operation(options, handler)]
      ensures RunChain(middlewares, options).Stalled? ==> pendingSetups == old(pendingSetups)
      ensures !RunChain(middlewares, options).Stalled? ==>
        pendingSetups == old(pendingSetups)[nextOperationId := Setup(handler, RunChain(middlewares, options))]
    {
      id := GenerateOperationId();
      var k := nextOperationId;
      operations := operations[k := Operation(options, handler)];
      var chain := ApplyMiddlewares(options);
      if !chain.Stalled? {
        pendingSetups := pendingSetups[k := Setup(handler, chain)];
      }
    }

    /**
     * The continuation of `executeOperation` once its chain settled. Acceptable options
     * replace those of a still-registered operation and its START is sent; a rejection or a
     * `checkOperationOptions` error unsubscribes the operation and hands the formatted
     * errors to its handler.
     */
    method SettleOperation(k: nat, operationFound: bool)
      requires SetupsSettled() && k in pendingSetups
      modifies this`pendingSetups, this`operations, this`inactivityTimerArmed, this`log, this`unsentMessagesQueue
      ensures SetupsSettled() && operations.Keys <= old(operations).Keys
      ensures pendingSetups == old(pendingSetups) - {k}
      ensures var s := old(pendingSetups[k]); var e := SetupError(s.chain, operationFound);
        && (e.None? ==> Started(k, Operation(s.chain.options, s.handler)))
        && (e.Some? ==> SetupFailed(k, s.handler, FormatErrors(e.value)))
    {
      var s := pendingSetups[k];
      var failure := SetupError(s.chain, operationFound);
      if failure.None? {
        ContinueWithOptions(k, Operation(s.chain.options, s.handler));
      } else {
        FailSetup(k, s.handler, FormatErrors(failure.value));
      }
      pendingSetups := pendingSetups - {k};
    }

    /** The `then` branch of `executeOperation` after `checkOperationOptions` passed. */
    method ContinueWithOptions(k: nat, op: Operation)
      modifies this`operations, this`log, this`unsentMessagesQueue
      ensures operations.Keys == old(operations).Keys
      ensures Started(k, op)
    {
      if k in operations {
        operations := operations[k := op];
        SendMessage(Some(IdOf(k)), GqlStart, op.options);
      }
    }

    /** The `catch` branch of `executeOperation`: unsubscribe, then hand the errors to the handler. */
    method FailSetup(k: nat, handler: HandlerId, errors: seq<JsValue>)
      modifies this`operations, this`inactivityTimerArmed, this`log, this`unsentMessagesQueue
      ensures operations.Keys <= old(operations).Keys
      ensures SetupFailed(k, handler, errors)
    {
      Unsubscribe(k);
      log := log + [HandlerCalled(handler, Some(errors), Undefined)];
    }

    // ------------------------------------------------------------ keep-alive watchdog

    /**
     * `checkConnection`: a keep-alive seen since the last check is consumed; otherwise the
     * connection is closed, without forcing, unless a reconnect is under way.
     */
    method CheckConnection()
      requires KeysIssued()
      modifies this`wasKeepAliveReceived, this`inactivityTimerArmed, this`closedByUser, this`checkConnectionArmed,
        this`maxConnectTimerArmed, this`tryReconnectTimerArmed, this`operations, this`log, this`unsentMessagesQueue,
        this`reconnecting, this`backoffAttempts
      ensures old(wasKeepAliveReceived) == Received ==>
        && wasKeepAliveReceived == NotReceived
        && unchanged(this`inactivityTimerArmed, this`closedByUser, this`checkConnectionArmed, this`maxConnectTimerArmed,
             this`tryReconnectTimerArmed, this`operations, this`log, this`unsentMessagesQueue, this`reconnecting,
             this`backoffAttempts)
      ensures old(wasKeepAliveReceived) != Received && !old(reconnecting) ==>
        wasKeepAliveReceived == old(wasKeepAliveReceived) && ClosedNonForced(true)
      ensures old(wasKeepAliveReceived) != Received && old(reconnecting) ==> unchanged(this)
    {
      if wasKeepAliveReceived == Received {
        wasKeepAliveReceived := NotReceived;
        return;
      }
      if !reconnecting {
        Close(false, true);
      }
    }

    /** The `ka` case of `processReceivedData`. */
    method OnKeepAlive()
      requires KeysIssued() && WatchdogConsistent()
      modifies this`wasKeepAliveReceived, this`inactivityTimerArmed, this`closedByUser, this`checkConnectionArmed,
        this`maxConnectTimerArmed, this`tryReconnectTimerArmed, this`operations, this`log, this`unsentMessagesQueue,
        this`reconnecting, this`backoffAttempts
      ensures KeepAliveApplied()
    {
      var firstKA := wasKeepAliveReceived == Unset;
      wasKeepAliveReceived := Received;
      if firstKA {
        CheckConnection();
      }
      if checkConnectionArmed {
        checkConnectionArmed := false;
        CheckConnection();
      }
      checkConnectionArmed := true;
    }

    // ------------------------------------------------------------ received messages

    /**
     * `processReceivedData`: dispatches on the message type as `ReactionTo` says; `threw`
     * is whether it throws.
     */
    method ProcessReceivedData(msg: Option<Message>) returns (threw: bool)
      requires KeysIssued() && WatchdogConsistent()
      modifies this`wasKeepAliveReceived, this`inactivityTimerArmed, this`closedByUser, this`checkConnectionArmed,
        this`maxConnectTimerArmed, this`tryReconnectTimerArmed, this`operations, this`log, this`unsentMessagesQueue,
        this`reconnecting, this`backoffAttempts, this`maxConnectAttempts
      ensures KeysIssued() && WatchdogConsistent()
      ensures var r := ReactionTo(msg, old(operations).Keys);
        && threw == r.Thrown?
        && (r.Ignored? || r.Thrown? ==> unchanged(this))
        && (r.ConnectionErrorReported? ==> OnlyLogged(if hasConnectionCallback then [ConnectionCallbackCalled(r.payload)] else []))
        && (r.Acknowledged? ==> AckApplied())
        && (r.Completed? ==> ReplyConsumed(r.key, HandlerCalled(old(operations)[r.key].handler, None, Null)))
        && (r.Failed? ==> ReplyConsumed(r.key, HandlerCalled(old(operations)[r.key].handler, Some(r.errors), Null)))
        && (r.Delivered? ==> OnlyLogged([HandlerCalled(old(operations)[r.key].handler, None, r.result)]))
        && (r.KeepAliveSeen? ==> KeepAliveApplied())
    {
      if msg.None? {
        return false;
      }
      var m := msg.value;
      var key := AddressedKey(m);
      if IsOperationReply(m) && !(key.Some? && key.value in operations) {
        if key.Some? {
          assert operations - {key.value} == operations;
          Unsubscribe(key.value);
        }
        return false;
      }
      var kind := KindOf(m);
      if kind == Some(GqlConnectionError) {
        ReportConnectionError(m.payload);
      } else if kind == Some(GqlConnectionAck) {
        Acknowledge();
      } else if kind == Some(GqlComplete) {
        ConsumeReply(key.value, None);
      } else if kind == Some(GqlError) {
        ConsumeReply(key.value, Some(FormatErrors(m.payload)));
      } else if kind == Some(GqlData) {
        if m.payload in {Null, Undefined} {
          return true;
        }
        Deliver(key.value, DataPayload(m.payload));
      } else if kind == Some(GqlConnectionKeepAlive) {
        OnKeepAlive();
      } else {
        return true;
      }
      return false;
    }

    /** The `connection_error` case: the payload goes to the connection callback, if there is one. */
    method ReportConnectionError(payload: JsValue)
      modifies this`log
      ensures OnlyLogged(if hasConnectionCallback then [ConnectionCallbackCalled(payload)] else [])
    {
      if hasConnectionCallback {
        log := log + [ConnectionCallbackCalled(payload)];
      }
    }

    /** The `connection_ack` case. */
    method Acknowledge()
      modifies this`log, this`reconnecting, this`backoffAttempts, this`maxConnectAttempts
      ensures AckApplied()
    {
      log := log + [Emitted(if reconnecting then EventReconnected else EventConnected)];
      reconnecting := false;
      backoffAttempts := 0;
      maxConnectAttempts := 0;
      if hasConnectionCallback {
        log := log + [ConnectionCallbackCalled(Undefined)];
      }
    }

    /** The `complete` (no errors) and `error` cases: the handler gets `(errors, null)` and the operation is removed. */
    method ConsumeReply(k: nat, errors: Option<seq<JsValue>>)
      requires k in operations
      modifies this`log, this`operations
      ensures operations.Keys <= old(operations).Keys
      ensures ReplyConsumed(k, HandlerCalled(old(operations)[k].handler, errors, Null))
    {
      log := log + [HandlerCalled(operations[k].handler, errors, Null)];
      operations := operations - {k};
    }

    /** The `data` case once the payload could be read: the handler gets `(null, result)`. */
    method Deliver(k: nat, result: JsValue)
      requires k in operations
      modifies this`log
      ensures OnlyLogged([HandlerCalled(operations[k].handler, None, result)])
    {
      log := log + [HandlerCalled(operations[k].handler, None, result)];
    }
  }
}
