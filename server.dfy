/**
 * The server protocol engine `RpcMainInstance`: one transport, one connection context
 * holding the operation registry, the dialect flag and the outcome of `onConnect`, and
 * the handlers it installs on the transport. Each method is proved to move the registry
 * and the effect log exactly as the matching function of `ServerValues` says.
 */
module RpcServer {
  import opened Wrappers
  import opened JsValues
  import opened MessageTypes
  import opened Protocol
  import opened ServerValues

  /** The server options the engine inspects (`rootValue`, `subscribe` and the rules are handed on untouched). */
  datatype ServerOptions = ServerOptions(hasExecute: bool, hasSchema: bool, hooks: Hooks)

  /** What `loadExecutor` keeps: whether a static schema was supplied. */
  datatype Executor = Executor(hasSchema: bool)

  const MissingExecute: string := "Must provide `execute` for websocket server constructor."

  /** `loadExecutor`: the executor, or the error it throws when `execute` is missing. */
  function LoadExecutor(options: ServerOptions): Result<Executor, JsValue> {
    if !options.hasExecute then Err(NewError(MissingExecute)) else Ok(Executor(options.hasSchema))
  }

  /** The connection context `_connectionHandler` creates and every handler shares. */
  class ConnectionContext {
    /** `operations`, keyed by the client's operation id. */
    var operations: map<string, Subscription>
    /** `isLegacy`, which the legacy translation sets. */
    var isLegacy: bool
    /** How `initPromise` settles: `Ok` when it resolves, `Err` when it rejects. */
    var initOutcome: Result<JsValue, JsValue>

    constructor()
      ensures operations == map[] && !isLegacy && initOutcome == Ok(Bool(true))
    {
      operations := map[];
      isLegacy := false;
      initOutcome := Ok(Bool(true));
    }
  }

  class RpcMainInstance {
    const hooks: Hooks
    const executor: Executor
    const ctx: ConnectionContext
    /** What the server has done so far that can be observed from outside. */
    var log: seq<ServerEffect>

    /** The registry and the log, as the functions of `ServerValues` see them. */
    function State(): Trace
      reads this`log, ctx`operations
    {
      Trace(ctx.operations, log)
    }

    /** Without `onConnect` the init promise stays the `true` it was created with. */
    predicate InitKept()
      reads ctx`initOutcome
    {
      !hooks.onConnect ==> ctx.initOutcome == Ok(Bool(true))
    }

    constructor(executor: Executor, hooks: Hooks)
      ensures this.executor == executor && this.hooks == hooks
      ensures fresh(ctx) && ctx.operations == map[] && !ctx.isLegacy && ctx.initOutcome == Ok(Bool(true))
      ensures log == [] && InitKept()
    {
      this.executor := executor;
      this.hooks := hooks;
      ctx := new ConnectionContext();
      log := [];
    }

    /** `new RpcMainInstance(transport, options)`: the executor is loaded before the context exists. */
    static method Create(options: ServerOptions) returns (r: Result<RpcMainInstance, JsValue>)
      ensures r.Err? <==> !options.hasExecute
      ensures r.Err? ==> r.error == NewError(MissingExecute)
      ensures r.Ok? ==> fresh(r.value) && fresh(r.value.ctx) && r.value.State() == Trace(map[], [])
      ensures r.Ok? ==> r.value.hooks == options.hooks && r.value.executor.hasSchema == options.hasSchema && r.value.InitKept()
    {
      match LoadExecutor(options)
      case Err(e) =>
        r := Err(e);
      case Ok(executor) =>
        var server := new RpcMainInstance(executor, options.hooks);
        r := Ok(server);
    }

    // ---------------------------------------------------------------- sending

    /** `sendMessage`; the legacy translation of outgoing messages is not modelled. */
    method SendMessage(id: Option<string>, kind: MessageKind, payload: JsValue)
      modifies this`log
      ensures log == old(log) + [Sent(Message(id, ToString(kind), payload))]
    {
      log := log + [Sent(Message(id, ToString(kind), payload))];
    }

    /** `sendError`: sends, or throws (the error is returned) for a type other than the two error kinds. */
    method SendError(id: Option<string>, payload: JsValue, override: Option<string>) returns (thrown: Option<JsValue>)
      modifies this`log
      ensures match ErrorMessage(id, payload, override)
        case Ok(msg) => log == old(log) + [Sent(msg)] && thrown.None?
        case Err(e) => log == old(log) && thrown == Some(e)
    {
      var sanitized := if override.Some? && override.value != "" then override.value else ToString(GqlError);
      if sanitized != ToString(GqlConnectionError) && sanitized != ToString(GqlError) {
        return Some(NewError(DisallowedErrorType));
      }
      log := log + [Sent(Message(id, sanitized, payload))];
      thrown := None;
    }

    /** `sendError` at the call sites, which pass no override or `connection_error` and so never throw. */
    method ReportError(id: Option<string>, payload: JsValue, kind: MessageKind)
      requires kind == GqlError || kind == GqlConnectionError
      modifies this`log
      ensures State() == SendErr(old(State()), id, payload, kind)
    {
      ErrorCallSitesSend(id, payload);
      var thrown := SendError(id, payload, if kind == GqlError then None else Some(ToString(kind)));
    }

    /** `sendKeepAlive`, in the dialect the connection speaks. */
    method SendKeepAlive()
      modifies this`log
      ensures log == old(log) + [Sent(Message(None, ToString(KeepAliveKind(ctx.isLegacy)), Undefined))]
    {
      if ctx.isLegacy {
        SendMessage(None, KeepAlive, Undefined);
      } else {
        SendMessage(None, GqlConnectionKeepAlive, Undefined);
      }
    }

    // ---------------------------------------------------------------- unsubscribe, onClose

    /** `unsubscribe(ctx, key)`. */
    method Unsubscribe(key: string)
      modifies this`log, ctx`operations
      ensures State() == AfterUnsubscribe(old(State()), key, hooks.onOperationComplete)
    {
      if key in ctx.operations {
        if ctx.operations[key].hasReturn {
          log := log + [ReturnCalled(key)];
        }
        ctx.operations := ctx.operations - {key};
        if hooks.onOperationComplete {
          log := log + [OperationCompleted(key)];
        }
      }
    }

    /**
     * `onClose`: unsubscribes every registered key. The order of `Object.keys` over
     * client-chosen ids is not modelled; `order` is the order this run took.
     */
    method OnClose() returns (ghost order: seq<string>)
      modifies this`log, ctx`operations
      ensures Distinct(order) && (forall k :: k in order <==> k in old(ctx.operations))
      ensures State() == TeardownAll(old(State()), order, hooks.onOperationComplete)
      ensures ctx.operations == map[]
    {
      ghost var start := State();
      var remaining := ctx.operations.Keys;
      order := [];
      while remaining != {}
        invariant remaining <= start.ops.Keys
        invariant Distinct(order)
        invariant forall k :: k in order <==> k in start.ops && k !in remaining
        invariant State() == TeardownAll(start, order, hooks.onOperationComplete)
        decreases remaining
      {
        var key :| key in remaining;
        TeardownAllSnoc(start, order, key, hooks.onOperationComplete);
        Unsubscribe(key);
        order := order + [key];
        remaining := remaining - {key};
      }
      RemoveAllEmpties(start.ops, order);
    }

    /** The handler installed for both `onclose` and `onerror`. */
    method ConnectionClosed(error: JsValue) returns (ghost order: seq<string>)
      modifies this`log, ctx`operations
      ensures Distinct(order) && (forall k :: k in order <==> k in old(ctx.operations))
      ensures State() == AfterConnectionClosed(old(State()), error, order, hooks)
      ensures ctx.operations == map[]
    {
      ghost var start := State();
      if Truthy(error) {
        ReportError(Some(""), MessageObject(ClosingMessage(error)), GqlConnectionError);
      }
      order := OnClose();
      if hooks.onDisconnect {
        log := log + [DisconnectHookCalled];
      }
      ConnectionClosedSteps(start, error, order, hooks);
    }

    // ---------------------------------------------------------------- onMessage

    /** The handler `onMessage` installs, on one received message as the legacy translation parsed it. */
    method OnMessage(parse: LegacyParse, connect: Result<JsValue, JsValue>, inputs: StartInputs)
      requires InitKept()
      modifies this`log, ctx`operations, ctx`isLegacy, ctx`initOutcome
      ensures State() == AfterMessage(old(State()), old(ctx.initOutcome), hooks, executor.hasSchema, parse, connect, inputs)
      ensures ctx.initOutcome == InitAfterMessage(old(ctx.initOutcome), hooks, parse, connect)
      ensures ctx.isLegacy == if parse.Parsed? then parse.isLegacy else old(ctx.isLegacy)
      ensures InitKept()
    {
      if parse.ParseThrew? {
        if !Nullish(parse.error) {
          ReportError(None, MessageObject(MessageOf(parse.error)), GqlConnectionError);
        }
        return;
      }
      ctx.isLegacy := parse.isLegacy;
      if parse.message.None? {
        return;
      }
      var m := parse.message.value;
      var kind := KindOf(m);
      if kind == Some(GqlConnectionInit) {
        Init(m, connect);
      } else if kind == Some(GqlConnectionTerminate) {
        log := log + [TransportClosed(None)];
      } else if kind == Some(GqlStart) {
        Start(m, inputs);
      } else if kind == Some(GqlStop) {
        Unsubscribe(Key(m.id));
      } else {
        ReportError(m.id, MessageObject(Str("Invalid message type!")), GqlError);
      }
    }

    /** The `connection_init` case: `onConnect` replaces the init promise, then the promise is answered. */
    method Init(m: Message, connect: Result<JsValue, JsValue>)
      requires InitKept()
      modifies this`log, ctx`initOutcome
      ensures ctx.initOutcome == InitAfter(old(ctx.initOutcome), hooks, connect)
      ensures log == AfterInit(Trace(ctx.operations, old(log)), m, old(ctx.initOutcome), hooks, connect).log
      ensures InitKept()
    {
      if hooks.onConnect {
        log := log + [ConnectHookCalled(m.payload)];
        ctx.initOutcome := connect;
      }
      ghost var called := log;
      match ctx.initOutcome {
        case Ok(result) =>
          if result == Bool(false) {
            ReportError(m.id, MessageObject(Str(ProhibitedConnection)), GqlConnectionError);
            log := log + [TransportClosed(Some(1011))];
          } else {
            SendMessage(None, GqlConnectionAck, Undefined);
          }
        case Err(e) =>
          if !Nullish(e) {
            ReportError(m.id, MessageObject(MessageOf(e)), GqlConnectionError);
            log := log + [TransportClosed(Some(1011))];
          }
      }
      assert log == called + InitReply(m.id, ctx.initOutcome);
    }

    /** The `start` case, from the settled init promise to the registration of the results. */
    method Start(m: Message, inputs: StartInputs)
      modifies this`log, ctx`operations
      ensures State() == AfterStart(old(State()), m, ctx.initOutcome, hooks, executor.hasSchema, inputs)
    {
      match ctx.initOutcome {
        case Err(e) =>
          InitChainRejected(m.id, e);
        case Ok(initResult) =>
          Unsubscribe(Key(m.id));
          if Nullish(m.payload) {
            InitChainRejected(m.id, ReadError(inputs));
          } else {
            ctx.operations := ctx.operations[Key(m.id) := inputs.placeholder];
            Placed(m, initResult, inputs);
          }
      }
    }

    /** The part of `start` after the placeholder is registered. */
    method Placed(m: Message, initResult: JsValue, inputs: StartInputs)
      modifies this`log, ctx`operations
      ensures State() == AfterPlaced(old(State()), m, initResult, hooks, executor.hasSchema, inputs)
    {
      if !hooks.onOperation {
        ContinueWithParams(m.id, DefaultParams, inputs);
      } else {
        log := log + [OperationHookCalled(m, BaseParamsOf(m, initResult))];
        match inputs.hook {
          case HookThrew(e) =>
            InitChainRejected(m.id, e);
          case HookRejected(e) =>
            InitChainRejected(m.id, e);
            OperationChainRejected(m.id, e);
          case HookReturned(p) =>
            ContinueWithParams(m.id, HookParams(p), inputs);
        }
      }
    }

    /** The chain on the settled params: the checks, the execution, and the registration of its results. */
    method ContinueWithParams(id: Option<string>, params: Params, inputs: StartInputs)
      modifies this`log, ctx`operations
      ensures State() == RunParams(old(State()), id, params, executor.hasSchema, inputs, hooks.onOperationComplete)
    {
      match ParamsProblemOf(params, executor.hasSchema) {
        case Some(NotAnObject) =>
          ReportError(id, MessageObject(Str(InvalidParams)), GqlError);
          OperationChainRejected(id, NewError(InvalidParams));
        case Some(NoSchema) =>
          ReportError(id, MessageObject(Str(MissingSchema)), GqlError);
          OperationChainRejected(id, NewError(MissingSchema));
        case Some(ReadOnNull) =>
          OperationChainRejected(id, ReadError(inputs));
        case None =>
          match inputs.execution {
            case ExecutionFailed(e) =>
              OperationChainRejected(id, e);
            case ExecutionStarted(results) =>
              ctx.operations := ctx.operations[Key(id) := results];
              SendMessage(id, SubscriptionSuccess, Undefined);
          }
      }
    }

    /** The `catch` ending the chain that runs the operation; it throws on reading a `Nullish` value. */
    method OperationChainRejected(id: Option<string>, e: JsValue)
      modifies this`log, ctx`operations
      ensures State() == InnerCatch(old(State()), id, e, hooks.onOperationComplete)
    {
      if Nullish(e) {
        return;
      }
      var errors := Get(e, "errors");
      if Truthy(errors) {
        SendMessage(id, GqlData, Obj([Prop("errors", errors)]));
      } else {
        ReportError(id, MessageObject(MessageOf(e)), GqlError);
      }
      Unsubscribe(Key(id));
    }

    /** The `catch` on the init promise's `then`; it throws on reading a `Nullish` value. */
    method InitChainRejected(id: Option<string>, e: JsValue)
      modifies this`log, ctx`operations
      ensures State() == OuterCatch(old(State()), id, e, hooks.onOperationComplete)
    {
      if Nullish(e) {
        return;
      }
      ReportError(id, MessageObject(MessageOf(e)), GqlError);
      Unsubscribe(Key(id));
    }

    // ---------------------------------------------------------------- results

    /**
     * `forAwaitEach` over the results of a started operation: one `data` per result, then
     * `complete`, or the `error` the iteration failed with. The registry is left as it is.
     */
    method DeliverResults(id: Option<string>, items: seq<StreamItem>, end: StreamEnd)
      modifies this`log
      ensures log == old(log) + StreamMessages(id, items, end)
    {
      var i := 0;
      while i < |items|
        invariant 0 <= i <= |items|
        invariant log == old(log) + DataMessages(id, items[..i])
      {
        assert items[..i + 1][..i] == items[..i];
        SendMessage(id, GqlData, ResponseOf(items[i]));
        i := i + 1;
      }
      assert items[..i] == items;
      match end {
        case Exhausted =>
          SendMessage(id, GqlComplete, Null);
        case StreamFailed(e, formatted) =>
          var payload := FailurePayload(e, formatted);
          if payload.Some? {
            ReportError(id, payload.value, GqlError);
          }
      }
    }
  }
}
