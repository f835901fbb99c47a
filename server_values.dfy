/**
 * The server engine's behaviour as functions of its state: what `unsubscribe`, the
 * close handler, `sendError`, `sendKeepAlive` and each branch of `onMessage` do to the
 * operation registry of the connection and to the log of effects. The class in
 * `RpcServer` is proved to follow these functions, and the lemmas here state what the
 * server promises about them.
 */
module ServerValues {
  import opened Wrappers
  import opened JsValues
  import opened MessageTypes
  import opened Protocol

  // ---------------------------------------------------------------- state and effects

  /**
   * A registered execution iterator. The iterators come from the GraphQL engine or from
   * `createEmptyIterable`; a token tells them apart, and `hasReturn` is whether calling
   * `return` is possible.
   */
  datatype Subscription = Subscription(token: nat, hasReturn: bool)

  /** Which of the optional callbacks of the server options are present. */
  datatype Hooks = Hooks(onConnect: bool, onOperation: bool, onDisconnect: bool, onOperationComplete: bool)

  /** What the server does that can be observed from outside, in order. */
  datatype ServerEffect =
    | Sent(m: Message)                                  // `transport.send`
    | ReturnCalled(key: string)                         // `operations[opId].return()`
    | OperationCompleted(key: string)                   // `onOperationComplete(transport, opId)`
    | ConnectHookCalled(payload: JsValue)               // `onConnect(payload, transport, ctx)`
    | OperationHookCalled(m: Message, base: BaseParams) // `onOperation(message, baseParams, transport)`
    | DisconnectHookCalled                              // `onDisconnect(ctx)`
    | TransportClosed(code: Option<nat>)                // `transport.close(code?)`

  /** The parts of `baseParams` a callback can see (the schema is the server's own). */
  datatype BaseParams = BaseParams(query: JsValue, variables: JsValue, operationName: JsValue, context: JsValue)

  /** The connection's operation registry together with the effect log. */
  datatype Trace = Trace(ops: map<string, Subscription>, log: seq<ServerEffect>)

  function Emit(t: Trace, e: ServerEffect): Trace {
    Trace(t.ops, t.log + [e])
  }

  /** The registry key of a message id: a missing id is the property name `"undefined"`. */
  function Key(id: Option<string>): string {
    id.GetOr("undefined")
  }

  /** `error.message` of a thrown value. */
  function MessageOf(e: JsValue): JsValue {
    Get(e, "message")
  }

  // ---------------------------------------------------------------- sendError, sendKeepAlive

  /** `overrideDefaultErrorType || GQL_ERROR`: a missing or empty override means `error`. */
  function ErrorType(override: Option<string>): string {
    if override.Some? && override.value != "" then override.value else ToString(GqlError)
  }

  const DisallowedErrorType: string :=
    "overrideDefaultErrorType should be one of the allowed error messages GQL_CONNECTION_ERROR or GQL_ERROR"

  /**
   * `sendError`: the error message it sends, or the error it throws (before sending
   * anything) when the type is neither `connection_error` nor `error`.
   */
  function ErrorMessage(id: Option<string>, payload: JsValue, override: Option<string>): (r: Result<Message, JsValue>)
  {
    var t := ErrorType(override);
    if t == ToString(GqlConnectionError) || t == ToString(GqlError) then Ok(Message(id, t, payload))
    else Err(NewError(DisallowedErrorType))
  }

  /**
   * `sendError` sends exactly when the type it settles on decodes to one of the two error
   * kinds; without an override, or with an empty one, that type is `error`.
   */
  lemma ErrorMessageGuard(id: Option<string>, payload: JsValue, override: Option<string>)
    ensures var r := ErrorMessage(id, payload, override);
      && (r.Ok? <==> FromString(ErrorType(override)) in {Some(GqlConnectionError), Some(GqlError)})
      && (r.Ok? ==> r.value.id == id && r.value.payload == payload && KindOf(r.value) in {Some(GqlConnectionError), Some(GqlError)})
      && (override.None? || override == Some("") ==> r == Ok(Message(id, "error", payload)))
  {
    var t := ErrorType(override);
    FromStringSound(t);
    ToStringRoundTrip(GqlConnectionError);
    ToStringRoundTrip(GqlError);
  }

  /** The message `sendError` sends for one of the two error kinds. */
  function ErrorOf(id: Option<string>, payload: JsValue, kind: MessageKind): Message {
    Message(id, ToString(kind), payload)
  }

  /** The call sites of `sendError` pass no override or `connection_error`, so none of them throws. */
  lemma ErrorCallSitesSend(id: Option<string>, payload: JsValue)
    ensures ErrorMessage(id, payload, None) == Ok(ErrorOf(id, payload, GqlError))
    ensures ErrorMessage(id, payload, Some(ToString(GqlConnectionError))) == Ok(ErrorOf(id, payload, GqlConnectionError))
  {
  }

  function SendErr(t: Trace, id: Option<string>, payload: JsValue, kind: MessageKind): Trace {
    Emit(t, Sent(ErrorOf(id, payload, kind)))
  }

  /** `sendKeepAlive`: the legacy dialect gets `keepalive`, the current one `ka`. */
  function KeepAliveKind(isLegacy: bool): MessageKind {
    if isLegacy then KeepAlive else GqlConnectionKeepAlive
  }

  lemma KeepAliveDialects()
    ensures ToString(KeepAliveKind(true)) == "keepalive" && ToString(KeepAliveKind(false)) == "ka"
    ensures FromString(ToString(KeepAliveKind(true))) != FromString(ToString(KeepAliveKind(false)))
  {
    ToStringRoundTrip(KeepAlive);
    ToStringRoundTrip(GqlConnectionKeepAlive);
  }

  // ---------------------------------------------------------------- unsubscribe, onClose

  /** The effects of `unsubscribe(ctx, key)` on a registry. */
  function Teardown(ops: map<string, Subscription>, key: string, notify: bool): seq<ServerEffect> {
    if key !in ops then []
    else (if ops[key].hasReturn then [ReturnCalled(key)] else []) + (if notify then [OperationCompleted(key)] else [])
  }

  /** `unsubscribe(ctx, key)`; `notify` is whether `onOperationComplete` is set. */
  function AfterUnsubscribe(t: Trace, key: string, notify: bool): Trace {
    Trace(t.ops - {key}, t.log + Teardown(t.ops, key, notify))
  }

  /**
   * `unsubscribe` on a registered key calls `return` if there is one, removes that key and
   * no other, and reports the completion once; on an unregistered key it does nothing, so
   * a second call changes nothing.
   */
  lemma UnsubscribeSpec(t: Trace, key: string, notify: bool)
    ensures var r := AfterUnsubscribe(t, key, notify);
      && r.ops == t.ops - {key}
      && (key !in t.ops ==> r == t)
      && (key in t.ops ==>
            && (ReturnCalled(key) in Teardown(t.ops, key, notify) <==> t.ops[key].hasReturn)
            && multiset(Teardown(t.ops, key, notify))[OperationCompleted(key)] == (if notify then 1 else 0))
      && AfterUnsubscribe(r, key, notify) == r
  {
    var r := AfterUnsubscribe(t, key, notify);
    assert r.ops - {key} == r.ops;
  }

  /** The registry once the keys of `order` are removed one after the other. */
  function RemoveAll(ops: map<string, Subscription>, order: seq<string>): map<string, Subscription> {
    if order == [] then ops else RemoveAll(ops, order[..|order| - 1]) - {order[|order| - 1]}
  }

  /** The effects of `unsubscribe` for each key of `order` in turn. */
  function TeardownEffects(ops: map<string, Subscription>, order: seq<string>, notify: bool): seq<ServerEffect> {
    if order == [] then []
    else
      var init := order[..|order| - 1];
      TeardownEffects(ops, init, notify) + Teardown(RemoveAll(ops, init), order[|order| - 1], notify)
  }

  /** `onClose`: `unsubscribe` for each key in `order`, one after the other. */
  function TeardownAll(t: Trace, order: seq<string>, notify: bool): Trace {
    Trace(RemoveAll(t.ops, order), t.log + TeardownEffects(t.ops, order, notify))
  }

  /** One more `unsubscribe` extends the teardown by that key. */
  lemma TeardownAllSnoc(t: Trace, order: seq<string>, key: string, notify: bool)
    ensures AfterUnsubscribe(TeardownAll(t, order, notify), key, notify) == TeardownAll(t, order + [key], notify)
  {
    assert (order + [key])[..|order|] == order;
  }

  predicate Distinct(order: seq<string>) {
    forall i, j :: 0 <= i < j < |order| ==> order[i] != order[j]
  }

  /** A key survives the removals exactly when it was there and `order` does not name it. */
  lemma {:induction false} RemoveAllSpec(ops: map<string, Subscription>, order: seq<string>, k: string)
    ensures k in RemoveAll(ops, order) <==> k in ops && k !in order
  {
    if order != [] {
      var init := order[..|order| - 1];
      RemoveAllSpec(ops, init, k);
      assert order == init + [order[|order| - 1]];
    }
  }

  /** Removing every registered key leaves the registry empty. */
  lemma RemoveAllEmpties(ops: map<string, Subscription>, order: seq<string>)
    requires forall o :: o in ops ==> o in order
    ensures RemoveAll(ops, order) == map[]
  {
    forall k | k in RemoveAll(ops, order) ensures false {
      RemoveAllSpec(ops, order, k);
    }
  }

  /** A teardown only calls `return` and reports completions. */
  lemma {:induction false} TeardownEffectsKinds(ops: map<string, Subscription>, order: seq<string>, notify: bool)
    ensures forall e :: e in TeardownEffects(ops, order, notify) ==> e.ReturnCalled? || e.OperationCompleted?
  {
    if order != [] {
      TeardownEffectsKinds(ops, order[..|order| - 1], notify);
    }
  }

  /** The last key of a list without repeats occurs nowhere before it. */
  lemma DistinctSnoc(order: seq<string>)
    requires Distinct(order) && order != []
    ensures Distinct(order[..|order| - 1]) && order[|order| - 1] !in order[..|order| - 1]
  {
    var init := order[..|order| - 1];
    forall i | 0 <= i < |init| ensures init[i] != order[|order| - 1] {
      assert order[i] == init[i];
    }
  }

  /** One `unsubscribe` reports a completion only for its own key, and only when that key is registered. */
  lemma TeardownCount(ops: map<string, Subscription>, key: string, notify: bool, k: string)
    ensures multiset(Teardown(ops, key, notify))[OperationCompleted(k)] == if notify && key in ops && k == key then 1 else 0
  {
  }

  /** Tearing down distinct keys reports one completion for each of them that was registered. */
  lemma {:induction false} TeardownEffectsCount(ops: map<string, Subscription>, order: seq<string>, notify: bool, k: string)
    requires Distinct(order)
    ensures multiset(TeardownEffects(ops, order, notify))[OperationCompleted(k)]
      == if notify && k in ops && k in order then 1 else 0
  {
    if order != [] {
      var init := order[..|order| - 1];
      var last := order[|order| - 1];
      DistinctSnoc(order);
      TeardownEffectsCount(ops, init, notify, k);
      RemoveAllSpec(ops, init, last);
      TeardownCount(RemoveAll(ops, init), last, notify, k);
      assert order == init + [last];
      assert k in order <==> k in init || k == last;
    }
  }

  /** The message the close and error handler puts in its `connection_error`. */
  function ClosingMessage(error: JsValue): JsValue {
    if Truthy(Get(error, "message")) then Get(error, "message") else error
  }

  /**
   * What the handler `_connectionHandler` installs for both `onclose` and `onerror` adds
   * to the log: a `connection_error` with an empty id when an error is supplied, then the
   * teardown of `onClose` (the keys in `order`), then `onDisconnect`.
   */
  function ClosingEffects(ops: map<string, Subscription>, error: JsValue, order: seq<string>, hooks: Hooks): seq<ServerEffect> {
    (if Truthy(error) then [Sent(ErrorOf(Some(""), MessageObject(ClosingMessage(error)), GqlConnectionError))] else [])
    + TeardownEffects(ops, order, hooks.onOperationComplete)
    + (if hooks.onDisconnect then [DisconnectHookCalled] else [])
  }

  function AfterConnectionClosed(t: Trace, error: JsValue, order: seq<string>, hooks: Hooks): Trace {
    Trace(RemoveAll(t.ops, order), t.log + ClosingEffects(t.ops, error, order, hooks))
  }

  /** The close handler is the error report, then `onClose`, then `onDisconnect`. */
  lemma ConnectionClosedSteps(t: Trace, error: JsValue, order: seq<string>, hooks: Hooks)
    ensures var reported := if Truthy(error) then SendErr(t, Some(""), MessageObject(ClosingMessage(error)), GqlConnectionError) else t;
      var closed := TeardownAll(reported, order, hooks.onOperationComplete);
      AfterConnectionClosed(t, error, order, hooks) == if hooks.onDisconnect then Emit(closed, DisconnectHookCalled) else closed
  {
  }

  /**
   * When `order` enumerates the registry, the close handler empties it and reports one
   * completion per registered operation.
   */
  lemma ConnectionClosedEmpties(t: Trace, error: JsValue, order: seq<string>, hooks: Hooks, k: string)
    requires Distinct(order) && forall o :: o in order <==> o in t.ops
    ensures AfterConnectionClosed(t, error, order, hooks).ops == map[]
    ensures multiset(ClosingEffects(t.ops, error, order, hooks))[OperationCompleted(k)]
      == if hooks.onOperationComplete && k in t.ops then 1 else 0
  {
    RemoveAllEmpties(t.ops, order);
    TeardownEffectsCount(t.ops, order, hooks.onOperationComplete, k);
  }

  /**
   * The only message the close handler sends is a first `connection_error`, exactly when
   * an error was supplied; `onDisconnect` is called once it is set, and last.
   */
  lemma ConnectionClosedOrder(ops: map<string, Subscription>, error: JsValue, order: seq<string>, hooks: Hooks)
    ensures var added := ClosingEffects(ops, error, order, hooks);
      && (Truthy(error) ==> added[0] == Sent(ErrorOf(Some(""), MessageObject(ClosingMessage(error)), GqlConnectionError)))
      && (forall i :: 0 <= i < |added| && added[i].Sent? ==> Truthy(error) && i == 0)
      && (DisconnectHookCalled in added <==> hooks.onDisconnect)
      && (hooks.onDisconnect ==> added[|added| - 1] == DisconnectHookCalled)
  {
    TeardownEffectsKinds(ops, order, hooks.onOperationComplete);
    var first := if Truthy(error) then [Sent(ErrorOf(Some(""), MessageObject(ClosingMessage(error)), GqlConnectionError))] else [];
    var middle := TeardownEffects(ops, order, hooks.onOperationComplete);
    var last := if hooks.onDisconnect then [DisconnectHookCalled] else [];
    var added := ClosingEffects(ops, error, order, hooks);
    assert added == first + middle + last;
    forall i | |first| <= i < |first| + |middle| ensures !added[i].Sent? {
      assert added[i] == middle[i - |first|];
      assert middle[i - |first|] in middle;
    }
    assert DisconnectHookCalled !in middle;
  }

  // ---------------------------------------------------------------- CONNECTION_INIT

  const ProhibitedConnection: string := "Prohibited connection!"

  /** The init outcome after a `connection_init`: `onConnect`'s settled result when it is set, else the previous one. */
  function InitAfter(previous: Result<JsValue, JsValue>, hooks: Hooks, connect: Result<JsValue, JsValue>): Result<JsValue, JsValue> {
    if hooks.onConnect then connect else previous
  }

  /**
   * What the `then` and `catch` on the init promise add to the log: an acknowledgement,
   * or a `connection_error` followed by `close(1011)`. A rejection with a `Nullish` value
   * makes the `catch` throw on `error.message` before it sends or closes anything.
   */
  function InitReply(id: Option<string>, outcome: Result<JsValue, JsValue>): seq<ServerEffect> {
    match outcome
    case Ok(result) =>
      if result == Bool(false)
      then [Sent(ErrorOf(id, MessageObject(Str(ProhibitedConnection)), GqlConnectionError)), TransportClosed(Some(1011))]
      else [Sent(Message(None, ToString(GqlConnectionAck), Undefined))]
    case Err(e) =>
      if Nullish(e) then []
      else [Sent(ErrorOf(id, MessageObject(MessageOf(e)), GqlConnectionError)), TransportClosed(Some(1011))]
  }

  /** The `connection_init` branch of `onMessage`. */
  function AfterInit(t: Trace, m: Message, previous: Result<JsValue, JsValue>, hooks: Hooks, connect: Result<JsValue, JsValue>): Trace {
    var called := if hooks.onConnect then Emit(t, ConnectHookCalled(m.payload)) else t;
    Trace(called.ops, called.log + InitReply(m.id, InitAfter(previous, hooks, connect)))
  }

  /**
   * The init outcome is accepted unless it is exactly `false` or a rejection. Acceptance
   * sends one `connection_ack` and nothing else (in particular no keep-alive); refusal
   * sends one `connection_error`, naming `Prohibited connection!` for `false` and the
   * rejection's message otherwise, and closes the transport with code 1011. A rejection
   * with `null` or `undefined` is neither answered nor closed.
   */
  lemma InitReplySpec(id: Option<string>, outcome: Result<JsValue, JsValue>)
    ensures var r := InitReply(id, outcome);
      var accepted := outcome.Ok? && outcome.value != Bool(false);
      var silent := outcome.Err? && Nullish(outcome.error);
      && (accepted ==> |r| == 1 && r[0].Sent? && KindOf(r[0].m) == Some(GqlConnectionAck))
      && (silent ==> r == [])
      && (!accepted && !silent ==>
            && |r| == 2 && r[0].Sent? && KindOf(r[0].m) == Some(GqlConnectionError) && r[0].m.id == id
            && r[1] == TransportClosed(Some(1011)))
      && (outcome == Ok(Bool(false)) ==> r[0].m.payload == MessageObject(Str(ProhibitedConnection)))
      && (outcome.Err? && !silent ==> r[0].m.payload == MessageObject(Get(outcome.error, "message")))
      && (forall e :: e in r && e.Sent? ==> KindOf(e.m) != Some(GqlConnectionKeepAlive) && KindOf(e.m) != Some(KeepAlive))
  {
    ToStringRoundTrip(GqlConnectionAck);
    ToStringRoundTrip(GqlConnectionError);
  }

  /** Without `onConnect` the init outcome stays the initial `true`, so every `connection_init` is acknowledged. */
  lemma DefaultInitAccepts(t: Trace, m: Message, hooks: Hooks, connect: Result<JsValue, JsValue>)
    requires !hooks.onConnect
    ensures InitAfter(Ok(Bool(true)), hooks, connect) == Ok(Bool(true))
    ensures AfterInit(t, m, Ok(Bool(true)), hooks, connect)
      == Trace(t.ops, t.log + [Sent(Message(None, ToString(GqlConnectionAck), Undefined))])
  {
  }

  // ---------------------------------------------------------------- START

  /** What `onOperation` does, when it is set: throw, return a promise that rejects, or settle with params. */
  datatype HookOutcome = HookThrew(error: JsValue) | HookRejected(error: JsValue) | HookReturned(params: JsValue)

  /**
   * Parsing the query, validating it and calling the executor, taken together: the error
   * thrown or rejected with, or the iterator over the results (a single result, the
   * validation errors included, is wrapped in one).
   */
  datatype Execution = ExecutionFailed(error: JsValue) | ExecutionStarted(results: Subscription)

  /** The outcomes of the foreign calls a START makes. */
  datatype StartInputs = StartInputs(
    placeholder: Subscription,  // what `createEmptyIterable` returns
    readMessage: string,        // the message of the `TypeError` a property read on `null` or `undefined` throws
    hook: HookOutcome,
    execution: Execution)

  /** The `TypeError` a property read on `null` or `undefined` throws. */
  function ReadError(inputs: StartInputs): JsValue {
    Error("TypeError", inputs.readMessage, [])
  }

  /** The params the chain continues with: `baseParams` itself, or what `onOperation` settled with. */
  datatype Params = DefaultParams | HookParams(value: JsValue)

  datatype ParamsProblem = NotAnObject | ReadOnNull | NoSchema

  const InvalidParams: string := "Invalid params returned from onOperation! return values must be an object!"
  const MissingSchema: string := "Missing schema information. The GraphQL schema should be provided either statically in"
    + " the `SubscriptionServer` constructor or as a property on the object returned from onOperation!"

  /**
   * The checks on the params: `typeof params !== 'object'`, then `!params.schema` (which
   * throws on `null`); `baseParams` carries the server's own schema.
   */
  function ParamsProblemOf(params: Params, hasSchema: bool): Option<ParamsProblem> {
    match params
    case DefaultParams => if hasSchema then None else Some(NoSchema)
    case HookParams(v) =>
      if !(v.Null? || IsObject(v)) then Some(NotAnObject)
      else if v.Null? then Some(ReadOnNull)
      else if !Truthy(Get(v, "schema")) then Some(NoSchema)
      else None
  }

  /**
   * The `catch` that ends the chain running the operation: GraphQL errors go out as `data`,
   * anything else as `error`. On a `Nullish` value the read of `e.errors` throws first.
   */
  function InnerCatch(t: Trace, id: Option<string>, e: JsValue, notify: bool): Trace {
    if Nullish(e) then t else
    var errors := Get(e, "errors");
    var reported :=
      if Truthy(errors) then Emit(t, Sent(Message(id, ToString(GqlData), Obj([Prop("errors", errors)]))))
      else SendErr(t, id, MessageObject(MessageOf(e)), GqlError);
    AfterUnsubscribe(reported, Key(id), notify)
  }

  /** The `catch` on the init promise's `then`; on a `Nullish` value the read of `error.message` throws first. */
  function OuterCatch(t: Trace, id: Option<string>, e: JsValue, notify: bool): Trace {
    if Nullish(e) then t else
    AfterUnsubscribe(SendErr(t, id, MessageObject(MessageOf(e)), GqlError), Key(id), notify)
  }

  /** The chain on the settled params: the checks, then the execution. */
  function RunParams(t: Trace, id: Option<string>, params: Params, hasSchema: bool, inputs: StartInputs, notify: bool): Trace {
    match ParamsProblemOf(params, hasSchema)
    case Some(NotAnObject) =>
      InnerCatch(SendErr(t, id, MessageObject(Str(InvalidParams)), GqlError), id, NewError(InvalidParams), notify)
    case Some(NoSchema) =>
      InnerCatch(SendErr(t, id, MessageObject(Str(MissingSchema)), GqlError), id, NewError(MissingSchema), notify)
    case Some(ReadOnNull) => InnerCatch(t, id, ReadError(inputs), notify)
    case None =>
      match inputs.execution
      case ExecutionFailed(e) => InnerCatch(t, id, e, notify)
      case ExecutionStarted(it) =>
        Emit(Trace(t.ops[Key(id) := it], t.log), Sent(Message(id, ToString(SubscriptionSuccess), Undefined)))
  }

  /**
   * The operation context: a shallow copy of the init result's own enumerable properties
   * when it is an object, `{}` otherwise.
   */
  function OperationContext(initResult: JsValue): JsValue {
    if IsObject(initResult) then Obj(OwnProps(initResult)) else Obj([])
  }

  function BaseParamsOf(m: Message, initResult: JsValue): BaseParams {
    BaseParams(Get(m.payload, "query"), Get(m.payload, "variables"), Get(m.payload, "operationName"),
      OperationContext(initResult))
  }

  /**
   * The `start` branch of `onMessage` as one step: a registered id is unsubscribed first,
   * the id is registered with a placeholder, and the params chain either registers the
   * execution iterator or reports the error and unsubscribes the id. A rejected init
   * outcome only reports and unsubscribes.
   */
  function AfterStart(t: Trace, m: Message, init: Result<JsValue, JsValue>, hooks: Hooks, hasSchema: bool, inputs: StartInputs): Trace {
    var notify := hooks.onOperationComplete;
    match init
    case Err(e) => OuterCatch(t, m.id, e, notify)
    case Ok(initResult) =>
      var unregistered := AfterUnsubscribe(t, Key(m.id), notify);
      if Nullish(m.payload) then OuterCatch(unregistered, m.id, ReadError(inputs), notify)
      else AfterPlaced(Trace(unregistered.ops[Key(m.id) := inputs.placeholder], unregistered.log), m, initResult, hooks, hasSchema, inputs)
  }

  /** The rest of a START once the placeholder is registered: `onOperation`, if set, then the params chain. */
  function AfterPlaced(placed: Trace, m: Message, initResult: JsValue, hooks: Hooks, hasSchema: bool, inputs: StartInputs): Trace {
    var notify := hooks.onOperationComplete;
    if !hooks.onOperation then RunParams(placed, m.id, DefaultParams, hasSchema, inputs, notify)
    else
      var called := Emit(placed, OperationHookCalled(m, BaseParamsOf(m, initResult)));
      match inputs.hook
      case HookThrew(e) => OuterCatch(called, m.id, e, notify)
      case HookRejected(e) => InnerCatch(OuterCatch(called, m.id, e, notify), m.id, e, notify)
      case HookReturned(p) => RunParams(called, m.id, HookParams(p), hasSchema, inputs, notify)
  }

  /** How the chain of a START ends: the execution's results registered, or a failure value reaching a `catch`. */
  datatype ChainEnd = Started(results: Subscription) | Failed(error: JsValue)

  /** How the params chain ends: a failed check (`typeof`, the read on `null`, the schema), or the execution. */
  function ParamsEnd(params: Params, hasSchema: bool, inputs: StartInputs): ChainEnd {
    match ParamsProblemOf(params, hasSchema)
    case Some(NotAnObject) => Failed(NewError(InvalidParams))
    case Some(NoSchema) => Failed(NewError(MissingSchema))
    case Some(ReadOnNull) => Failed(ReadError(inputs))
    case None =>
      match inputs.execution
      case ExecutionFailed(e) => Failed(e)
      case ExecutionStarted(it) => Started(it)
  }

  /** How the chain ends once the placeholder is registered: `onOperation` failing, or the params chain. */
  function PlacedEnd(hooks: Hooks, hasSchema: bool, inputs: StartInputs): ChainEnd {
    if !hooks.onOperation then ParamsEnd(DefaultParams, hasSchema, inputs)
    else
      match inputs.hook
      case HookThrew(e) => Failed(e)
      case HookRejected(e) => Failed(e)
      case HookReturned(p) => ParamsEnd(HookParams(p), hasSchema, inputs)
  }

  /** How a START ends: a rejected init outcome, the read of a missing payload, or the rest of the chain. */
  function StartEnd(m: Message, init: Result<JsValue, JsValue>, hooks: Hooks, hasSchema: bool, inputs: StartInputs): ChainEnd {
    match init
    case Err(e) => Failed(e)
    case Ok(_) => if Nullish(m.payload) then Failed(ReadError(inputs)) else PlacedEnd(hooks, hasSchema, inputs)
  }

  /**
   * The registry a chain ending with `end` leaves, from `ops`: `key` registered to the
   * results when they started, and torn down when a `catch` reported the failure. A
   * `Nullish` failure value makes the `catch` throw before it unsubscribes, and the
   * registry stays `kept`, what it was when the chain failed.
   */
  function Settled(ops: map<string, Subscription>, key: string, end: ChainEnd, kept: map<string, Subscription>): map<string, Subscription> {
    match end
    case Started(it) => ops[key := it]
    case Failed(e) => if Nullish(e) then kept else ops - {key}
  }

  /** `r` extends the log of `t`, and the first entry it adds is a message for `id`. */
  predicate Reported(t: Trace, r: Trace, id: Option<string>) {
    && t.log <= r.log && |t.log| < |r.log|
    && r.log[|t.log|].Sent? && r.log[|t.log|].m.id == id
  }

  /**
   * Both `catch` handlers report a failure value with the operation's id (the outer one
   * as an `error`, the inner one as `data` exactly when the value carries truthy `errors`),
   * then unregister the id, and only append to the log. On `null` or `undefined` they
   * throw before doing anything.
   */
  lemma CatchesUnsubscribe(t: Trace, id: Option<string>, e: JsValue, notify: bool)
    ensures Nullish(e) ==> InnerCatch(t, id, e, notify) == t && OuterCatch(t, id, e, notify) == t
    ensures !Nullish(e) ==>
      var inner := InnerCatch(t, id, e, notify);
      && inner.ops == t.ops - {Key(id)} && Reported(t, inner, id)
      && KindOf(inner.log[|t.log|].m) == Some(if Truthy(Get(e, "errors")) then GqlData else GqlError)
    ensures !Nullish(e) ==>
      var outer := OuterCatch(t, id, e, notify);
      && outer.ops == t.ops - {Key(id)} && Reported(t, outer, id)
      && KindOf(outer.log[|t.log|].m) == Some(GqlError)
  {
    ToStringRoundTrip(GqlData);
    ToStringRoundTrip(GqlError);
  }

  /**
   * The params chain registers the execution's results when every check passes; a failure
   * is reported for the id, which is then unregistered, unless the failure value is
   * `Nullish`, which leaves the registry as it was.
   */
  lemma RunParamsSpec(t: Trace, id: Option<string>, params: Params, hasSchema: bool, inputs: StartInputs, notify: bool)
    ensures var r := RunParams(t, id, params, hasSchema, inputs, notify);
      var end := ParamsEnd(params, hasSchema, inputs);
      && t.log <= r.log
      && r.ops == Settled(t.ops, Key(id), end, t.ops)
      && (end.Failed? && !Nullish(end.error) ==> Reported(t, r, id))
  {
    match ParamsProblemOf(params, hasSchema)
    case Some(NotAnObject) =>
      FailedCheckSpec(t, id, InvalidParams, notify);
    case Some(NoSchema) =>
      FailedCheckSpec(t, id, MissingSchema, notify);
    case Some(ReadOnNull) =>
      CatchesUnsubscribe(t, id, ReadError(inputs), notify);
    case None =>
      if inputs.execution.ExecutionFailed? {
        CatchesUnsubscribe(t, id, inputs.execution.error, notify);
      }
  }

  /** A failed check on the params is reported twice, by the check and by the `catch`, and unregisters the id. */
  lemma FailedCheckSpec(t: Trace, id: Option<string>, message: string, notify: bool)
    ensures var r := InnerCatch(SendErr(t, id, MessageObject(Str(message)), GqlError), id, NewError(message), notify);
      && r.ops == t.ops - {Key(id)} && Reported(t, r, id)
  {
    var sent := SendErr(t, id, MessageObject(Str(message)), GqlError);
    CatchesUnsubscribe(sent, id, NewError(message), notify);
    assert sent.ops - {Key(id)} == t.ops - {Key(id)};
  }

  lemma AfterPlacedSpec(placed: Trace, m: Message, initResult: JsValue, hooks: Hooks, hasSchema: bool, inputs: StartInputs)
    ensures var r := AfterPlaced(placed, m, initResult, hooks, hasSchema, inputs);
      && r.ops == Settled(placed.ops, Key(m.id), PlacedEnd(hooks, hasSchema, inputs), placed.ops)
      && placed.log <= r.log
      && (hooks.onOperation ==> OperationHookCalled(m, BaseParamsOf(m, initResult)) in r.log)
  {
    if !hooks.onOperation {
      RunParamsSpec(placed, m.id, DefaultParams, hasSchema, inputs, hooks.onOperationComplete);
    } else {
      var called := Emit(placed, OperationHookCalled(m, BaseParamsOf(m, initResult)));
      assert OperationHookCalled(m, BaseParamsOf(m, initResult)) in called.log;
      HookedSpec(called, m.id, hooks, hasSchema, inputs);
    }
  }

  /**
   * After `onOperation` is called: its outcome decides between the two `catch` handlers
   * and the params chain. A rejection is reported twice, the outer `catch` first; a
   * `Nullish` one is not reported at all and leaves the placeholder registered.
   */
  lemma HookedSpec(called: Trace, id: Option<string>, hooks: Hooks, hasSchema: bool, inputs: StartInputs)
    requires hooks.onOperation
    ensures var notify := hooks.onOperationComplete;
      var r := match inputs.hook
        case HookThrew(e) => OuterCatch(called, id, e, notify)
        case HookRejected(e) => InnerCatch(OuterCatch(called, id, e, notify), id, e, notify)
        case HookReturned(p) => RunParams(called, id, HookParams(p), hasSchema, inputs, notify);
      var end := PlacedEnd(hooks, hasSchema, inputs);
      && r.ops == Settled(called.ops, Key(id), end, called.ops)
      && called.log <= r.log
      && (end.Failed? && !Nullish(end.error) ==> Reported(called, r, id))
  {
    var notify := hooks.onOperationComplete;
    match inputs.hook
    case HookThrew(e) =>
      CatchesUnsubscribe(called, id, e, notify);
    case HookRejected(e) =>
      CatchesUnsubscribe(called, id, e, notify);
      CatchesUnsubscribe(OuterCatch(called, id, e, notify), id, e, notify);
    case HookReturned(p) =>
      RunParamsSpec(called, id, HookParams(p), hasSchema, inputs, notify);
  }

  /**
   * A START touches no other id. Its own id ends registered to the execution's results
   * exactly when every step succeeded, and unregistered when a step failed with a value
   * the `catch` can read. A failure with `null` or `undefined` leaves the id as it was
   * when the chain failed: untouched for a rejected init outcome, the placeholder
   * otherwise. Once the init outcome is accepted, a registered id is first torn down (one
   * completion when `onOperationComplete` is set), and `onOperation` sees a context copied
   * from the init result.
   */
  lemma StartSpec(t: Trace, m: Message, init: Result<JsValue, JsValue>, hooks: Hooks, hasSchema: bool, inputs: StartInputs)
    ensures var r := AfterStart(t, m, init, hooks, hasSchema, inputs);
      && r.ops == Settled(t.ops, Key(m.id), StartEnd(m, init, hooks, hasSchema, inputs),
                          if init.Err? then t.ops else t.ops[Key(m.id) := inputs.placeholder])
      && t.log <= r.log
      && (init.Err? ==> (if Nullish(init.error) then r == t else Reported(t, r, m.id)))
      && (init.Ok? ==> t.log + Teardown(t.ops, Key(m.id), hooks.onOperationComplete) <= r.log)
      && (init.Ok? && hooks.onOperation && !Nullish(m.payload) ==>
            OperationHookCalled(m, BaseParamsOf(m, init.value)) in r.log)
  {
    var notify := hooks.onOperationComplete;
    var key := Key(m.id);
    match init
    case Err(e) =>
      CatchesUnsubscribe(t, m.id, e, notify);
    case Ok(initResult) =>
      var unregistered := AfterUnsubscribe(t, key, notify);
      if Nullish(m.payload) {
        CatchesUnsubscribe(unregistered, m.id, ReadError(inputs), notify);
      } else {
        var placed := Trace(unregistered.ops[key := inputs.placeholder], unregistered.log);
        AfterPlacedSpec(placed, m, initResult, hooks, hasSchema, inputs);
        assert placed.ops - {key} == t.ops - {key};
        assert placed.ops == t.ops[key := inputs.placeholder];
        if PlacedEnd(hooks, hasSchema, inputs).Started? {
          var it := PlacedEnd(hooks, hasSchema, inputs).results;
          assert placed.ops[key := it] == t.ops[key := it];
        }
      }
  }

  // ---------------------------------------------------------------- onMessage dispatch

  /**
   * What `parseLegacyProtocolMessage` makes of a received message: a throw, or a message in
   * the current vocabulary (`None` for a falsy one) with the dialect it recorded.
   */
  datatype LegacyParse = ParseThrew(error: JsValue) | Parsed(message: Option<Message>, isLegacy: bool)

  /** A received message, once parsed, that reaches the `switch`. */
  predicate Dispatched(parse: LegacyParse) {
    parse.Parsed? && parse.message.Some?
  }

  /** The init outcome after a received message: only `connection_init` replaces it. */
  function InitAfterMessage(init: Result<JsValue, JsValue>, hooks: Hooks, parse: LegacyParse, connect: Result<JsValue, JsValue>): Result<JsValue, JsValue> {
    if Dispatched(parse) && KindOf(parse.message.value) == Some(GqlConnectionInit) then InitAfter(init, hooks, connect)
    else init
  }

  /** The handler `onMessage` installs, on one received message. */
  function AfterMessage(t: Trace, init: Result<JsValue, JsValue>, hooks: Hooks, hasSchema: bool, parse: LegacyParse,
                        connect: Result<JsValue, JsValue>, inputs: StartInputs): Trace {
    match parse
    case ParseThrew(e) => if Nullish(e) then t else SendErr(t, None, MessageObject(MessageOf(e)), GqlConnectionError)
    case Parsed(None, _) => t
    case Parsed(Some(m), _) =>
      var kind := KindOf(m);
      if kind == Some(GqlConnectionInit) then AfterInit(t, m, init, hooks, connect)
      else if kind == Some(GqlConnectionTerminate) then Emit(t, TransportClosed(None))
      else if kind == Some(GqlStart) then AfterStart(t, m, init, hooks, hasSchema, inputs)
      else if kind == Some(GqlStop) then AfterUnsubscribe(t, Key(m.id), hooks.onOperationComplete)
      else SendErr(t, m.id, MessageObject(Str("Invalid message type!")), GqlError)
  }

  /**
   * Only the four client-to-server kinds are served; any other type, known or not, is
   * answered with one `error` carrying the message's id, and changes no registration.
   */
  lemma UnservedKindsRejected(t: Trace, init: Result<JsValue, JsValue>, hooks: Hooks, hasSchema: bool, parse: LegacyParse,
                              connect: Result<JsValue, JsValue>, inputs: StartInputs)
    requires Dispatched(parse)
    requires var kind := KindOf(parse.message.value); kind.None? || !ClientToServer(kind.value)
    ensures AfterMessage(t, init, hooks, hasSchema, parse, connect, inputs)
      == Trace(t.ops, t.log + [Sent(Message(parse.message.value.id, "error", MessageObject(Str("Invalid message type!"))))])
  {
  }

  /**
   * A received message touches the registration of no id but its own, only appends to
   * the log, and changes the init outcome only when it is a `connection_init` and
   * `onConnect` is set.
   */
  lemma {:induction false} MessageTouchesOwnId(t: Trace, init: Result<JsValue, JsValue>, hooks: Hooks, hasSchema: bool, parse: LegacyParse,
                                               connect: Result<JsValue, JsValue>, inputs: StartInputs, k: string)
    requires !(Dispatched(parse) && k == Key(parse.message.value.id))
    ensures var r := AfterMessage(t, init, hooks, hasSchema, parse, connect, inputs);
      && t.log <= r.log
      && (k in r.ops <==> k in t.ops)
      && (k in t.ops ==> r.ops[k] == t.ops[k])
    ensures InitAfterMessage(init, hooks, parse, connect) != init ==>
      Dispatched(parse) && KindOf(parse.message.value) == Some(GqlConnectionInit) && hooks.onConnect
  {
    if Dispatched(parse) {
      var m := parse.message.value;
      if KindOf(m) == Some(GqlStart) {
        StartSpec(t, m, init, hooks, hasSchema, inputs);
      }
    }
  }

  /** Without `onConnect` the init outcome is `true` before and after every message. */
  lemma InitOutcomeStaysTrue(hooks: Hooks, parse: LegacyParse, connect: Result<JsValue, JsValue>)
    requires !hooks.onConnect
    ensures InitAfterMessage(Ok(Bool(true)), hooks, parse, connect) == Ok(Bool(true))
  {
  }

  // ---------------------------------------------------------------- results of an operation

  /** One execution result and, when the params carry `formatResponse`, what it returned or threw. */
  datatype StreamItem = StreamItem(value: JsValue, formatted: Option<Result<JsValue, JsValue>>)

  /**
   * How the iteration over the results ended: it ran out, or it failed with an error and,
   * when the params carry `formatError`, what that returned or threw.
   */
  datatype StreamEnd = Exhausted | StreamFailed(error: JsValue, formatted: Option<Result<JsValue, JsValue>>)

  /** The `data` payload of one result: the formatted one unless `formatResponse` threw. */
  function ResponseOf(item: StreamItem): JsValue {
    if item.formatted.Some? && item.formatted.value.Ok? then item.formatted.value.value else item.value
  }

  /**
   * The `error` payload of a failed iteration. An error with no own enumerable keys (a plain
   * `Error`) is sent as `{ name, message }`, even when `formatError` replaced it; otherwise
   * the formatted error, or the error itself when there is no `formatError` or it threw.
   * `None` where `Object.keys` throws (`null`, `undefined`) and nothing is sent.
   */
  function FailurePayload(e: JsValue, formatted: Option<Result<JsValue, JsValue>>): Option<JsValue> {
    match OwnKeyCount(e)
    case None => None
    case Some(n) =>
      if n == 0 then Some(Obj([Prop("name", Get(e, "name")), Prop("message", Get(e, "message"))]))
      else if formatted.Some? && formatted.value.Ok? then Some(formatted.value.value)
      else Some(e)
  }

  function DataMessage(id: Option<string>, item: StreamItem): ServerEffect {
    Sent(Message(id, ToString(GqlData), ResponseOf(item)))
  }

  /** One `data` message per result, in order. */
  function DataMessages(id: Option<string>, items: seq<StreamItem>): seq<ServerEffect> {
    if items == [] then [] else DataMessages(id, items[..|items| - 1]) + [DataMessage(id, items[|items| - 1])]
  }

  /** What ends the stream: `complete` with a `null` payload, or an `error`. */
  function EndMessages(id: Option<string>, end: StreamEnd): seq<ServerEffect> {
    match end
    case Exhausted => [Sent(Message(id, ToString(GqlComplete), Null))]
    case StreamFailed(e, formatted) =>
      match FailurePayload(e, formatted)
      case None => []
      case Some(p) => [Sent(ErrorOf(id, p, GqlError))]
  }

  function StreamMessages(id: Option<string>, items: seq<StreamItem>, end: StreamEnd): seq<ServerEffect> {
    DataMessages(id, items) + EndMessages(id, end)
  }

  lemma {:induction false} DataMessagesSpec(id: Option<string>, items: seq<StreamItem>)
    ensures |DataMessages(id, items)| == |items|
    ensures forall i :: 0 <= i < |items| ==> DataMessages(id, items)[i] == DataMessage(id, items[i])
  {
    if items != [] {
      DataMessagesSpec(id, items[..|items| - 1]);
    }
  }

  /**
   * The results of an operation go out in order, one `data` per result carrying the
   * operation's id, followed by at most one message: `complete` when the results ran out,
   * an `error` when the iteration failed with a value `Object.keys` accepts.
   */
  lemma StreamOrder(id: Option<string>, items: seq<StreamItem>, end: StreamEnd)
    ensures var r := StreamMessages(id, items, end);
      && |r| == |items| + (if end.StreamFailed? && OwnKeyCount(end.error).None? then 0 else 1)
      && (forall i :: 0 <= i < |items| ==> r[i].Sent? && r[i].m == Message(id, "data", ResponseOf(items[i])))
      && (end.Exhausted? ==> r[|items|] == Sent(Message(id, "complete", Null)))
      && (end.StreamFailed? && OwnKeyCount(end.error).Some? ==>
            r[|items|].Sent? && KindOf(r[|items|].m) == Some(GqlError) && r[|items|].m.id == id)
  {
    DataMessagesSpec(id, items);
    ToStringRoundTrip(GqlError);
  }

  /** A plain `Error` is sent by name and message, whatever `formatError` made of it. */
  lemma PlainErrorsFlattened(name: string, message: string, formatted: Option<Result<JsValue, JsValue>>)
    ensures FailurePayload(Error(name, message, []), formatted)
      == Some(Obj([Prop("name", Str(name)), Prop("message", Str(message))]))
  {
  }
}
