# apollo-link-rpc protocol engines in Dafny

This project models the two protocol engines of apollo-link-rpc. They exchange GraphQL
operations over a message-passing transport, using the `subscriptions-transport-ws`
message vocabulary.

- **Client engine `RpcHostInstance`** (`packages/rpc-host/src/rpc-client.ts`). It keeps:
  - a registry of operations keyed by the ids it issues;
  - a queue of messages held back while the transport connects;
  - reconnection with an attempt budget;
  - a keep-alive watchdog;
  - an inactivity timer;
  - a middleware chain run on each operation's options.

  Class `RpcClient.RpcHostInstance` models it. Its fields are the source's fields:
  - timer ids become armed flags;
  - the backoff objects become attempt counters;
  - the transport status is an input the environment sets;
  - an effect log records every send, emitted event and handler call.

  Timer expiry and the transport callbacks are methods the environment calls
  (`...TimerFired`, `OnOpen`, `OnTransportClose`, `OnTransportError`,
  `ProcessReceivedData`). The promise that `executeOperation` leaves behind settles in
  `SettleOperation`.
- **Server engine `RpcMainInstance`** (`packages/rpc-main/src/rpc-server.ts`). It holds one
  connection context: the operation registry, the legacy-dialect flag and the outcome of
  the init promise.

  Classes `RpcServer.ConnectionContext` and `RpcServer.RpcMainInstance` model it. Each
  handler method is proved to move the registry and the effect log exactly as a function in
  `ServerValues` says. The lemmas in `ServerValues` state what the server promises about
  those functions.

  Everything outside the engine is an input of the step that uses it:
  - the outcomes of `onConnect` and `onOperation`;
  - the legacy parser's result;
  - the GraphQL execution;
  - the result stream.
- **Message kinds** (`packages/common/src/message-types.ts`). `MessageTypes.MessageKind` holds
  the 19 kinds. `ToString` and `FromString` convert between a kind and its wire literal.

Support modules:
- `Wrappers` defines `Option` and `Result`. A `Result` stands for a return or a throw, and
  for a promise that resolves or rejects.
- `Decimal` defines `String(n)` for naturals and its inverse.
- `JsValues` models the JavaScript values the engines inspect:
  - truthiness;
  - property reads, including on `Error` instances;
  - `typeof`, `isString` and `isObject`;
  - own enumerable keys;
  - object spread.
- `Protocol` defines the message envelope `{id?, type, payload?}`.
- `ClientValues` and `ClientRouting` hold the client's pure parts and output specification:
  - error normalisation;
  - message building;
  - option checking;
  - the middleware chain;
  - routing by transport status;
  - the order in which registered ids are visited.

Client registry keys are numbers. Every id the client registers is `String(n)` for a counter
value `n`, so the map is keyed by `n` and `IdOf`/`KeyOf` convert between the two forms.
`Object.keys` lists such integer-like keys in ascending numeric order. The loops over the
registry (`unsubscribeAll` and the requeue in `tryReconnect`) are therefore modelled as
loops over `1..nextOperationId` that skip absent keys.

Server registry keys are chosen by the client. The order `onClose` visits them in is
therefore left open: `OnClose` returns it as a ghost output, and its contract holds for
every order.

## Model

| member | source | states |
|---|---|---|
| MessageTypes.ToStringRoundTrip | packages/common/src/message-types.ts:1-53 | decoding the literal of any kind gives that kind back |
| MessageTypes.FromStringSound | packages/common/src/message-types.ts:1-53 | a string decodes to a kind exactly when it is that kind's literal, so no two literals collide |
| MessageTypes.ToStringInjective | packages/common/src/message-types.ts:1-53 | the 19 literals are pairwise distinct |
| MessageTypes.VocabulariesPartition | packages/common/src/message-types.ts:2-52 | each kind is either one of the ten current kinds or one of the nine deprecated kinds, never both |
| MessageTypes.DirectionsPartitionCurrent | packages/common/src/message-types.ts:2-14 | each current kind travels in exactly one direction: init, terminate, start and stop go client to server; the other six go server to client |
| MessageTypes.KeepAliveLiteralsDiffer | packages/common/src/message-types.ts:7-52 | the current keep-alive literal is `ka`, the legacy one is `keepalive`, and they decode to different kinds |
| Decimal.ParseNatToString | packages/rpc-host/src/rpc-client.ts:423-425 | parsing `String(n)` gives `n` back |
| Decimal.NatToStringInjective | packages/rpc-host/src/rpc-client.ts:423-425 | different counter values render as different ids, so an id is never reused |
| Decimal.NatToStringDigits | packages/rpc-host/src/rpc-client.ts:423-425 | `String(n)` is a non-empty digit string with no leading zero |
| ClientRouting.KeyOfIdOf | packages/rpc-host/src/rpc-client.ts:423-425 | every issued id maps back to its counter value |
| ClientValues.FormatErrors | packages/rpc-host/src/rpc-client.ts:373-393 | the result is always a list. After truthy `.errors` are unwrapped: a list comes back unchanged; a value with a truthy message becomes a one-element list; anything else becomes one `Unknown error` entry carrying the value as `originalError` |
| ClientValues.FormatErrorsSingleEntry | packages/rpc-host/src/rpc-client.ts:373-393 | unless the unwrapping ends at a list, the result is exactly one entry, and that entry has a truthy message |
| ClientValues.FormatErrorsIdempotent | packages/rpc-host/src/rpc-client.ts:373-393 | normalising the output again changes nothing, because a list is returned as it is |
| ClientValues.BuildMessageEnvelope | packages/rpc-host/src/rpc-client.ts:357-370 | the built message carries the given id, and its type decodes to the given kind |
| ClientValues.BuildMessagePayload | packages/rpc-host/src/rpc-client.ts:357-370 | without a truthy `query` the payload is unchanged; otherwise it is a copy whose `query` is the string or the printed document, with every other property kept |
| ClientValues.CheckOperationOptionsSpec | packages/rpc-host/src/rpc-client.ts:336-355 | the check passes exactly on acceptable options. `null`/`undefined` fail on the destructuring; a falsy query fails with `Must provide a query.`; every error thrown is normalised to a one-element list |
| ClientValues.RunChainOutcome | packages/rpc-host/src/rpc-client.ts:197-219 | the chain resolves with every stage's updates applied in order exactly when every stage calls `next()` without an error. It rejects with the first error passed to `next`, and hangs at the first stage that never calls `next` |
| ClientValues.RunChainIgnoresLaterStages | packages/rpc-host/src/rpc-client.ts:197-219 | stages after the one that stops the chain have no effect on the outcome |
| ClientValues.SetupErrorSpec | packages/rpc-host/src/rpc-client.ts:252-266 | a rejected chain reports its error; resolved options fail exactly when the option check rejects them |
| ClientValues.ObserverGetsFirstError | packages/rpc-host/src/rpc-client.ts:127-143 | a handler call with normalised errors reports their first entry to the observer (`undefined` for an empty list), whatever the result beside them. Unless the value unwraps to a list, that entry is the only one and has a truthy message |
| ClientValues.DataPayloadSpec | packages/rpc-host/src/rpc-client.ts:561-565 | a DATA payload without truthy `errors` is passed on unchanged; otherwise it is a copy with `errors` normalised and every other property kept |
| ClientRouting.RouteAllOpen | packages/rpc-host/src/rpc-client.ts:400-421 | while open, every routed message is sent in order and the queue is untouched |
| ClientRouting.RouteAllConnecting | packages/rpc-host/src/rpc-client.ts:400-421 | while connecting, every routed message joins the queue in order and nothing is sent |
| ClientRouting.RouteAllDroppedSilently | packages/rpc-host/src/rpc-client.ts:400-421 | while closing or closed during a reconnect, messages are dropped with no error event |
| ClientRouting.RouteAllConcat | packages/rpc-host/src/rpc-client.ts:449-454 | routing two batches one after the other is routing their concatenation |
| ClientRouting.AscendingIdsSpec | packages/rpc-host/src/rpc-client.ts:191-195 | the registry walk visits each registered key in `1..n` exactly once, in strictly increasing order, and nothing else |
| ClientRouting.RouteStopsInKeyOrder | packages/rpc-host/src/rpc-client.ts:191-195 | `unsubscribeAll` routes exactly the STOPs of the registered ids, in `Object.keys` order |
| ClientRouting.StopMessageBuilt | packages/rpc-host/src/rpc-client.ts:587-593 | the STOP for a key is addressed to its id and has an `undefined` payload |
| ClientRouting.RestartsInKeyOrder | packages/rpc-host/src/rpc-client.ts:432-437 | the requeue holds exactly the STARTs of the registered ids, in `Object.keys` order, each with the operation's options |
| ClientRouting.RequeueCoversRegistry | packages/rpc-host/src/rpc-client.ts:432-437 | the requeue holds one START per registered operation, no more and no fewer |
| ClientRouting.RequeueCount | packages/rpc-host/src/rpc-client.ts:432-437 | the number of requeued STARTs equals the number of registered operations |
| RpcClient.TerminateMessageBuilt | packages/rpc-host/src/rpc-client.ts:97 | `connection_terminate` goes out with no id and a `null` payload |
| RpcClient.ReactionReachesRegistered | packages/rpc-host/src/rpc-client.ts:515-585 | COMPLETE, ERROR and DATA reach only the registered operation their id names: with no errors, with the normalised errors, or with the normalised payload |
| RpcClient.ReactionIgnoresExactly | packages/rpc-host/src/rpc-client.ts:515-532 | a message is dropped exactly when it is falsy, or when it is a DATA/COMPLETE/ERROR for an unregistered id |
| RpcClient.ReactionThrowsExactly | packages/rpc-host/src/rpc-client.ts:515-585 | exactly the unknown types, and the DATA messages whose payload is `null` or `undefined`, throw |
| RpcClient.ObserverSeesReplies | packages/rpc-host/src/rpc-client.ts:551-565 | the observer of `request` is completed by COMPLETE. ERROR reports the first normalised error to it (`undefined` for an empty list), and that entry has a truthy message unless the payload unwraps to a list. DATA passes it the payload with its errors normalised |
| RpcClient.ObserverSeesSetupFailure | packages/rpc-host/src/rpc-client.ts:262-265 | a failed setup reports the first normalised error to the observer. When the option check rejected the resolved options, that is its single error, with a truthy message |
| RpcClient.RpcHostInstance.constructor | packages/rpc-host/src/rpc-client.ts:40-78 | the initial state is the source's defaults, so the invariant holds. A non-lazy client connects at once: the connect timeout is armed and the callbacks are installed |
| RpcClient.RpcHostInstance.Connect | packages/rpc-host/src/rpc-client.ts:479-513 | installs the callbacks and arms the connect timeout, counting one attempt |
| RpcClient.RpcHostInstance.CheckMaxConnectTimeout | packages/rpc-host/src/rpc-client.ts:467-477 | re-arms the connect timeout and counts one more attempt |
| RpcClient.RpcHostInstance.OnOpen | packages/rpc-host/src/rpc-client.ts:481-499 | on a transport that is not open, nothing changes. Otherwise the connect timeout is cleared, `(re)connecting` is emitted, and the handshake (`connection_init`, or `connection_error` when the params rejected) is sent ahead of every queued message, in queue order; the queue ends empty |
| RpcClient.HandshakeSpec | packages/rpc-host/src/rpc-client.ts:233-245 | the handshake has no id; it is `connection_init` exactly when the params resolve and `connection_error` exactly when they reject, carrying the value or the rejection. A plain value always resolves to itself, a promise option settles as it does, and a provider settles as it returns or throws |
| RpcClient.RpcHostInstance.SendHandshake | packages/rpc-host/src/rpc-client.ts:485-497 | emits `connecting` or `reconnecting`, then sends the handshake message |
| RpcClient.RpcHostInstance.OnTransportClose | packages/rpc-host/src/rpc-client.ts:500-504 | after a close the user asked for, nothing changes; otherwise the client closes without forcing and tries to reconnect |
| RpcClient.RpcHostInstance.OnTransportError | packages/rpc-host/src/rpc-client.ts:506-510 | the error is re-emitted and nothing else changes |
| RpcClient.RpcHostInstance.InactivityTimerFired | packages/rpc-host/src/rpc-client.ts:326-334 | with the registry still empty the client closes for good (forced, by the user); otherwise only the timer is spent |
| RpcClient.RpcHostInstance.MaxConnectTimerFired | packages/rpc-host/src/rpc-client.ts:471-476 | if the transport is not open, the client marks itself reconnecting and closes without forcing. Because `reconnecting` is already set, nothing is requeued; the backoff advances only within the budget |
| RpcClient.RpcHostInstance.TryReconnectTimerFired | packages/rpc-host/src/rpc-client.ts:444-446 | `connect` runs again: the callbacks are installed and the connect timeout is re-armed |
| RpcClient.RpcHostInstance.SendMessageRaw | packages/rpc-host/src/rpc-client.ts:400-421 | sent when open, queued when connecting; otherwise dropped, with an `error` event only when not reconnecting |
| RpcClient.RpcHostInstance.SendMessage | packages/rpc-host/src/rpc-client.ts:395-397 | routes the built message |
| RpcClient.RpcHostInstance.FlushUnsentMessagesQueue | packages/rpc-host/src/rpc-client.ts:449-454 | every queued message goes through `sendMessageRaw` in queue order, and the queue ends empty |
| RpcClient.RpcHostInstance.GenerateOperationId | packages/rpc-host/src/rpc-client.ts:423-425 | the counter grows by one. The id is `String` of the new counter, is above every key issued before, and is neither registered nor pending |
| RpcClient.RpcHostInstance.ClearInactivityTimeout | packages/rpc-host/src/rpc-client.ts:319-324 | the inactivity timer is disarmed |
| RpcClient.RpcHostInstance.SetInactivityTimeout | packages/rpc-host/src/rpc-client.ts:326-334 | the timer is armed when a timeout is configured and the registry is empty, and otherwise left as it was |
| RpcClient.RpcHostInstance.Unsubscribe | packages/rpc-host/src/rpc-client.ts:587-593 | only the given key is removed. A registered key gets exactly one STOP routed and may arm the inactivity timer; an unregistered key changes nothing, so a second call is a no-op |
| RpcClient.RpcHostInstance.UnsubscribeAll | packages/rpc-host/src/rpc-client.ts:191-195 | the registry ends empty and the STOPs are routed in `Object.keys` order |
| RpcClient.RpcHostInstance.RequeueOperations | packages/rpc-host/src/rpc-client.ts:432-437 | the queue gains one START per registered operation, in key order |
| RpcClient.RpcHostInstance.TryReconnect | packages/rpc-host/src/rpc-client.ts:427-447 | outside the budget nothing changes. Within it, the first call of a cycle requeues the STARTs and sets `reconnecting`, later calls requeue nothing, and every allowed call counts a backoff attempt and arms the reconnect timer |
| RpcClient.RpcHostInstance.Close | packages/rpc-host/src/rpc-client.ts:88-109 | a forced close clears the timers, unsubscribes everything in key order, sends `connection_terminate` and closes. A non-forced close keeps the registry, closes and tries to reconnect. Both record who closed |
| RpcClient.RpcHostInstance.CloseForced | packages/rpc-host/src/rpc-client.ts:88-109 | the forced branch: the outputs are the STOPs, then the terminate, then the close and `disconnected`; the registry ends empty |
| RpcClient.RpcHostInstance.CloseNonForced | packages/rpc-host/src/rpc-client.ts:88-109 | the non-forced branch: the close and `disconnected` are logged, outstanding operations stay registered, and a reconnect is tried |
| RpcClient.RpcHostInstance.Use | packages/rpc-host/src/rpc-client.ts:221-231 | middlewares are appended in order up to the first one without `applyMiddleware`; it throws exactly when there is such an element |
| RpcClient.RpcHostInstance.ApplyMiddlewares | packages/rpc-host/src/rpc-client.ts:197-219 | settles as the chain specification says, working on a copy; the stored list is not modified |
| RpcClient.RpcHostInstance.Request | packages/rpc-host/src/rpc-client.ts:111-117 | `request` disarms the inactivity timer; the observable it returns is not an object of the model (see `## Left out`) |
| RpcClient.RpcHostInstance.ExecuteOperation | packages/rpc-host/src/rpc-client.ts:247-269 | registers the original options under a fresh id. A chain that settles is left pending for `SettleOperation`; one that never settles leaves nothing pending |
| RpcClient.RpcHostInstance.SettleOperation | packages/rpc-host/src/rpc-client.ts:252-266 | acceptable options replace those of a still-registered operation and its START is routed. A rejection or an option-check error unsubscribes the operation (a STOP if it was registered) and passes the normalised errors to its handler |
| RpcClient.RpcHostInstance.ContinueWithOptions | packages/rpc-host/src/rpc-client.ts:253-258 | only a still-registered operation is updated and started |
| RpcClient.RpcHostInstance.FailSetup | packages/rpc-host/src/rpc-client.ts:260-263 | unsubscribe, then one handler call with the errors |
| RpcClient.RpcHostInstance.CheckConnection | packages/rpc-host/src/rpc-client.ts:456-465 | a keep-alive seen since the last check is consumed. Otherwise the client closes without forcing, unless a reconnect is under way, in which case nothing changes |
| RpcClient.RpcHostInstance.OnKeepAlive | packages/rpc-host/src/rpc-client.ts:567-580 | the watchdog interval is re-armed. The flag ends `false` when the handler ran a check (on the first keep-alive, or when the interval was armed), and `true` otherwise. It never closes the connection and changes nothing else |
| RpcClient.RpcHostInstance.ProcessReceivedData | packages/rpc-host/src/rpc-client.ts:515-585 | dispatches as the reaction says. Dropped and throwing messages change nothing; COMPLETE and ERROR call the handler and remove the id; DATA calls the handler and keeps the id; ACK resets the backoffs and leaves reconnecting; a keep-alive runs the watchdog. The invariant is kept |
| RpcClient.RpcHostInstance.ReportConnectionError | packages/rpc-host/src/rpc-client.ts:534-538 | the payload goes to the connection callback, if there is one, and nothing else changes |
| RpcClient.RpcHostInstance.Acknowledge | packages/rpc-host/src/rpc-client.ts:540-549 | emits `connected` or `reconnected`, clears `reconnecting`, resets both attempt counters and calls the callback |
| RpcClient.RpcHostInstance.ConsumeReply | packages/rpc-host/src/rpc-client.ts:551-559 | one handler call with `(errors, null)`, then the id is removed |
| RpcClient.RpcHostInstance.Deliver | packages/rpc-host/src/rpc-client.ts:561-565 | one handler call with `(null, result)`; the registry is unchanged |
| ServerValues.ErrorMessageGuard | packages/rpc-main/src/rpc-server.ts:358-375 | `sendError` sends exactly when the resolved type decodes to `connection_error` or `error`, with the given id and payload. With no override, or an empty one, the type is `error` |
| ServerValues.ErrorCallSitesSend | packages/rpc-main/src/rpc-server.ts:358-375 | no override, or the `connection_error` override, always sends |
| ServerValues.KeepAliveDialects | packages/rpc-main/src/rpc-server.ts:340-346 | the legacy dialect gets `keepalive` and the current one `ka`, and these are different kinds |
| ServerValues.UnsubscribeSpec | packages/rpc-main/src/rpc-server.ts:104-116 | a registered id is removed and nothing else is; `return` is called exactly when the iterator has one; `onOperationComplete` is called once when set. An unregistered id changes nothing, so a second call is a no-op |
| ServerValues.RemoveAllSpec | packages/rpc-main/src/rpc-server.ts:118-122 | a key survives the teardown exactly when it was registered and not visited |
| ServerValues.RemoveAllEmpties | packages/rpc-main/src/rpc-server.ts:118-122 | visiting every registered key empties the registry |
| ServerValues.TeardownEffectsKinds | packages/rpc-main/src/rpc-server.ts:104-122 | a teardown only calls `return` and reports completions |
| ServerValues.TeardownEffectsCount | packages/rpc-main/src/rpc-server.ts:104-122 | tearing down distinct keys reports exactly one completion per registered key, and none for other keys |
| ServerValues.ConnectionClosedSteps | packages/rpc-main/src/rpc-server.ts:65-84 | the close handler is the error report, then `onClose`, then `onDisconnect` |
| ServerValues.ConnectionClosedEmpties | packages/rpc-main/src/rpc-server.ts:65-84 | the close handler empties the registry and reports one completion per registered id |
| ServerValues.ConnectionClosedOrder | packages/rpc-main/src/rpc-server.ts:65-84 | the only message sent is a first `connection_error` (empty id), sent exactly when an error is supplied. `onDisconnect` is called exactly when set, and last |
| ServerValues.InitReplySpec | packages/rpc-main/src/rpc-server.ts:153-188 | an accepted outcome sends one `connection_ack` and nothing else, in particular no keep-alive. `false` or a rejection sends one `connection_error` for the message's id (`Prohibited connection!` for `false`, the rejection's `message` otherwise), then `close(1011)`. A rejection with `null` or `undefined` sends nothing and does not close, because the `catch` throws reading `message` |
| ServerValues.DefaultInitAccepts | packages/rpc-main/src/rpc-server.ts:140-163 | without `onConnect` the init outcome stays `true` and every `connection_init` is answered by one acknowledgement |
| ServerValues.InitOutcomeStaysTrue | packages/rpc-main/src/rpc-server.ts:141-151 | without `onConnect`, no message changes the init outcome |
| ServerValues.CatchesUnsubscribe | packages/rpc-main/src/rpc-server.ts:310-326 | for a failure value other than `null`/`undefined`, both `catch` handlers first send one message for the id (the inner one `data` exactly when the value has truthy `errors`, otherwise `error`), then unregister the id, and only append to the log. On `null` or `undefined` they throw before doing anything |
| ServerValues.RunParamsSpec | packages/rpc-main/src/rpc-server.ts:225-320 | the params chain registers the execution's results when every check passes and the execution starts. A failure is reported for the id, which ends unregistered; a failure with `null`/`undefined` leaves the registry as it was |
| ServerValues.FailedCheckSpec | packages/rpc-main/src/rpc-server.ts:227-241 | params that fail the object or schema check are reported for the id (the check's `error` comes first) and the id ends unregistered |
| ServerValues.HookedSpec | packages/rpc-main/src/rpc-server.ts:220-326 | after `onOperation`: a throw or rejection is reported and ends with the id unregistered, unless its value is `null`/`undefined`, which leaves the placeholder registered; returned params continue the chain |
| ServerValues.AfterPlacedSpec | packages/rpc-main/src/rpc-server.ts:215-326 | once the placeholder is in place, the id ends registered to the execution's results exactly when every step succeeded, unregistered when a step failed with a readable value, and still the placeholder when it failed with `null`/`undefined`. `onOperation`, when set, is called with the message and the base params |
| ServerValues.StartSpec | packages/rpc-main/src/rpc-server.ts:195-327 | a START changes only its own id. The id ends registered to the execution's results exactly when every step succeeded, and unregistered when a step failed with a value the `catch` can read. A failure with `null`/`undefined` leaves the id as it was when the chain failed: untouched when the init outcome rejected (and nothing is logged), the placeholder otherwise. With an accepted init outcome, an already registered id is torn down first (one completion), and `onOperation` sees a context copied from the init result |
| ServerValues.UnservedKindsRejected | packages/rpc-main/src/rpc-server.ts:334-335 | any type that is not one of the four client-to-server kinds gets exactly one `error` with message `Invalid message type!` for its id, and the registry is unchanged |
| ServerValues.MessageTouchesOwnId | packages/rpc-main/src/rpc-server.ts:124-338 | a received message leaves every other id's registration unchanged and only appends to the log. It changes the init outcome only when it is a `connection_init` and `onConnect` is set |
| ServerValues.DataMessagesSpec | packages/rpc-main/src/rpc-server.ts:266-280 | one `data` message per result, in production order, each carrying the formatted result unless formatting threw |
| ServerValues.StreamOrder | packages/rpc-main/src/rpc-server.ts:265-301 | the results go out as DATA in order, then exactly one COMPLETE with a `null` payload when they ran out, or one ERROR when the iteration failed. Nothing follows when `Object.keys` throws on the error |
| ServerValues.PlainErrorsFlattened | packages/rpc-main/src/rpc-server.ts:284-300 | an error with no own keys is sent as `{name, message}`, whatever `formatError` made of it |
| RpcServer.ConnectionContext.constructor | packages/rpc-main/src/rpc-server.ts:59-63 | an empty registry, the current dialect, and an init outcome of `true` |
| RpcServer.RpcMainInstance.constructor | packages/rpc-main/src/rpc-server.ts:38-52 | a fresh context with nothing logged |
| RpcServer.RpcMainInstance.Create | packages/rpc-main/src/rpc-server.ts:38-52 | throws exactly when `execute` is missing; otherwise a fresh server with an empty registry and log, keeping the hooks and the schema flag |
| RpcServer.RpcMainInstance.SendMessage | packages/rpc-main/src/rpc-server.ts:348-356 | one message is logged |
| RpcServer.RpcMainInstance.SendError | packages/rpc-main/src/rpc-server.ts:358-375 | sends the message the guard allows, or throws before anything is sent |
| RpcServer.RpcMainInstance.ReportError | packages/rpc-main/src/rpc-server.ts:358-375 | every call site's `sendError` sends its error, which is proved against the guard |
| RpcServer.RpcMainInstance.SendKeepAlive | packages/rpc-main/src/rpc-server.ts:340-346 | sends the keep-alive kind of the connection's dialect |
| RpcServer.RpcMainInstance.Unsubscribe | packages/rpc-main/src/rpc-server.ts:104-116 | moves the registry and log as `unsubscribe` specifies |
| RpcServer.RpcMainInstance.OnClose | packages/rpc-main/src/rpc-server.ts:118-122 | every registered id is torn down once, in some order; the registry ends empty |
| RpcServer.RpcMainInstance.ConnectionClosed | packages/rpc-main/src/rpc-server.ts:65-84 | moves the registry and log as the close handler specifies, for the order its teardown took |
| RpcServer.RpcMainInstance.OnMessage | packages/rpc-main/src/rpc-server.ts:124-338 | moves the registry, log and init outcome as the dispatch specifies, records the parsed dialect, and keeps the init invariant |
| RpcServer.RpcMainInstance.Init | packages/rpc-main/src/rpc-server.ts:140-189 | `onConnect` replaces the init outcome, then the reply `InitReplySpec` describes is logged (none for a rejection with `null`/`undefined`) |
| RpcServer.RpcMainInstance.Start | packages/rpc-main/src/rpc-server.ts:195-327 | the START step as `AfterStart` specifies |
| RpcServer.RpcMainInstance.Placed | packages/rpc-main/src/rpc-server.ts:215-326 | the START step after placement, as `AfterPlaced` specifies |
| RpcServer.RpcMainInstance.ContinueWithParams | packages/rpc-main/src/rpc-server.ts:225-320 | the params chain as `RunParams` specifies |
| RpcServer.RpcMainInstance.OperationChainRejected | packages/rpc-main/src/rpc-server.ts:310-320 | GraphQL errors go out as `data`, anything else as `error`, then the id is unregistered; a `null`/`undefined` value changes nothing |
| RpcServer.RpcMainInstance.InitChainRejected | packages/rpc-main/src/rpc-server.ts:322-326 | one `error`, then the id is unregistered; a `null`/`undefined` value changes nothing |
| RpcServer.RpcMainInstance.DeliverResults | packages/rpc-main/src/rpc-server.ts:265-302 | logs exactly the stream messages; the registry is left as it is |

## Left out

- Transport wrappers, `JSON.stringify`/`parse` and socket I/O: the transport is a status input and a log of sends and closes.
- The Apollo link adapter, the example apps and the build configuration have no engine logic.
- The type-only interface files are used only for the shapes of operations, contexts and messages.
- The GraphQL printer, `getOperationAST`, `parse`, `validate`, `execute`/`subscribe`, `isASubscriptionOperation`, `createEmptyIterable` and `iterall` are not modelled. Each is an input of the step that uses it: a document prints as the source it carries, whether an operation was found is a flag, and the execution is a failure or a started iterator.
- The legacy-dialect translation is not modelled. It is an input to `OnMessage` that may throw, may yield no message, or yields a message and the dialect flag. Outgoing messages are logged before translation.
- Backoff durations, jitter and timer delays are not modelled. Timers are armed flags with fire methods, and the backoffs are attempt counters that `connection_ack` resets.
- Promise interleaving is not modelled. START is one sequential step whose inputs are the settled outcomes. The relative order of the legacy `subscription_success` and the stream messages is not modelled: `DeliverResults` is a separate step.
- `RpcServer.RpcMainInstance.Start`: when `onOperation` rejects, the report of the outer `catch` is placed before that of the inner one. This follows the microtask order of the chain as written, with no scheduler modelled.
- `RpcServer.RpcMainInstance.OnClose`: the order in which `Object.keys` lists client-chosen ids is not modelled. The contract holds for every order.
- `console.error` calls are not modelled.
- The event-listener API (`on`, `onConnected`, …) and `getObserver` are not modelled. Emitted events are logged by name, and the observer is the `Notify` mapping.
- The server's `close()` calls `closeHandler`, which nothing assigns, so it always throws a `TypeError`. It is not modelled.
- The server's keep-alive interval after `connection_ack` is not modelled, because `keepAlive` is never assigned and that branch cannot run.
- The 10 ms delay before `close(1011)` is not modelled: the close is logged right after the refusal.
- The closing of the transport on `connection_terminate` is logged. The server close handler that the transport then runs is a separate call of `ConnectionClosed`.
- The messages of the engine-specific `TypeError`s are not modelled: the one a property read on `null`/`undefined` throws on the server is an `Error` named `TypeError` whose message is an input, and the client's destructuring of missing options throws a fixed stand-in.
- Prototypes are not modelled. The context copy keeps the init result's own properties only.
- A `null` message id is modelled as an absent one.
- Ids equal to `Object.prototype` property names are not modelled.
- The `Transport is required!` check is not modelled: the client is always built with a transport.
- The client's `_transport === null` paths are not modelled: `status` is never `Close` because the transport is never cleared.
- `RpcClient.RpcHostInstance.OnOpen`: the `await` on the connection params is one step, so messages routed while it is pending are not modelled, and neither is a params promise that never settles (the source then never sends the handshake).
- `RpcClient.RpcHostInstance.Request`: the observable it returns is not an object of the model. Its `subscribe` is `ExecuteOperation` with a handler id standing for the closure that `Notify` describes; what the observer receives is stated by `RpcClient.ObserverSeesReplies` and `RpcClient.ObserverSeesSetupFailure`, not by `Request`'s contract. The `unsubscribe` it returns is `Unsubscribe` of that id.
- `RpcClient.RpcHostInstance.ConsumeReply`: handler calls are log entries, so re-entrant code in them is not modelled. In the source an observer whose `complete` or `error` unsubscribes runs `unsubscribe` before the `delete`, so the id is still registered and a STOP is sent for it; the model sends none.
- `RpcClient.RpcHostInstance.ExecuteOperation`: the options are values, so aliasing is not modelled. In the source `applyMiddlewares` updates the very options object registered under the id, so a requeue (`RpcClient.RpcHostInstance.RequeueOperations`) while an asynchronous middleware is pending sends the partly updated object; the model sends the options as registered.
- `RpcClient.RpcHostInstance.SetInactivityTimeout`: one armed flag stands for the inactivity timer. When the source arms a second timer while one is pending (a second `subscribe` on the same observable after the first operation was unsubscribed, say), it overwrites the timer id without clearing it, so the first timer still fires and no later clear reaches it; the model keeps only the latest timer.
- `ClientValues.Print`: a truthy `query` that is neither a string nor a parsed document prints as the empty string, where the GraphQL printer throws. The option check passes only strings and documents `getOperationAST` accepted, so only a connection-params value carrying such a `query` reaches it.
- `RpcClient.RpcHostInstance.SettleOperation`: the result of `getOperationAST` is an input flag.
- Numbers are integers, so `NaN` and fractional values do not arise.

## Behaviour of the code worth knowing

In each of these places the model follows the code, where a description of the protocol
might lead a reader to expect something else.

- A forced client close unsubscribes every operation with a STOP, but calls none of their handlers: callers get neither an error nor a completion.
- A client that receives DATA whose payload is `null` or `undefined` throws while reading `errors`; nothing is delivered.
- The server never sets up keep-alives after `connection_ack`, whatever the options say.
- `connection_ack` does not clear the client's connect timeout: the timer stays armed and fires harmlessly once the transport is open.
- The server sends `complete` when an operation's results run out, but leaves the id registered until a STOP or the connection closes.
- A forced close re-arms the inactivity timer when it unsubscribes the last operation.
- Params that are not an object, or that lack a schema, produce two `error` messages for the id: one from the check and one from the `catch`.
- A rejection or throw with `null` or `undefined` anywhere in the server's START chain, in the init promise or in the legacy parser is never reported: the `catch` throws reading a property of it. A START then leaves its placeholder registered, and a rejected init outcome neither refuses the connection nor closes it.
- When a stream error has no own keys, the result of `formatError` is computed and then discarded. The check looks at the original error, not the formatted one.
