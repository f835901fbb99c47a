/**
 * The pure parts of the client engine: error normalisation, message building,
 * option checking, the middleware chain and the observer a request handler drives.
 */
module ClientValues {
  import opened Wrappers
  import opened JsValues
  import opened MessageTypes
  import opened Protocol

  // ---------------------------------------------------------------- formatErrors

  /** The entry that stands for a value that is neither a list nor an error. */
  function UnknownError(original: JsValue): JsValue {
    Obj([Prop("name", Str("FormatedError")), Prop("message", Str("Unknown error")),
         Prop("originalError", original)])
  }

  /** The value reached by following truthy `.errors` properties down from `v`, stopping at a list. */
  function Innermost(v: JsValue): (w: JsValue)
    ensures w.Arr? || !Truthy(w) || !Truthy(Get(w, "errors"))
  {
    if v.Arr? then v
    else if Truthy(v) && Truthy(Get(v, "errors")) then Innermost(Get(v, "errors"))
    else v
  }

  /**
   * `formatErrors`: always a list. A list is returned as it is, `.errors` is unwrapped,
   * an error-like value with a message becomes a one-element list, and anything else
   * becomes one `Unknown error` entry that carries the value.
   */
  function FormatErrors(v: JsValue): (r: seq<JsValue>)
    ensures var w := Innermost(v);
      && (w.Arr? ==> r == w.elems)
      && (!w.Arr? && Truthy(w) && Truthy(Get(w, "message")) ==> r == [w])
      && (!w.Arr? && !(Truthy(w) && Truthy(Get(w, "message"))) ==> r == [UnknownError(w)])
  {
    if v.Arr? then v.elems
    else if Truthy(v) && Truthy(Get(v, "errors")) then FormatErrors(Get(v, "errors"))
    else if Truthy(v) && Truthy(Get(v, "message")) then [v]
    else [UnknownError(v)]
  }

  /** Unless the unwrapping ends at a list, the result is one entry and that entry has a message. */
  lemma FormatErrorsSingleEntry(v: JsValue)
    requires !Innermost(v).Arr?
    ensures |FormatErrors(v)| == 1 && Truthy(Get(FormatErrors(v)[0], "message"))
  {
    var w := Innermost(v);
    if !(Truthy(w) && Truthy(Get(w, "message"))) {
      assert Lookup(UnknownError(w).props, "message") == Some(Str("Unknown error"));
    }
  }

  /** Normalising an already normalised list changes nothing. */
  lemma FormatErrorsIdempotent(v: JsValue)
    ensures FormatErrors(Arr(FormatErrors(v))) == FormatErrors(v)
  {
  }

  // ---------------------------------------------------------------- buildMessage

  /**
   * The GraphQL printer is not part of this model: a document prints as the source it
   * carries, and any other value, which the printer does not accept, as the empty string.
   */
  function Print(query: JsValue): string {
    if query.Doc? then query.source else ""
  }

  /**
   * `buildMessage`: the envelope, with a payload whose truthy `query` is replaced by its
   * printed text when it is not a string already. Every other property is kept.
   */
  function BuildMessage(id: Option<string>, kind: MessageKind, payload: JsValue): Message {
    var query := Get(payload, "query");
    var p := if Truthy(payload) && Truthy(query)
      then SpreadWith(payload, "query", if IsString(query) then query else Str(Print(query)))
      else payload;
    Message(id, ToString(kind), p)
  }

  /** `buildMessage` addresses the message to `id` and labels it with the literal of `kind`. */
  lemma BuildMessageEnvelope(id: Option<string>, kind: MessageKind, payload: JsValue)
    ensures BuildMessage(id, kind, payload).id == id && KindOf(BuildMessage(id, kind, payload)) == Some(kind)
  {
    ToStringRoundTrip(kind);
  }

  /**
   * The payload `buildMessage` sends: unchanged without a truthy `query`; otherwise a copy
   * whose `query` is the string or the printed document, with every other property kept.
   */
  lemma BuildMessagePayload(id: Option<string>, kind: MessageKind, payload: JsValue)
    ensures var m := BuildMessage(id, kind, payload);
      && (!(Truthy(payload) && Truthy(Get(payload, "query"))) ==> m.payload == payload)
      && (Truthy(payload) && Truthy(Get(payload, "query")) ==>
        && m.payload.Obj?
        && Get(m.payload, "query") ==
             (if IsString(Get(payload, "query")) then Get(payload, "query") else Str(Print(Get(payload, "query"))))
        && forall k :: k != "query" ==> Lookup(m.payload.props, k) == Lookup(OwnProps(payload), k))
  {
  }

  // ---------------------------------------------------------------- checkOperationOptions

  const MustProvideQuery := "Must provide a query."
  const IncorrectOptionTypes := "Incorrect option types. query must be a string or a document," +
    "`operationName` must be a string, and `variables` must be an object."

  /** The options `checkOperationOptions` accepts; `operationFound` is what `getOperationAST` gave. */
  predicate AcceptableOptions(options: JsValue, operationFound: bool) {
    var query := Get(options, "query");
    var name := Get(options, "operationName");
    var variables := Get(options, "variables");
    && Truthy(query)
    && (IsString(query) || operationFound)
    && (!Truthy(name) || IsString(name))
    && (!Truthy(variables) || IsObject(variables))
  }

  /**
   * Destructuring `null` or `undefined` throws a `TypeError` before any check runs (its
   * engine-specific message is not modelled).
   */
  const DestructureError := Error("TypeError", "Cannot destructure the options", [])

  /**
   * `checkOperationOptions`: the error it throws, if any. The handler is always the
   * closure `request` builds, so the missing-handler error cannot arise.
   */
  function CheckOperationOptions(options: JsValue, operationFound: bool): Option<JsValue> {
    var query := Get(options, "query");
    var name := Get(options, "operationName");
    var variables := Get(options, "variables");
    if options == Null || options == Undefined then Some(DestructureError)
    else if !Truthy(query) then Some(NewError(MustProvideQuery))
    else if (!IsString(query) && !operationFound) || (Truthy(name) && !IsString(name))
      || (Truthy(variables) && !IsObject(variables))
    then Some(NewError(IncorrectOptionTypes))
    else None
  }

  /**
   * The check passes exactly on acceptable options; `null` and `undefined` fail on the
   * destructuring, options without a truthy query with `Must provide a query.`, and every
   * error it throws is one `formatErrors` keeps as a one-element list.
   */
  lemma CheckOperationOptionsSpec(options: JsValue, operationFound: bool)
    ensures var r := CheckOperationOptions(options, operationFound);
      && (r.None? <==> AcceptableOptions(options, operationFound))
      && (options in {Null, Undefined} ==> r == Some(DestructureError))
      && (options !in {Null, Undefined} && !Truthy(Get(options, "query")) ==> r == Some(NewError(MustProvideQuery)))
      && (r.Some? ==> FormatErrors(r.value) == [r.value])
  {
  }

  // ---------------------------------------------------------------- middleware chain

  /**
   * What a middleware's `applyMiddleware` does with the options and `next`: set some
   * properties and call `next(arg)`, or never call `next` (the chain then hangs).
   */
  datatype Stage = CallsNext(updates: seq<Prop>, arg: JsValue) | NeverCallsNext

  /** A middleware object; `hasApplyMiddleware` is whether `applyMiddleware` is a function. */
  datatype Middleware = Middleware(hasApplyMiddleware: bool, stage: Stage)

  /** How the promise `applyMiddlewares` returns settles. */
  datatype Chain = Resolved(options: JsValue) | Rejected(error: JsValue) | Stalled

  function SetProps(ps: seq<Prop>, updates: seq<Prop>): seq<Prop>
    decreases |updates|
  {
    if updates == [] then ps else SetProps(SetProp(ps, updates[0].key, updates[0].value), updates[1..])
  }

  /** A stage's property assignments on the options object. */
  function Update(options: JsValue, updates: seq<Prop>): JsValue {
    if options.Obj? then Obj(SetProps(options.props, updates)) else options
  }

  /** A stage that calls `next()` with a falsy argument lets the chain go on. */
  predicate Continues(m: Middleware) {
    m.stage.CallsNext? && !Truthy(m.stage.arg)
  }

  /** The index of the first middleware whose `applyMiddleware` is not a function, or `|mws|`. */
  function FirstInvalid(mws: seq<Middleware>): (n: nat)
    ensures n <= |mws|
    ensures forall j :: 0 <= j < n ==> mws[j].hasApplyMiddleware
    ensures n < |mws| ==> !mws[n].hasApplyMiddleware
  {
    if mws == [] || !mws[0].hasApplyMiddleware then 0 else 1 + FirstInvalid(mws[1..])
  }

  /** The chain as the promise sees it: stages in order until one stops it. */
  function RunChain(stages: seq<Middleware>, options: JsValue): Chain {
    if stages == [] then Resolved(options)
    else match stages[0].stage
      case NeverCallsNext => Stalled
      case CallsNext(updates, arg) =>
        if Truthy(arg) then Rejected(arg) else RunChain(stages[1..], Update(options, updates))
  }

  /** The options after every stage has made its assignments. */
  function UpdateAll(options: JsValue, stages: seq<Middleware>): JsValue
    requires forall i :: 0 <= i < |stages| ==> stages[i].stage.CallsNext?
    decreases |stages|
  {
    if stages == [] then options else UpdateAll(Update(options, stages[0].stage.updates), stages[1..])
  }

  /** The index of the first stage that does not let the chain go on, or `|stages|`. */
  function FirstStop(stages: seq<Middleware>): (n: nat)
    ensures n <= |stages|
    ensures forall j :: 0 <= j < n ==> Continues(stages[j])
    ensures n < |stages| ==> !Continues(stages[n])
  {
    if stages == [] || !Continues(stages[0]) then 0 else 1 + FirstStop(stages[1..])
  }

  /**
   * The chain resolves, with every stage's assignments applied in order, exactly when
   * every stage calls `next` without an error; it rejects with the first truthy error
   * passed to `next`, and the stages after it do not run; it hangs at the first stage
   * that never calls `next`.
   */
  lemma {:induction false} RunChainOutcome(stages: seq<Middleware>, options: JsValue)
    ensures var n := FirstStop(stages);
      && (n == |stages| ==> RunChain(stages, options) == Resolved(UpdateAll(options, stages)))
      && (n < |stages| && stages[n].stage.CallsNext? ==> RunChain(stages, options) == Rejected(stages[n].stage.arg))
      && (n < |stages| && stages[n].stage.NeverCallsNext? ==> RunChain(stages, options) == Stalled)
  {
    if stages != [] && Continues(stages[0]) {
      RunChainOutcome(stages[1..], Update(options, stages[0].stage.updates));
      assert forall j :: 0 <= j < |stages[1..]| ==> stages[1..][j] == stages[j + 1];
    }
  }

  /** Only the stages up to the first one that stops the chain matter. */
  lemma {:induction false} RunChainIgnoresLaterStages(stages: seq<Middleware>, later: seq<Middleware>, options: JsValue)
    requires FirstStop(stages) < |stages|
    ensures RunChain(stages + later, options) == RunChain(stages, options)
  {
    if Continues(stages[0]) {
      assert (stages + later)[1..] == stages[1..] + later;
      RunChainIgnoresLaterStages(stages[1..], later, Update(options, stages[0].stage.updates));
    }
  }

  /**
   * What ends up in the `catch` of `executeOperation` once the chain has settled: the
   * rejection, or the error `checkOperationOptions` throws on the processed options.
   */
  function SetupError(chain: Chain, operationFound: bool): Option<JsValue>
    requires !chain.Stalled?
  {
    match chain
    case Resolved(options) => CheckOperationOptions(options, operationFound)
    case Rejected(error) => Some(error)
  }

  /** A rejection is reported as it is; resolved options fail exactly when they are not acceptable. */
  lemma SetupErrorSpec(chain: Chain, operationFound: bool)
    requires !chain.Stalled?
    ensures chain.Rejected? ==> SetupError(chain, operationFound) == Some(chain.error)
    ensures chain.Resolved? ==>
      (SetupError(chain, operationFound).None? <==> AcceptableOptions(chain.options, operationFound))
  {
    if chain.Resolved? {
      CheckOperationOptionsSpec(chain.options, operationFound);
    }
  }

  // ---------------------------------------------------------------- request observer

  /** The observer callback a handler call turns into. */
  datatype ObserverCall = CompleteCall | ErrorCall(error: JsValue) | NextCall(value: JsValue)

  /**
   * The handler `request` passes to `executeOperation`: `(null, null)` completes, an
   * error list reports its first entry (`undefined` when empty), anything else is a value.
   */
  function Notify(errors: Option<seq<JsValue>>, result: JsValue): ObserverCall {
    if errors.None? && result == Null then CompleteCall
    else if errors.Some? then ErrorCall(if errors.value == [] then Undefined else errors.value[0])
    else NextCall(result)
  }

  /**
   * A handler call carrying the normalised errors of `v` reports their first entry to the
   * observer, whatever the result beside them. Unless `v` unwraps to a list, that entry is
   * the only one and has a truthy message.
   */
  lemma ObserverGetsFirstError(v: JsValue, result: JsValue)
    ensures var errors := FormatErrors(v);
      && Notify(Some(errors), result) == ErrorCall(if errors == [] then Undefined else errors[0])
      && (!Innermost(v).Arr? ==> |errors| == 1 && Truthy(Get(Notify(Some(errors), result).error, "message")))
  {
    if !Innermost(v).Arr? {
      FormatErrorsSingleEntry(v);
    }
  }

  // ---------------------------------------------------------------- received DATA payload

  /**
   * A DATA payload as the handler receives it: a payload whose `errors` is truthy is
   * copied with `errors` normalised; any other payload is passed on as it is.
   */
  function DataPayload(payload: JsValue): JsValue {
    if Truthy(Get(payload, "errors"))
    then SpreadWith(payload, "errors", Arr(FormatErrors(Get(payload, "errors"))))
    else payload
  }

  /**
   * A payload without truthy `errors` is passed on as it is; otherwise the copy has the
   * normalised list as `errors` and every other own property of the payload.
   */
  lemma DataPayloadSpec(payload: JsValue)
    ensures var r := DataPayload(payload);
      && (!Truthy(Get(payload, "errors")) ==> r == payload)
      && (Truthy(Get(payload, "errors")) ==>
        && r.Obj?
        && Get(r, "errors") == Arr(FormatErrors(Get(payload, "errors")))
        && forall k :: k != "errors" ==> Lookup(r.props, k) == Lookup(OwnProps(payload), k))
  {
  }

  // ---------------------------------------------------------------- connection parameters

  /**
   * The `connectionParams` option: a plain value, a promise (with how it settles), or a
   * provider function. The promise `getConnectionParams` builds adopts a promise it is
   * resolved with, so a promise option and a provider returning a promise settle as that
   * promise does.
   */
  datatype ConnectionParamsOption = StaticParams(value: JsValue) | PromisedParams(settled: Result<JsValue, JsValue>) | ParamsProvider

  /**
   * What the awaited params settle with. A provider's outcome (the value it returns, the
   * error it throws, or how the promise it returns settles) is an input.
   */
  function ResolveConnectionParams(option: ConnectionParamsOption, providerOutcome: Result<JsValue, JsValue>): Result<JsValue, JsValue> {
    match option
    case StaticParams(v) => Ok(v)
    case PromisedParams(settled) => settled
    case ParamsProvider => providerOutcome
  }
}
