/**
 * Pure specification of the client engine's outputs and registry order: how a message is
 * routed by transport status, and the order in which the registered ids are visited.
 */
module ClientRouting {
  import opened Wrappers
  import opened Decimal
  import opened JsValues
  import opened MessageTypes
  import opened Protocol
  import opened ClientValues

  /** Transport status. A transport that reports none counts as open. */
  datatype Status = Connecting | Open | Closing | Closed

  /** Names of the events the engine emits to its listeners. */
  datatype EventName =
    | EventConnecting | EventConnected | EventReconnecting | EventReconnected
    | EventDisconnected | EventError

  /** Caller-supplied handlers are opaque; a handler is known by a token. */
  type HandlerId = nat

  /** A registered operation: its (processed) options and its result handler. */
  datatype Operation = Operation(options: JsValue, handler: HandlerId)

  /** What the engine does to the outside world, in order. */
  datatype Effect =
    | Sent(m: Message)                 // `transport.send`
    | Emitted(event: EventName)        // `eventEmitter.emit`
    | HandlerCalled(handler: HandlerId, errors: Option<seq<JsValue>>, result: JsValue)
    | ConnectionCallbackCalled(arg: JsValue)
    | TransportClosed                  // `transport.close()`

  /** The effect log together with the queue of messages held back while connecting. */
  datatype Outputs = Outputs(log: seq<Effect>, queue: seq<Message>)

  function Append(out: Outputs, effects: seq<Effect>): Outputs {
    Outputs(out.log + effects, out.queue)
  }

  /**
   * `sendMessageRaw`: sent when open, queued when connecting, dropped otherwise, with an
   * `error` event unless a reconnect is under way.
   */
  function Route(status: Status, reconnecting: bool, m: Message, out: Outputs): Outputs {
    match status
    case Open => Outputs(out.log + [Sent(m)], out.queue)
    case Connecting => Outputs(out.log, out.queue + [m])
    case _ => if reconnecting then out else Outputs(out.log + [Emitted(EventError)], out.queue)
  }

  /** Routing a sequence of messages one after another under one status. */
  function RouteAll(status: Status, reconnecting: bool, ms: seq<Message>, out: Outputs): Outputs {
    if ms == [] then out
    else Route(status, reconnecting, ms[|ms| - 1], RouteAll(status, reconnecting, ms[..|ms| - 1], out))
  }

  function Sends(ms: seq<Message>): (r: seq<Effect>)
    ensures |r| == |ms| && forall i :: 0 <= i < |ms| ==> r[i] == Sent(ms[i])
  {
    seq(|ms|, i requires 0 <= i < |ms| => Sent(ms[i]))
  }

  lemma RouteAllSnoc(status: Status, reconnecting: bool, ms: seq<Message>, m: Message, out: Outputs)
    ensures RouteAll(status, reconnecting, ms + [m], out) == Route(status, reconnecting, m, RouteAll(status, reconnecting, ms, out))
  {
    assert (ms + [m])[..|ms|] == ms;
  }

  /** While open, every message goes to the transport, in order, and the queue is untouched. */
  lemma {:induction false} RouteAllOpen(reconnecting: bool, ms: seq<Message>, out: Outputs)
    ensures RouteAll(Open, reconnecting, ms, out) == Outputs(out.log + Sends(ms), out.queue)
  {
    if ms != [] {
      var init := ms[..|ms| - 1];
      RouteAllOpen(reconnecting, init, out);
      assert ms == init + [ms[|ms| - 1]];
      assert Sends(ms) == Sends(init) + [Sent(ms[|ms| - 1])];
    }
  }

  /** While connecting, every message joins the queue, in order, and nothing is sent. */
  lemma {:induction false} RouteAllConnecting(reconnecting: bool, ms: seq<Message>, out: Outputs)
    ensures RouteAll(Connecting, reconnecting, ms, out) == Outputs(out.log, out.queue + ms)
  {
    if ms != [] {
      var init := ms[..|ms| - 1];
      RouteAllConnecting(reconnecting, init, out);
      assert ms == init + [ms[|ms| - 1]];
    }
  }

  /** While closed and reconnecting, messages are dropped without a trace. */
  lemma {:induction false} RouteAllDroppedSilently(status: Status, ms: seq<Message>, out: Outputs)
    requires status in {Closing, Closed}
    ensures RouteAll(status, true, ms, out) == out
  {
    if ms != [] {
      RouteAllDroppedSilently(status, ms[..|ms| - 1], out);
    }
  }

  lemma {:induction false} RouteAllConcat(status: Status, reconnecting: bool, ms: seq<Message>, ns: seq<Message>, out: Outputs)
    ensures RouteAll(status, reconnecting, ms + ns, out) == RouteAll(status, reconnecting, ns, RouteAll(status, reconnecting, ms, out))
  {
    if ns != [] {
      var init := ns[..|ns| - 1];
      var last := ns[|ns| - 1];
      RouteAllConcat(status, reconnecting, ms, init, out);
      assert ms + ns == (ms + init) + [last];
      RouteAllSnoc(status, reconnecting, ms + init, last, out);
    } else {
      assert ms + ns == ms;
    }
  }

  // ---------------------------------------------------------------- operation ids

  /**
   * The registry is keyed by the number `n` of the id `String(n)`: every key the engine
   * ever stores is such a rendering, so a lookup by a string id goes through `KeyOf`.
   */
  function IdOf(n: nat): string {
    NatToString(n)
  }

  /** The registry key a string id denotes, if it is the rendering of a number. */
  function KeyOf(id: string): (r: Option<nat>)
    ensures r.Some? ==> IdOf(r.value) == id
  {
    var n := ParseNat(id);
    if NatToString(n) == id then Some(n) else None
  }

  /** Issued ids map back to their key, so string ids and keys correspond one to one. */
  lemma KeyOfIdOf(n: nat)
    ensures KeyOf(IdOf(n)) == Some(n)
  {
    ParseNatToString(n);
  }

  /**
   * The keys among `keys` in `1..n`, ascending, which is the order `Object.keys` gives
   * for integer-like keys.
   */
  function AscendingIds(keys: set<nat>, n: nat): seq<nat> {
    if n == 0 then []
    else AscendingIds(keys, n - 1) + (if n in keys then [n] else [])
  }

  /** Each key in `1..n` is visited once, in strictly increasing order, and nothing else. */
  lemma {:induction false} AscendingIdsSpec(keys: set<nat>, n: nat)
    ensures var ids := AscendingIds(keys, n);
      && (forall k :: k in ids <==> k in keys && 1 <= k <= n)
      && (forall i, j :: 0 <= i < j < |ids| ==> ids[i] < ids[j])
      && (forall i :: 0 <= i < |ids| ==> 1 <= ids[i] <= n)
  {
    if n > 0 {
      AscendingIdsSpec(keys, n - 1);
    }
  }

  predicate AscendingIdsInKeysAt(keys: set<nat>, n: nat) {
    forall i :: 0 <= i < |AscendingIds(keys, n)| ==> AscendingIds(keys, n)[i] in keys
  }

  /** Every visited id is a key. */
  lemma AscendingIdsInKeys(keys: set<nat>, n: nat)
    ensures AscendingIdsInKeysAt(keys, n)
  {
    AscendingIdsSpec(keys, n);
  }

  /** The entries of `ops` whose key is above `n`: what `unsubscribeAll` has not reached yet. */
  function Above(ops: map<nat, Operation>, n: nat): (r: map<nat, Operation>)
    ensures forall k :: k in r <==> k in ops && k > n
    ensures forall k :: k in r ==> r[k] == ops[k]
  {
    map k | k in ops && k > n :: ops[k]
  }

  /** Passing key `n` removes exactly `n`. */
  lemma AboveStep(ops: map<nat, Operation>, n: nat)
    requires n >= 1
    ensures Above(ops, n) == Above(ops, n - 1) - {n}
  {
    assert Above(ops, n).Keys == (Above(ops, n - 1) - {n}).Keys;
  }

  /** Nothing is passed before key 1, and everything by the last issued key. */
  lemma AboveBounds(ops: map<nat, Operation>, bound: nat)
    requires forall k :: k in ops ==> 1 <= k <= bound
    ensures Above(ops, 0) == ops
    ensures Above(ops, bound) == map[]
  {
    assert Above(ops, bound).Keys == {};
  }

  /** The STOP `unsubscribe` sends for key `k`: its payload is `undefined`. */
  function StopMessage(k: nat): Message {
    Message(Some(IdOf(k)), ToString(GqlStop), Undefined)
  }

  /** `buildMessage` leaves the `undefined` payload of a STOP as it is. */
  lemma StopMessageBuilt(k: nat)
    ensures StopMessage(k) == BuildMessage(Some(IdOf(k)), GqlStop, Undefined)
  {
  }

  /** One STOP per id, in the order of the ids. */
  function StopMessages(ids: seq<nat>): seq<Message> {
    if ids == [] then [] else StopMessages(ids[..|ids| - 1]) + [StopMessage(ids[|ids| - 1])]
  }

  lemma {:induction false} StopMessagesSpec(ids: seq<nat>)
    ensures |StopMessages(ids)| == |ids|
    ensures forall i :: 0 <= i < |ids| ==> StopMessages(ids)[i] == StopMessage(ids[i])
  {
    if ids != [] {
      StopMessagesSpec(ids[..|ids| - 1]);
    }
  }

  /** Routing the STOPs of the ids up to `n` extends the routing of those up to `n - 1` by at most one. */
  lemma StopMessagesRouteStep(status: Status, reconnecting: bool, keys: set<nat>, n: nat, out: Outputs)
    requires n >= 1
    ensures var before := RouteAll(status, reconnecting, StopMessages(AscendingIds(keys, n - 1)), out);
      RouteAll(status, reconnecting, StopMessages(AscendingIds(keys, n)), out) ==
      (if n in keys then Route(status, reconnecting, StopMessage(n), before) else before)
  {
    var ids := AscendingIds(keys, n - 1);
    var sent := StopMessages(ids);
    if n in keys {
      assert AscendingIds(keys, n) == ids + [n];
      assert (ids + [n])[..|ids|] == ids;
      assert StopMessages(ids + [n]) == sent + [StopMessage(n)];
      RouteAllSnoc(status, reconnecting, sent, StopMessage(n), out);
    } else {
      assert AscendingIds(keys, n) == ids;
    }
  }

  function StartMessage(k: nat, op: Operation): Message {
    BuildMessage(Some(IdOf(k)), GqlStart, op.options)
  }

  /** The START messages `tryReconnect` requeues, one per registered id, in the order of the ids. */
  function StartMessages(ids: seq<nat>, ops: map<nat, Operation>): seq<Message>
    requires forall i :: 0 <= i < |ids| ==> ids[i] in ops
  {
    if ids == [] then [] else StartMessages(ids[..|ids| - 1], ops) + [StartMessage(ids[|ids| - 1], ops[ids[|ids| - 1]])]
  }

  lemma {:induction false} StartMessagesSpec(ids: seq<nat>, ops: map<nat, Operation>)
    requires forall i :: 0 <= i < |ids| ==> ids[i] in ops
    ensures |StartMessages(ids, ops)| == |ids|
    ensures forall i :: 0 <= i < |ids| ==> StartMessages(ids, ops)[i] == StartMessage(ids[i], ops[ids[i]])
  {
    if ids != [] {
      StartMessagesSpec(ids[..|ids| - 1], ops);
    }
  }

  /** The STARTs for the keys up to `n` extend those up to `n - 1` by at most one. */
  lemma StartMessagesStep(ops: map<nat, Operation>, n: nat)
    requires n >= 1
    ensures AscendingIdsInKeysAt(ops.Keys, n) && AscendingIdsInKeysAt(ops.Keys, n - 1)
    ensures StartMessages(AscendingIds(ops.Keys, n), ops) ==
      StartMessages(AscendingIds(ops.Keys, n - 1), ops) + (if n in ops then [StartMessage(n, ops[n])] else [])
  {
    AscendingIdsInKeys(ops.Keys, n);
    AscendingIdsInKeys(ops.Keys, n - 1);
    var ids := AscendingIds(ops.Keys, n - 1);
    if n in ops {
      assert AscendingIds(ops.Keys, n) == ids + [n];
      assert (ids + [n])[..|ids|] == ids;
      assert StartMessages(ids + [n], ops) == StartMessages(ids, ops) + [StartMessage(n, ops[n])];
    } else {
      assert AscendingIds(ops.Keys, n) == ids;
    }
  }

  /**
   * The outputs once a STOP was routed for each key of `keys` in `1..n`, in ascending
   * key order: what `unsubscribeAll` leaves behind once it has passed key `n`.
   */
  function RouteStops(status: Status, reconnecting: bool, keys: set<nat>, n: nat, out: Outputs): Outputs {
    if n == 0 then out
    else
      var before := RouteStops(status, reconnecting, keys, n - 1, out);
      if n in keys then Route(status, reconnecting, StopMessage(n), before) else before
  }

  /** `RouteStops` routes exactly the STOPs of the keys in `Object.keys` order. */
  lemma {:induction false} RouteStopsInKeyOrder(status: Status, reconnecting: bool, keys: set<nat>, n: nat, out: Outputs)
    ensures RouteStops(status, reconnecting, keys, n, out) ==
      RouteAll(status, reconnecting, StopMessages(AscendingIds(keys, n)), out)
  {
    if n > 0 {
      RouteStopsInKeyOrder(status, reconnecting, keys, n - 1, out);
      StopMessagesRouteStep(status, reconnecting, keys, n, out);
    }
  }

  /** The STARTs of the registered keys in `1..n`, in ascending key order. */
  function Restarts(ops: map<nat, Operation>, n: nat): seq<Message> {
    if n == 0 then []
    else Restarts(ops, n - 1) + (if n in ops then [StartMessage(n, ops[n])] else [])
  }

  /** `Restarts` holds exactly the STARTs of the registered ids in `Object.keys` order. */
  lemma {:induction false} RestartsInKeyOrder(ops: map<nat, Operation>, n: nat)
    ensures AscendingIdsInKeysAt(ops.Keys, n)
    ensures Restarts(ops, n) == StartMessages(AscendingIds(ops.Keys, n), ops)
  {
    AscendingIdsInKeys(ops.Keys, n);
    if n > 0 {
      RestartsInKeyOrder(ops, n - 1);
      StartMessagesStep(ops, n);
    }
  }

  /** The requeue of a reconnect holds exactly one START per registered operation. */
  lemma RequeueCoversRegistry(ops: map<nat, Operation>, n: nat)
    requires forall k :: k in ops ==> 1 <= k <= n
    ensures |Restarts(ops, n)| == |ops|
    ensures forall k :: k in ops ==> StartMessage(k, ops[k]) in Restarts(ops, n)
  {
    RestartsInKeyOrder(ops, n);
    RequeueCount(ops, n);
    var ids := AscendingIds(ops.Keys, n);
    StartMessagesSpec(ids, ops);
    forall k | k in ops
      ensures StartMessage(k, ops[k]) in StartMessages(ids, ops)
    {
      AscendingIdsSpec(ops.Keys, n);
      var i :| 0 <= i < |ids| && ids[i] == k;
      assert StartMessages(ids, ops)[i] == StartMessage(k, ops[k]);
    }
  }
  /** The ids visited up to the highest issued key are exactly as many as the registered operations. */
  lemma RequeueCount(ops: map<nat, Operation>, n: nat)
    requires forall k :: k in ops ==> 1 <= k <= n
    ensures AscendingIdsInKeysAt(ops.Keys, n)
    ensures |StartMessages(AscendingIds(ops.Keys, n), ops)| == |ops|
  {
    var ids := AscendingIds(ops.Keys, n);
    AscendingIdsInKeys(ops.Keys, n);
    AscendingIdsSpec(ops.Keys, n);
    StartMessagesSpec(ids, ops);
    DistinctCardinality(ids);
    assert (set i | 0 <= i < |ids| :: ids[i]) == ops.Keys;
    assert |ops| == |ops.Keys|;
  }

  /** A strictly increasing sequence has as many elements as it has distinct ones. */
  lemma {:induction false} DistinctCardinality(ids: seq<nat>)
    requires forall i, j :: 0 <= i < j < |ids| ==> ids[i] < ids[j]
    ensures |set i | 0 <= i < |ids| :: ids[i]| == |ids|
  {
    if ids != [] {
      var init := ids[..|ids| - 1];
      DistinctCardinality(init);
      var s := set i | 0 <= i < |ids| :: ids[i];
      var t := set i | 0 <= i < |init| :: init[i];
      assert s == t + {ids[|ids| - 1]};
      assert ids[|ids| - 1] !in t;
    }
  }
}
