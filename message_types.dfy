/**
 * The closed vocabulary of message kinds: ten current kinds and nine deprecated kinds
 * spoken by peers of the legacy dialect. On the wire a kind is a string literal.
 */
module MessageTypes {
  import opened Wrappers

  datatype MessageKind =
    | GqlConnectionInit       // client -> server
    | GqlConnectionAck        // server -> client
    | GqlConnectionError      // server -> client
    | GqlConnectionKeepAlive  // server -> client
    | GqlConnectionTerminate  // client -> server
    | GqlStart                // client -> server
    | GqlData                 // server -> client
    | GqlError                // server -> client
    | GqlComplete             // server -> client
    | GqlStop                 // client -> server
    // deprecated kinds
    | SubscriptionStart
    | SubscriptionData
    | SubscriptionSuccess
    | SubscriptionFail
    | SubscriptionEnd
    | Init
    | InitSuccess
    | InitFail
    | KeepAlive

  /** Decodes a wire `type` string; `None` for a string that names no kind. */
  function FromString(s: string): Option<MessageKind> {
    if s == "connection_init" then Some(GqlConnectionInit)
    else if s == "connection_ack" then Some(GqlConnectionAck)
    else if s == "connection_error" then Some(GqlConnectionError)
    else if s == "ka" then Some(GqlConnectionKeepAlive)
    else if s == "connection_terminate" then Some(GqlConnectionTerminate)
    else if s == "start" then Some(GqlStart)
    else if s == "data" then Some(GqlData)
    else if s == "error" then Some(GqlError)
    else if s == "complete" then Some(GqlComplete)
    else if s == "stop" then Some(GqlStop)
    else if s == "subscription_start" then Some(SubscriptionStart)
    else if s == "subscription_data" then Some(SubscriptionData)
    else if s == "subscription_success" then Some(SubscriptionSuccess)
    else if s == "subscription_fail" then Some(SubscriptionFail)
    else if s == "subscription_end" then Some(SubscriptionEnd)
    else if s == "init" then Some(Init)
    else if s == "init_success" then Some(InitSuccess)
    else if s == "init_fail" then Some(InitFail)
    else if s == "keepalive" then Some(KeepAlive)
    else None
  }

  /** The wire literal of a kind. */
  function ToString(k: MessageKind): string {
    match k
    case GqlConnectionInit => "connection_init"
    case GqlConnectionAck => "connection_ack"
    case GqlConnectionError => "connection_error"
    case GqlConnectionKeepAlive => "ka"
    case GqlConnectionTerminate => "connection_terminate"
    case GqlStart => "start"
    case GqlData => "data"
    case GqlError => "error"
    case GqlComplete => "complete"
    case GqlStop => "stop"
    case SubscriptionStart => "subscription_start"
    case SubscriptionData => "subscription_data"
    case SubscriptionSuccess => "subscription_success"
    case SubscriptionFail => "subscription_fail"
    case SubscriptionEnd => "subscription_end"
    case Init => "init"
    case InitSuccess => "init_success"
    case InitFail => "init_fail"
    case KeepAlive => "keepalive"
  }

  /** Decoding a kind's literal gives the kind back. */
  lemma ToStringRoundTrip(k: MessageKind)
    ensures FromString(ToString(k)) == Some(k)
  {
  }

  /** Decoding only succeeds on a kind's own literal. */
  lemma FromStringSound(s: string)
    ensures FromString(s).Some? ==> ToString(FromString(s).value) == s
  {
    if s == "connection_init" {
      assert ToString(GqlConnectionInit) == s;
    } else if s == "connection_ack" {
      assert ToString(GqlConnectionAck) == s;
    } else if s == "connection_error" {
      assert ToString(GqlConnectionError) == s;
    } else if s == "ka" {
      assert ToString(GqlConnectionKeepAlive) == s;
    } else if s == "connection_terminate" {
      assert ToString(GqlConnectionTerminate) == s;
    } else if s == "start" {
      assert ToString(GqlStart) == s;
    } else if s == "data" {
      assert ToString(GqlData) == s;
    } else if s == "error" {
      assert ToString(GqlError) == s;
    } else if s == "complete" {
      assert ToString(GqlComplete) == s;
    } else if s == "stop" {
      assert ToString(GqlStop) == s;
    } else if s == "subscription_start" {
      assert ToString(SubscriptionStart) == s;
    } else if s == "subscription_data" {
      assert ToString(SubscriptionData) == s;
    } else if s == "subscription_success" {
      assert ToString(SubscriptionSuccess) == s;
    } else if s == "subscription_fail" {
      assert ToString(SubscriptionFail) == s;
    } else if s == "subscription_end" {
      assert ToString(SubscriptionEnd) == s;
    } else if s == "init" {
      assert ToString(Init) == s;
    } else if s == "init_success" {
      assert ToString(InitSuccess) == s;
    } else if s == "init_fail" {
      assert ToString(InitFail) == s;
    } else if s == "keepalive" {
      assert ToString(KeepAlive) == s;
    }
  }

  /** The 19 literals are pairwise distinct. */
  lemma ToStringInjective(a: MessageKind, b: MessageKind)
    ensures ToString(a) == ToString(b) <==> a == b
  {
    ToStringRoundTrip(a);
    ToStringRoundTrip(b);
  }

  predicate IsCurrent(k: MessageKind) {
    k in {GqlConnectionInit, GqlConnectionAck, GqlConnectionError, GqlConnectionKeepAlive,
          GqlConnectionTerminate, GqlStart, GqlData, GqlError, GqlComplete, GqlStop}
  }

  predicate IsDeprecated(k: MessageKind) {
    k in {SubscriptionStart, SubscriptionData, SubscriptionSuccess, SubscriptionFail,
          SubscriptionEnd, Init, InitSuccess, InitFail, KeepAlive}
  }

  /** Every kind is in exactly one of the two vocabularies. */
  lemma VocabulariesPartition(k: MessageKind)
    ensures IsCurrent(k) != IsDeprecated(k)
  {
  }

  predicate ClientToServer(k: MessageKind) {
    k in {GqlConnectionInit, GqlConnectionTerminate, GqlStart, GqlStop}
  }

  predicate ServerToClient(k: MessageKind) {
    k in {GqlConnectionAck, GqlConnectionError, GqlConnectionKeepAlive, GqlData, GqlError, GqlComplete}
  }

  /** Each current kind travels in exactly one direction. */
  lemma DirectionsPartitionCurrent(k: MessageKind)
    requires IsCurrent(k)
    ensures ClientToServer(k) != ServerToClient(k)
  {
  }

  /** The current keep-alive literal `ka` and the legacy `keepalive` are different kinds. */
  lemma KeepAliveLiteralsDiffer()
    ensures ToString(GqlConnectionKeepAlive) == "ka" && ToString(KeepAlive) == "keepalive"
    ensures FromString("ka") != FromString("keepalive")
  {
  }
}
