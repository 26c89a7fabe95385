/**
 Message bodies, the handler registry and the routing decision of the message processor.
 A body is kept only as far as the processor looks at it.
 */
module Messages {
  import opened Wrappers

  type Handler = nat

  /** The value stored under "event_type" in a decoded JSON object. */
  datatype EventType =
    | Absent                  // the key is missing: the processor looks up ""
    | Text(text: string)
    | OtherKey                // a number, a boolean or null: never a registered key
    | Unhashable              // a list or an object: the lookup itself raises

  datatype Body =
    | Undecodable             // not UTF-8, or not JSON
    | NotAnObject             // JSON, but without a `get` method
    | Object(eventType: EventType)

  /** What the processor decides before any handler runs. */
  datatype Route =
    | Drops                   // leaves `message.process` normally
    | Faults                  // leaves `message.process` with an exception
    | Calls(handler: Handler)

  /** How an awaited handler ends; `Interrupted` is CancelledError, which `except Exception` does not catch. */
  datatype Outcome = Returned | RaisedException | Interrupted

  /** What a settlement asks of the broker. Ack and nack without requeue are both `Final`. */
  datatype Settlement = Final | Requeue

  type Registry = map<string, Handler>

  function Find(handlers: Registry, key: string): Option<Handler> {
    if key in handlers then Some(handlers[key]) else None
  }

  /** The key a body asks the registry for, if it gets that far. */
  function KeyOf(body: Body): Option<string> {
    match body
    case Object(Absent) => Some("")
    case Object(Text(key)) => Some(key)
    case _ => None
  }

  function RouteOf(handlers: Registry, body: Body): Route {
    match body
    case Undecodable => Drops
    case NotAnObject => Faults
    case Object(Unhashable) => Faults
    case Object(OtherKey) => Drops
    case Object(Absent) => RouteKey(handlers, "")
    case Object(Text(key)) => RouteKey(handlers, key)
  }

  function RouteKey(handlers: Registry, key: string): Route {
    if key in handlers then Calls(handlers[key]) else Drops
  }

  /** The settlement that an ended handler leads to. */
  function SettlementOf(outcome: Outcome): Settlement {
    if outcome == RaisedException then Requeue else Final
  }

  // ----- the registry as a history of registrations

  datatype Registration = Registration(key: string, handler: Handler)

  function RegistryAfter(history: seq<Registration>): Registry {
    if history == [] then map[]
    else
      var last := history[|history| - 1];
      RegistryAfter(history[..|history| - 1])[last.key := last.handler]
  }

  /** Position i of the history is the last one that registers `key`. */
  ghost predicate LastFor(history: seq<Registration>, key: string, i: nat) {
    && i < |history|
    && history[i].key == key
    && forall j | i < j < |history| :: history[j].key != key
  }

  /** A key is bound iff it was ever registered, and then to its last registration. */
  lemma {:induction false} LastRegistrationWins(history: seq<Registration>, key: string)
    ensures key !in RegistryAfter(history) <==> (forall i | 0 <= i < |history| :: history[i].key != key)
    ensures key in RegistryAfter(history) ==>
              exists i: nat :: LastFor(history, key, i) && RegistryAfter(history)[key] == history[i].handler
  {
    if history != [] {
      var n := |history| - 1;
      LastRegistrationWins(history[..n], key);
      if history[n].key == key {
        assert LastFor(history, key, n);
      } else if key in RegistryAfter(history[..n]) {
        var i: nat :| LastFor(history[..n], key, i) && RegistryAfter(history[..n])[key] == history[..n][i].handler;
        assert LastFor(history, key, i);
      }
    }
  }
}
