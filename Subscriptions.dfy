/**
 * The subscription registry of src/MongoRPC/Subscription.ts: each installed handler
 * is a `Subscription` registered under its method name in the endpoint's
 * `SubscriptionMap`, and `Invoke` races the handler against the callee-side timer.
 *
 * The handler itself is not modelled: what it does, and when the timer fires
 * relative to it, is given to `Invoke` as the order in which the completions arrive.
 */
module Subscriptions {
  import opened Wrappers
  import opened Exceptions
  import opened Promises

  /** The rejection of an invocation whose callee-side timer fired first. */
  const CalleeTimeout: Error := Construct(TimeoutError, "Callee timeout.")

  /**
   * A call into one of invoke's settle functions: the handler's promise fulfilled, the
   * handler threw (synchronously, or its promise rejected), or the timer fired.
   */
  datatype Completion = HandlerReturned(value: string) | HandlerThrew(thrown: Thrown) | TimerFired

  /** What a completion would settle invoke's promise with. */
  function Attempt(c: Completion): Settled<Thrown> {
    match c
    case HandlerReturned(v) => Fulfilled(v)
    case HandlerThrew(t) => Rejected(t)
    case TimerFired => Rejected(Raised(CalleeTimeout))
  }

  function Attempts(race: seq<Completion>): (r: seq<Settled<Thrown>>)
    ensures |r| == |race| && forall i :: 0 <= i < |race| ==> r[i] == Attempt(race[i])
  {
    seq(|race|, i requires 0 <= i < |race| => Attempt(race[i]))
  }

  /** `SubscriptionMap`: the endpoint's handlers by method name. */
  class SubscriptionMap {
    var handlers: map<string, Subscription>

    constructor()
      ensures handlers == map[]
    {
      handlers := map[];
    }
  }

  /**
   * The names every plain object inherits from `Object.prototype`. A `SubscriptionMap`
   * is a plain object, so reading one of these names from it, when it has no own entry
   * under that name, gives a truthy value that is not a Subscription.
   */
  predicate IsPrototypeName(m: string) {
    m in {"constructor", "hasOwnProperty", "isPrototypeOf", "propertyIsEnumerable",
          "toLocaleString", "toString", "valueOf", "__proto__",
          "__defineGetter__", "__defineSetter__", "__lookupGetter__", "__lookupSetter__"}
  }

  /** What `subscribers[m]` reads: an own entry, an inherited member, or `undefined`. */
  datatype Lookup = Own | Inherited | Missing

  function LookUp(handlers: map<string, Subscription>, m: string): Lookup {
    if m in handlers then Own else if IsPrototypeName(m) then Inherited else Missing
  }

  class Subscription {
    const registry: SubscriptionMap
    const methodName: string
    const timeout: nat

    /** Installs itself under its method name, replacing whatever was there. */
    constructor(registry: SubscriptionMap, methodName: string, timeout: nat)
      modifies registry
      ensures this.registry == registry && this.methodName == methodName && this.timeout == timeout
      ensures registry.handlers == old(registry.handlers)[methodName := this]
    {
      this.registry := registry;
      this.methodName := methodName;
      this.timeout := timeout;
      new;
      registry.handlers := registry.handlers[methodName := this];
    }

    /**
     * `invoke`: the completions in `race` call resolveOnce or rejectOnce in the order
     * they arrive; the `finished` flag lets only the first one settle. The result is
     * `None` while nothing has arrived (the awaiting caller is still suspended).
     */
    method Invoke(args: string, race: seq<Completion>) returns (settled: Option<Settled<Thrown>>)
      ensures settled == if race == [] then None else Some(Attempt(race[0]))
      ensures settled == SettleAll(None, Attempts(race))
    {
      var finished := false;
      settled := None;
      var i := 0;
      while i < |race|
        invariant 0 <= i <= |race|
        invariant finished <==> i > 0
        invariant settled == if i == 0 then None else Some(Attempt(race[0]))
      {
        if !finished {
          finished := true;
          settled := Some(Attempt(race[i]));
        }
        i := i + 1;
      }
      FirstAttemptWins(None, Attempts(race));
    }

    /** `close`: deletes its method's key, and no other. */
    method Close()
      modifies registry
      ensures registry.handlers == old(registry.handlers) - {methodName}
    {
      registry.handlers := registry.handlers - {methodName};
    }
  }
}
