/**
 * The correlation table of src/MongoRPC/Request.ts: each call in flight is a
 * `Request` registered under its record's id in the endpoint's `RequestMap`, with a
 * caller-side timer and a promise the caller awaits.
 *
 * `CallState`/`Next` give the lifecycle of one call as a pure transition system;
 * the class methods are proved to follow it.
 */
module Requests {
  import opened Wrappers
  import opened Models
  import opened Exceptions
  import opened Promises

  /** The rejection of a call whose caller-side timer fired first. */
  const RequestTimeout: Error := Construct(TimeoutError, "Request timeout.")

  /** What can happen to one call after it is issued. */
  datatype CallEvent = ResolveWith(value: string) | RejectWith(reason: Error) | TimerFires

  /** One call: is it in the table under its id, is its timer still going to fire, how did its promise settle. */
  datatype CallState = CallState(registered: bool, timerArmed: bool, outcome: Option<Settled<Error>>)

  /** Right after construction. */
  const Issued := CallState(true, true, None)

  /**
   * `resolve` and `reject` settle the promise (a no-op if already settled) and then
   * `clear`: cancel the timer and delete the id. The timer callback runs only while
   * armed, and rejects with RequestTimeout.
   */
  function Next(s: CallState, e: CallEvent): CallState {
    match e
    case ResolveWith(v) => CallState(false, false, Settle(s.outcome, Fulfilled(v)))
    case RejectWith(x) => CallState(false, false, Settle(s.outcome, Rejected(x)))
    case TimerFires =>
      if s.timerArmed then CallState(false, false, Settle(s.outcome, Rejected(RequestTimeout))) else s
  }

  function Run(s: CallState, es: seq<CallEvent>): CallState
    decreases |es|
  {
    if es == [] then s else Run(Next(s, es[0]), es[1..])
  }

  /** A call is in the table exactly while it is unsettled, and its timer is armed only then. */
  predicate Consistent(s: CallState) {
    (s.registered <==> s.outcome.None?) && (s.timerArmed ==> s.registered)
  }

  /** How the first event settles a fresh call. */
  function FirstOutcome(e: CallEvent): Settled<Error> {
    match e
    case ResolveWith(v) => Fulfilled(v)
    case RejectWith(x) => Rejected(x)
    case TimerFires => Rejected(RequestTimeout)
  }

  lemma {:induction false} RunStaysConsistent(s: CallState, es: seq<CallEvent>)
    requires Consistent(s)
    ensures Consistent(Run(s, es))
    decreases |es|
  {
    if es != [] {
      RunStaysConsistent(Next(s, es[0]), es[1..]);
    }
  }

  /**
   * Once settled, a call is out of the table with its timer cancelled, and nothing
   * after that changes it: no second outcome, no late timeout, no table change.
   */
  lemma {:induction false} SettledCallIsFinal(s: CallState, es: seq<CallEvent>)
    requires Consistent(s) && s.outcome.Some?
    ensures Run(s, es) == s
    decreases |es|
  {
    if es != [] {
      assert Next(s, es[0]) == s;
      SettledCallIsFinal(s, es[1..]);
    }
  }

  /**
   * Pending entries are removed exactly when their call settles, and the first event
   * decides the outcome: a call that settles before its timer never times out, and
   * one whose timer fires first is rejected with RequestTimeout whatever arrives later.
   */
  lemma CallSettlesOnce(es: seq<CallEvent>)
    ensures Consistent(Run(Issued, es))
    ensures Run(Issued, es).outcome == if es == [] then None else Some(FirstOutcome(es[0]))
  {
    RunStaysConsistent(Issued, es);
    if es != [] {
      var s := Next(Issued, es[0]);
      assert s.outcome == Some(FirstOutcome(es[0]));
      SettledCallIsFinal(s, es[1..]);
    }
  }

  /** `RequestMap`: the endpoint's pending calls by record id. */
  class RequestMap {
    var entries: map<Id, Request>

    constructor()
      ensures entries == map[]
    {
      entries := map[];
    }
  }

  class Request {
    const id: Id
    const timeout: nat
    const table: RequestMap
    var timerArmed: bool
    var outcome: Option<Settled<Error>>

    /** This call's state in the terms of `Next`. */
    function State(): CallState
      reads this, table
    {
      CallState(id in table.entries && table.entries[id] == this, timerArmed, outcome)
    }

    /** Registers itself under `id`, creates its unsettled promise and starts its timer. */
    constructor(id: Id, timeout: nat, table: RequestMap)
      modifies table
      ensures this.id == id && this.timeout == timeout && this.table == table
      ensures table.entries == old(table.entries)[id := this]
      ensures State() == Issued
    {
      this.id := id;
      this.timeout := timeout;
      this.table := table;
      timerArmed := true;
      outcome := None;
      new;
      table.entries := table.entries[id := this];
    }

    /** `clear`: cancels the timer and deletes this call's own key, and no other. */
    method Clear()
      modifies this, table
      ensures !timerArmed && outcome == old(outcome)
      ensures table.entries == old(table.entries) - {id}
    {
      timerArmed := false;
      table.entries := table.entries - {id};
    }

    method Resolve(value: string)
      modifies this, table
      ensures outcome == Settle(old(outcome), Fulfilled(value))
      ensures !timerArmed
      ensures table.entries == old(table.entries) - {id}
      ensures State() == Next(old(State()), ResolveWith(value))
    {
      outcome := Settle(outcome, Fulfilled(value));
      Clear();
    }

    method Reject(reason: Error)
      modifies this, table
      ensures outcome == Settle(old(outcome), Rejected(reason))
      ensures !timerArmed
      ensures table.entries == old(table.entries) - {id}
      ensures State() == Next(old(State()), RejectWith(reason))
    {
      outcome := Settle(outcome, Rejected(reason));
      Clear();
    }

    /** The caller-side timer's callback; a cancelled timer never runs it. */
    method FireTimeout()
      modifies this, table
      ensures old(timerArmed) ==> outcome == Settle(old(outcome), Rejected(RequestTimeout))
      ensures old(timerArmed) ==> !timerArmed && table.entries == old(table.entries) - {id}
      ensures !old(timerArmed) ==> timerArmed == old(timerArmed) && outcome == old(outcome)
      ensures !old(timerArmed) ==> table.entries == old(table.entries)
      ensures State() == Next(old(State()), TimerFires)
    {
      if timerArmed {
        timerArmed := false;
        Reject(RequestTimeout);
      }
    }
  }
}
