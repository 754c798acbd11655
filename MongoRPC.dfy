/**
 * The dispatch engine and facade of src/MongoRPC/MongoRPC.ts.
 *
 * An `Endpoint` is one `MongoRPC` instance: its private correlation table
 * (`pending`) and subscription registry (`subscribers`), and the collection it
 * shares with every other endpoint. The change-feed handler becomes one method per
 * event kind; the insert handler is split at its first suspension point (the claim
 * round-trip) into `OnInsert` and `ResumeAfterClaim`, so that anything another
 * endpoint, the user or a timer does in between can be interleaved. Handler outcomes
 * and timer orderings are inputs, as a `race` of completions.
 *
 * `InsertEffect` and `ResumeEffect` state in pure terms what the two halves of the
 * insert handler do to the collection; the lemmas below them state the protocol's
 * promises about those functions.
 */
module MongoRPC {
  import opened Wrappers
  import opened Models
  import opened Exceptions
  import opened Promises
  import opened Store
  import opened Requests
  import opened Subscriptions

  /** The module-level defaults (milliseconds): the caller waits longer than the callee may run. */
  const DefaultCalleeTimeout: nat := 600 * 1000
  const DefaultCallerTimeout: nat := 660 * 1000

  const NotInitialized: Error := Construct(BaseError, "MongoRPC not initialized.")
  const AlreadySubscribed: Error := Construct(SystemError, "Already subscribed.")
  const ConnectionClosed: Error := Construct(ConnectionError, "Connection closed.")
  const InvalidStatus: Error := Construct(AssertionError, "Invalid status.")
  const UpdateFailed: Error := Construct(AssertionError, "Update failed.")
  const DeletedBeforeCompletion: Error :=
    Construct(AssertionError, "This is not normal case. Request deleted before completion.")
  /**
   * What calling `.invoke` on an inherited `Object.prototype` member throws: it has no such
   * method. The class and the way the error reaches the caller are exact; the message is
   * one engine's wording, which varies with the runtime and the compilation target.
   */
  const NotAFunction: Error :=
    Construct(TypeError, "this.subscribers[lockedResult.value.method].invoke is not a function")

  /** The record `call` inserts: Requested, with no result, error, or later timestamps yet. */
  function RequestRecord(id: Id, channel: string, methodName: string, args: string, now: nat): Message {
    Message(id, channel, methodName, args, None, None, Requested, now, None, None, None)
  }

  /** What the claimant stores in `error` for a thrown value: an Error is reduced to its message. */
  function ErrorPayload(t: Thrown): string {
    match t
    case Raised(e) => e.message
    case ThrownValue(p) => p
  }

  /** How the caller rejects on reading a CompletedError record. */
  function RemoteError(payload: string): Error {
    Construct(RemoteFunctionError, payload)
  }

  function SuccessFields(result: string, now: nat): UpdatedFields {
    UpdatedFields(Some(CompletedSuccess), Some(result), None, Some(now))
  }

  function ErrorFields(error: string, now: nat): UpdatedFields {
    UpdatedFields(Some(CompletedError), None, Some(error), Some(now))
  }

  /** How the insert handler's first half ends. */
  datatype InsertStep =
    | Faulted(error: Error)     // a failed assertion or a closed endpoint: the handler throws
    | NotSubscribed             // no handler here for the method: ignore the record
    | ClaimLost                 // the conditional update did not apply
    | Claimed(locked: Message)  // this endpoint holds the record, as returned by the claim
    | OtherChannel              // (corrected handler only) the record belongs to another channel

  /** How the insert handler's second half ends. */
  datatype ExecStep =
    | Orphaned                  // handler withdrawn after the claim: the record stays locked
    | AwaitingHandler           // neither the handler nor the timer has settled yet
    | Completed(status: Status) // the record was updated to this terminal status
    | WriteFailed(error: Error) // the write-back's checks failed: the handler throws

  /** How the update handler ends. */
  datatype UpdateStep =
    | Ignored
    | Unparsable                                  // a completion without its payload
    | Delivered(settlement: Settled<Error>, fault: Option<Error>) // the call settled; deleting may throw

  /**
   * The insert handler up to the claim: the status assertion, the subscriber check
   * (`subscribed`: the lookup of the method in the subscriber table is truthy), then the
   * conditional update. The record's channel is not looked at.
   */
  function InsertEffect(doc: Message, subscribed: bool, connected: bool, records: map<Id, Message>)
    : (InsertStep, map<Id, Message>)
  {
    if doc.status != Requested then (Faulted(InvalidStatus), records)
    else if !subscribed then (NotSubscribed, records)
    else if !connected then (Faulted(NotInitialized), records)
    else
      var (next, applied) := Claim(records, doc.id);
      if applied then (Claimed(next[doc.id]), next) else (ClaimLost, records)
  }

  /**
   * The same handler, also checking the record's channel: channels are separate RPC
   * namespaces sharing one collection, told apart only by that field.
   */
  function InsertEffectInChannel(channel: string, doc: Message, subscribed: bool, connected: bool, records: map<Id, Message>)
    : (InsertStep, map<Id, Message>)
  {
    if doc.channel != channel then (OtherChannel, records)
    else InsertEffect(doc, subscribed, connected, records)
  }

  /** What the second half of the insert handler does: how it ends, the records after, the feed entries it adds. */
  datatype Effect = Effect(step: ExecStep, records: map<Id, Message>, events: seq<ChangeEvent>)

  /** Writing CompletedError with `payload`, and the asserts on the update's counts. */
  function ErrorWrite(records: map<Id, Message>, id: Id, payload: string, now: nat): Effect {
    var f := ErrorFields(payload, now);
    var u := UpdateOne(records, id, f);
    Effect(if UpdatedExactlyOne(u.1) then Completed(CompletedError) else WriteFailed(UpdateFailed),
           u.0,
           if u.1.modifiedCount == 1 then [Updated(id, f)] else [])
  }

  /**
   * The write-back once invoke has settled. A failed check after the success update
   * throws inside the `try`, so it lands in the `catch` and is written as an error.
   */
  function WriteBack(records: map<Id, Message>, id: Id, outcome: Settled<Thrown>, now: nat): Effect {
    match outcome
    case Fulfilled(v) =>
      var f := SuccessFields(v, now);
      var u := UpdateOne(records, id, f);
      var events := if u.1.modifiedCount == 1 then [Updated(id, f)] else [];
      if UpdatedExactlyOne(u.1) then Effect(Completed(CompletedSuccess), u.0, events)
      else
        var e := ErrorWrite(u.0, id, UpdateFailed.message, now);
        e.(events := events + e.events)
    case Rejected(t) => ErrorWrite(records, id, ErrorPayload(t), now)
  }

  /**
   * The insert handler after a winning claim: re-check, invoke, write back. An inherited
   * member found by the lookup has no `invoke`, so calling it throws a TypeError at once,
   * which the `catch` writes back like any other thrown Error.
   */
  function ResumeEffect(locked: Message, lookup: Lookup, connected: bool, race: seq<Completion>, now: nat,
                        records: map<Id, Message>): Effect
  {
    match lookup
    case Missing => Effect(Orphaned, records, [])
    case Inherited =>
      if !connected then Effect(WriteFailed(NotInitialized), records, [])
      else WriteBack(records, locked.id, Rejected(Raised(NotAFunction)), now)
    case Own =>
      if race == [] then Effect(AwaitingHandler, records, [])
      else if !connected then Effect(WriteFailed(NotInitialized), records, [])
      else WriteBack(records, locked.id, Attempt(race[0]), now)
  }

  /** A completion update and what it delivers to the waiting call, if its payload is there. */
  predicate IsCompletion(f: UpdatedFields) {
    f.status == Some(CompletedSuccess) || f.status == Some(CompletedError)
  }

  function Delivery(f: UpdatedFields): Option<Settled<Error>> {
    if f.status == Some(CompletedSuccess) then
      if f.result.Some? then Some(Fulfilled(f.result.value)) else None
    else if f.status == Some(CompletedError) then
      if f.error.Some? then Some(Rejected(RemoteError(f.error.value))) else None
    else None
  }

  /**
   * A record is claimed only if this endpoint subscribes to its method and its stored
   * status is still Requested; the claim changes the status and nothing else (in
   * particular not `acknowledgeTime`), and a lost claim changes nothing.
   */
  lemma ClaimConditions(doc: Message, subscribed: bool, connected: bool, records: map<Id, Message>)
    ensures var (step, next) := InsertEffect(doc, subscribed, connected, records);
      && (step.Claimed? <==>
            doc.status == Requested && subscribed && connected && doc.id in records && records[doc.id].status == Requested)
      && (step.Claimed? ==> next == records[doc.id := records[doc.id].(status := AcknowledgedAndLocked)]
                            && step.locked == next[doc.id]
                            && step.locked.acknowledgeTime == records[doc.id].acknowledgeTime)
      && (!step.Claimed? ==> next == records)
  {
  }

  /**
   * Claim exclusivity between endpoints: once one endpoint's insert handler has claimed
   * a record, every later insert handler for that record, on any endpoint, loses.
   */
  lemma SecondClaimLoses(doc: Message, doc': Message, subscribed: bool, subscribed': bool, connected': bool,
                         records: map<Id, Message>)
    requires InsertEffect(doc, subscribed, true, records).0.Claimed?
    requires doc'.id == doc.id
    ensures var after := InsertEffect(doc, subscribed, true, records).1;
      !InsertEffect(doc', subscribed', connected', after).0.Claimed? &&
      InsertEffect(doc', subscribed', connected', after).1 == after
  {
  }

  /** With the channel check, a record of another channel is never claimed. */
  lemma ClaimStaysInChannel(channel: string, doc: Message, subscribed: bool, connected: bool, records: map<Id, Message>)
    ensures var (step, next) := InsertEffectInChannel(channel, doc, subscribed, connected, records);
      (doc.channel != channel ==> step == OtherChannel && next == records) &&
      (step.Claimed? ==> doc.channel == channel)
  {
  }

  /** As written, an endpoint subscribed to the method claims a record of another channel. */
  lemma ClaimIgnoresChannel(channel: string, doc: Message, records: map<Id, Message>)
    requires doc.status == Requested && doc.id in records && records[doc.id].status == Requested
    requires doc.channel != channel
    ensures InsertEffect(doc, true, true, records).0.Claimed?
    ensures InsertEffectInChannel(channel, doc, true, true, records).0 == OtherChannel
  {
  }

  /**
   * After a winning claim, with the record still locked, the write-back updates exactly
   * that record, once: to CompletedSuccess with the handler's result, or to
   * CompletedError with the error's message (or the thrown value itself). Either way the
   * status moves one step forward.
   */
  lemma {:induction false} WriteBackCompletesLockedRecord(records: map<Id, Message>, id: Id, outcome: Settled<Thrown>, now: nat)
    requires id in records && records[id].status == AcknowledgedAndLocked
    ensures var e := WriteBack(records, id, outcome, now);
      && e.step.Completed?
      && Advances(AcknowledgedAndLocked, e.step.status)
      && |e.events| == 1
      && (outcome.Fulfilled? ==>
            && e.step.status == CompletedSuccess
            && e.records == records[id := records[id].(status := CompletedSuccess, result := Some(outcome.value),
                                                       completeTime := Some(now))]
            && e.events == [Updated(id, SuccessFields(outcome.value, now))])
      && (outcome.Rejected? ==>
            && e.step.status == CompletedError
            && e.records == records[id := records[id].(status := CompletedError, error := Some(ErrorPayload(outcome.reason)),
                                                       completeTime := Some(now))]
            && e.events == [Updated(id, ErrorFields(ErrorPayload(outcome.reason), now))])
  {
    var m := records[id];
    match outcome
    case Fulfilled(v) =>
      assert ApplySet(m, SuccessFields(v, now)).status != m.status;
    case Rejected(t) =>
      assert ApplySet(m, ErrorFields(ErrorPayload(t), now)).status != m.status;
  }

  /** A record that vanished before the write-back: nothing is written and the handler throws. */
  lemma WriteBackOnVanishedRecord(records: map<Id, Message>, id: Id, outcome: Settled<Thrown>, now: nat)
    requires id !in records
    ensures WriteBack(records, id, outcome, now) == Effect(WriteFailed(UpdateFailed), records, [])
  {
    if outcome.Fulfilled? {
      var e := ErrorWrite(records, id, UpdateFailed.message, now);
      assert e == Effect(WriteFailed(UpdateFailed), records, []);
      assert e.events == [] + e.events;
    }
  }

  /**
   * The writes an endpoint issues on the collection: the record `call` inserts, the
   * claim, the claimant's success or error write-back, and the caller's delete.
   */
  predicate EndpointWrite(op: Op) {
    match op
    case InsertOp(m) => m == RequestRecord(m.id, m.channel, m.methodName, m.args, m.requestTime)
    case ClaimOp(_) => true
    case UpdateOp(_, f) =>
      || (f.result.Some? && f.completeTime.Some? && f == SuccessFields(f.result.value, f.completeTime.value))
      || (f.error.Some? && f.completeTime.Some? && f == ErrorFields(f.error.value, f.completeTime.value))
    case DeleteOp(_) => true
  }

  /** Any interleaving of endpoint writes is a dispatcher sequence, so it never stores Cancelled or Deleted. */
  lemma EndpointWritesStoreNoReservedStatus(records: map<Id, Message>, ops: seq<Op>)
    requires NoReservedStatus(records)
    requires forall k :: 0 <= k < |ops| ==> EndpointWrite(ops[k])
    ensures forall k :: 0 <= k < |ops| ==> DispatcherOp(ops[k])
    ensures NoReservedStatus(Replay(records, ops))
  {
    forall k | 0 <= k < |ops| ensures DispatcherOp(ops[k]) {
      assert EndpointWrite(ops[k]);
    }
    ReservedNeverStored(records, ops);
  }

  /**
   * A handler withdrawn between the winning claim and the re-check leaves the record
   * locked for good: nothing is written.
   */
  lemma WithdrawnAfterClaimOrphans(locked: Message, connected: bool, race: seq<Completion>, now: nat, records: map<Id, Message>)
    ensures ResumeEffect(locked, Missing, connected, race, now, records) == Effect(Orphaned, records, [])
  {
  }

  /**
   * A handler that throws an Error reaches the caller as a RemoteFunctionError with the
   * same message: a MongoRPCError, not a SystemError.
   */
  lemma HandlerErrorReachesCaller(e: Error)
    ensures var err := RemoteError(ErrorPayload(Raised(e)));
      err.name == "RemoteFunctionError" && err.message == e.message &&
      InstanceOf(err, MongoRPCError) && !InstanceOf(err, SystemError)
  {
    SourceHierarchy();
  }

  /**
   * When the callee timer fires before the handler settles, whatever the handler does
   * later, the claimant completes the record with an error whose delivery rejects the
   * caller with RemoteFunctionError "Callee timeout.".
   */
  lemma CalleeTimeoutReachesCaller(locked: Message, race: seq<Completion>, now: nat, records: map<Id, Message>)
    requires locked.id in records && records[locked.id].status == AcknowledgedAndLocked
    requires race != [] && race[0] == TimerFired
    ensures var e := ResumeEffect(locked, Own, true, race, now, records);
      && e.step == Completed(CompletedError)
      && |e.events| == 1 && e.events[0].Updated? && e.events[0].id == locked.id
      && Delivery(e.events[0].fields) == Some(Rejected(RemoteError("Callee timeout.")))
  {
    WriteBackCompletesLockedRecord(records, locked.id, Attempt(race[0]), now);
  }

  /**
   * A record whose method is an `Object.prototype` name, claimed by an endpoint with no
   * own handler for it, is completed with the TypeError's message, and the caller is
   * rejected with a RemoteFunctionError carrying that message.
   */
  lemma InheritedNameReachesCaller(locked: Message, race: seq<Completion>, now: nat, records: map<Id, Message>)
    requires locked.id in records && records[locked.id].status == AcknowledgedAndLocked
    ensures var e := ResumeEffect(locked, Inherited, true, race, now, records);
      && e.step == Completed(CompletedError)
      && e.records[locked.id].error == Some(NotAFunction.message)
      && |e.events| == 1 && e.events[0].Updated? && e.events[0].id == locked.id
      && Delivery(e.events[0].fields) == Some(Rejected(RemoteError(NotAFunction.message)))
  {
    WriteBackCompletesLockedRecord(records, locked.id, Rejected(Raised(NotAFunction)), now);
  }

  class Endpoint {
    const store: Collection
    const channel: string
    const callerTimeout: nat
    const calleeTimeout: nat
    const pending: RequestMap
    const subscribers: SubscriptionMap
    /** `database` is set: `getCollection` does not throw. */
    var connected: bool

    /**
     * Every pending call is registered under its own id, in this endpoint's table,
     * unsettled and with its timer armed; every subscription sits under its own method.
     */
    ghost predicate Valid()
      reads this, pending, pending.entries.Values, subscribers, subscribers.handlers.Values
    {
      && (forall id | id in pending.entries ::
            && pending.entries[id].table == pending
            && pending.entries[id].id == id
            && pending.entries[id].outcome.None?
            && pending.entries[id].timerArmed)
      && (forall m | m in subscribers.handlers ::
            subscribers.handlers[m].registry == subscribers && subscribers.handlers[m].methodName == m)
    }

    /** A connected endpoint on `channel` with empty tables (connecting is not modelled). */
    constructor(store: Collection, channel: string, callerTimeout: nat, calleeTimeout: nat)
      ensures Valid() && connected
      ensures this.store == store && this.channel == channel
      ensures this.callerTimeout == callerTimeout && this.calleeTimeout == calleeTimeout
      ensures fresh(pending) && fresh(subscribers)
      ensures pending.entries == map[] && subscribers.handlers == map[]
    {
      this.store := store;
      this.channel := channel;
      this.callerTimeout := callerTimeout;
      this.calleeTimeout := calleeTimeout;
      pending := new RequestMap();
      subscribers := new SubscriptionMap();
      connected := true;
    }

    /** The insert event, up to the claim's answer. Its channel is not checked. */
    method OnInsert(doc: Message) returns (step: InsertStep)
      requires Valid()
      modifies store
      ensures Valid()
      ensures (step, store.records) ==
        InsertEffect(doc, LookUp(subscribers.handlers, doc.methodName) != Missing, connected, old(store.records))
      ensures store.log == if step.Claimed? then old(store.log) + [Updated(doc.id, LockFields)] else old(store.log)
    {
      if doc.status != Requested {
        return Faulted(InvalidStatus);
      }
      if LookUp(subscribers.handlers, doc.methodName) == Missing {
        return NotSubscribed;
      }
      if !connected {
        return Faulted(NotInitialized);
      }
      var locked := store.LockIfRequested(doc.id);
      if locked.None? {
        return ClaimLost;
      }
      step := Claimed(locked.value);
    }

    /** The insert event with the channel check (see the findings): other channels' records are ignored. */
    method OnInsertInChannel(doc: Message) returns (step: InsertStep)
      requires Valid()
      modifies store
      ensures Valid()
      ensures (step, store.records) ==
        InsertEffectInChannel(channel, doc, LookUp(subscribers.handlers, doc.methodName) != Missing, connected,
                              old(store.records))
      ensures store.log == if step.Claimed? then old(store.log) + [Updated(doc.id, LockFields)] else old(store.log)
    {
      if doc.channel != channel {
        return OtherChannel;
      }
      step := OnInsert(doc);
    }

    /**
     * The insert handler after a winning claim on `locked`: re-check the subscriber,
     * invoke it with the record's arguments (`race` is what then happens, in order),
     * and write the outcome back.
     */
    method ResumeAfterClaim(locked: Message, race: seq<Completion>, now: nat) returns (step: ExecStep)
      requires Valid()
      modifies store
      ensures Valid()
      ensures var e := ResumeEffect(locked, LookUp(subscribers.handlers, locked.methodName), connected, race, now,
                                    old(store.records));
        step == e.step && store.records == e.records && store.log == old(store.log) + e.events
    {
      var lookup := LookUp(subscribers.handlers, locked.methodName);
      if lookup == Missing {
        return Orphaned;
      }
      var outcome: Settled<Thrown>;
      if lookup == Inherited {
        outcome := Rejected(Raised(NotAFunction));
      } else {
        var settled := subscribers.handlers[locked.methodName].Invoke(locked.args, race);
        if settled.None? {
          return AwaitingHandler;
        }
        outcome := settled.value;
      }
      if !connected {
        return WriteFailed(NotInitialized);
      }
      step := WriteOutcome(locked.id, outcome, now);
    }

    /**
     * The write-back once the handler's outcome is known: the success update with its
     * checks, and the error update in the `catch`.
     */
    method WriteOutcome(id: Id, outcome: Settled<Thrown>, now: nat) returns (step: ExecStep)
      modifies store
      ensures var e := WriteBack(old(store.records), id, outcome, now);
        step == e.step && store.records == e.records && store.log == old(store.log) + e.events
    {
      var errorPayload: string;
      if outcome.Fulfilled? {
        var u := store.UpdateById(id, SuccessFields(outcome.value, now));
        if UpdatedExactlyOne(u) {
          return Completed(CompletedSuccess);
        }
        errorPayload := UpdateFailed.message;
      } else {
        errorPayload := ErrorPayload(outcome.reason);
      }
      var u := store.UpdateById(id, ErrorFields(errorPayload, now));
      step := if UpdatedExactlyOne(u) then Completed(CompletedError) else WriteFailed(UpdateFailed);
    }

    /**
     * The update event. A completion of a call pending here settles that call (resolve
     * with the result, or reject with RemoteFunctionError carrying the error payload),
     * which removes exactly its entry, and then deletes the record; on a closed endpoint
     * `getCollection` throws there instead, after the call has settled. Anything else
     * changes nothing.
     */
    method OnUpdate(id: Id, fields: UpdatedFields) returns (step: UpdateStep)
      requires Valid()
      modifies pending, store, if id in pending.entries then {pending.entries[id]} else {}
      ensures Valid()
      ensures !(IsCompletion(fields) && id in old(pending.entries)) <==> step == Ignored
      ensures step == Unparsable <==> IsCompletion(fields) && id in old(pending.entries) && Delivery(fields).None?
      ensures !step.Delivered? ==>
        && unchanged(pending, store)
        && (id in old(pending.entries) ==> unchanged(old(pending.entries)[id]))
      ensures step.Delivered? ==>
        var call := old(pending.entries)[id];
        && Delivery(fields) == Some(step.settlement)
        && call.outcome == Some(step.settlement) && !call.timerArmed
        && pending.entries == old(pending.entries) - {id}
        && step.fault == (if connected then None else Some(NotInitialized))
        && store.records == (if connected then old(store.records) - {id} else old(store.records))
        && store.log == old(store.log) + (if connected && id in old(store.records) then [Removed(id)] else [])
    {
      step := Ignored;
      if IsCompletion(fields) && id in pending.entries {
        var call := pending.entries[id];
        var delivery := Delivery(fields);
        if delivery.None? {
          return Unparsable;
        }
        match delivery.value {
          case Fulfilled(v) => call.Resolve(v);
          case Rejected(e) => call.Reject(e);
        }
        if !connected {
          return Delivered(delivery.value, Some(NotInitialized));
        }
        store.DeleteOne(id);
        step := Delivered(delivery.value, None);
      }
    }

    /** The delete event: a record deleted while its call is still pending here is an assertion failure. */
    method OnDelete(id: Id) returns (fault: Option<Error>)
      ensures fault.Some? <==> id in pending.entries
      ensures fault.Some? ==> fault.value == DeletedBeforeCompletion
    {
      fault := if id in pending.entries then Some(DeletedBeforeCompletion) else None;
    }

    /**
     * `call`: registers the pending call under the new record's id, then inserts the
     * Requested record. `freshId` stands for `new ObjectId()`. A closed endpoint throws
     * "MongoRPC not initialized." after the registration, which stays behind.
     */
    method Call(methodName: string, args: string, freshId: Id, now: nat) returns (call: Request, failure: Option<Error>)
      requires Valid()
      requires freshId !in store.records
      modifies pending, store
      ensures Valid()
      ensures fresh(call) && call.id == freshId && call.table == pending && call.timeout == callerTimeout
      ensures call.State() == Issued
      ensures pending.entries == old(pending.entries)[freshId := call]
      ensures connected ==>
        && failure == None
        && store.records == old(store.records)[freshId := RequestRecord(freshId, channel, methodName, args, now)]
        && store.log == old(store.log) + [Inserted(RequestRecord(freshId, channel, methodName, args, now))]
      ensures !connected ==>
        failure == Some(NotInitialized) && store.records == old(store.records) && store.log == old(store.log)
    {
      var message := RequestRecord(freshId, channel, methodName, args, now);
      call := new Request(freshId, callerTimeout, pending);
      if !connected {
        return call, Some(NotInitialized);
      }
      var insertedId := store.InsertOne(message);
      failure := None;
    }

    /** `call` with the connection checked before anything is registered (see the findings). */
    method CallChecked(methodName: string, args: string, freshId: Id, now: nat) returns (r: Result<Request, Error>)
      requires Valid()
      requires freshId !in store.records
      modifies pending, store
      ensures Valid()
      ensures !connected ==>
        && r == Failure(NotInitialized)
        && pending.entries == old(pending.entries)
        && store.records == old(store.records) && store.log == old(store.log)
      ensures connected ==>
        && r.Success? && fresh(r.value) && r.value.id == freshId && r.value.table == pending
        && r.value.State() == Issued
        && pending.entries == old(pending.entries)[freshId := r.value]
        && store.records == old(store.records)[freshId := RequestRecord(freshId, channel, methodName, args, now)]
        && store.log == old(store.log) + [Inserted(RequestRecord(freshId, channel, methodName, args, now))]
    {
      if !connected {
        return Failure(NotInitialized);
      }
      var call, failure := Call(methodName, args, freshId, now);
      r := Success(call);
    }

    /**
     * `subscribe`: refuses a method whose lookup is truthy (it has a handler, or it is an
     * `Object.prototype` name); otherwise installs exactly that key.
     */
    method Subscribe(methodName: string) returns (r: Result<Subscription, Error>)
      requires Valid()
      modifies subscribers
      ensures Valid()
      ensures methodName in old(subscribers.handlers) || IsPrototypeName(methodName) ==>
        r == Failure(AlreadySubscribed) && subscribers.handlers == old(subscribers.handlers)
      ensures methodName !in old(subscribers.handlers) && !IsPrototypeName(methodName) ==>
        && r.Success? && fresh(r.value)
        && r.value.registry == subscribers && r.value.methodName == methodName && r.value.timeout == calleeTimeout
        && subscribers.handlers == old(subscribers.handlers)[methodName := r.value]
    {
      if LookUp(subscribers.handlers, methodName) != Missing {
        return Failure(AlreadySubscribed);
      }
      var subscription := new Subscription(subscribers, methodName, calleeTimeout);
      r := Success(subscription);
    }

    /** `close`: disconnects, then rejects every pending call with ConnectionError, emptying the table. */
    method Close()
      requires Valid()
      modifies this, pending, pending.entries.Values
      ensures Valid()
      ensures !connected
      ensures pending.entries == map[]
      ensures forall call | call in old(pending.entries.Values) ::
        call.outcome == Some(Rejected(ConnectionClosed)) && !call.timerArmed
    {
      connected := false;
      var keys := pending.entries.Keys;
      while keys != {}
        invariant !connected
        invariant keys <= old(pending.entries).Keys
        invariant pending.entries == map k | k in keys :: old(pending.entries)[k]
        invariant forall k | k in keys ::
          old(pending.entries)[k].outcome.None? && old(pending.entries)[k].timerArmed
        invariant forall k | k in old(pending.entries) && k !in keys ::
          old(pending.entries)[k].outcome == Some(Rejected(ConnectionClosed)) && !old(pending.entries)[k].timerArmed
        decreases keys
      {
        var k :| k in keys;
        var call := pending.entries[k];
        call.Reject(ConnectionClosed);
        keys := keys - {k};
      }
    }
  }
}
