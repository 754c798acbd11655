/**
 * Whole protocol runs over one shared collection, with the endpoints' handlers fed
 * the change-feed events in the order the collection logged them. Each scenario is
 * one of the behaviours the system promises end to end (or, for the findings, one
 * it does not), proved from the members' contracts alone.
 */
module Scenarios {
  import opened Wrappers
  import opened Models
  import opened Exceptions
  import opened Promises
  import opened Store
  import opened Requests
  import opened Subscriptions
  import opened MongoRPC

  /**
   * Two connected endpoints on one fresh collection: `server` on `serverChannel`,
   * subscribed to `served`, and `client` on `clientChannel`, subscribed to nothing,
   * which then calls `methodName`. The call's record is the collection's only one.
   * (`subscribe` refuses an `Object.prototype` name, so `served` is not one.)
   */
  method Deploy(id: Id, serverChannel: string, clientChannel: string, served: string, methodName: string, args: string, now: nat)
    returns (store: Collection, server: Endpoint, client: Endpoint, call: Request)
    requires !IsPrototypeName(served)
    ensures fresh(store) && fresh(server) && fresh(client) && fresh(call)
    ensures fresh(server.pending) && fresh(client.pending) && fresh(server.subscribers) && fresh(client.subscribers)
    ensures server.pending != client.pending && server.subscribers != client.subscribers
    ensures server.Valid() && client.Valid() && server.connected && client.connected
    ensures server.store == store && client.store == store
    ensures server.channel == serverChannel && client.channel == clientChannel
    ensures server.subscribers.handlers.Keys == {served} && client.subscribers.handlers == map[]
    ensures server.pending.entries == map[] && client.pending.entries == map[id := call]
    ensures call.id == id && call.table == client.pending && call.outcome.None? && call.timerArmed
    ensures store.records == map[id := RequestRecord(id, clientChannel, methodName, args, now)]
    ensures store.log == [Inserted(RequestRecord(id, clientChannel, methodName, args, now))]
  {
    store := new Collection();
    server := new Endpoint(store, serverChannel, DefaultCallerTimeout, DefaultCalleeTimeout);
    client := new Endpoint(store, clientChannel, DefaultCallerTimeout, DefaultCalleeTimeout);
    var subscribed := server.Subscribe(served);
    var issued := client.CallChecked(methodName, args, id, now);
    call := issued.value;
  }

  /**
   * `server` handles the insert event of `doc`, the collection's only record, with
   * nothing interleaved: it wins the claim, then runs the handler as `race` says.
   */
  method Serve(store: Collection, server: Endpoint, doc: Message, race: seq<Completion>, later: nat)
    returns (step: ExecStep)
    requires server.Valid() && server.connected && server.store == store
    requires doc.channel == server.channel && doc.status == Requested && doc.methodName in server.subscribers.handlers
    requires store.records == map[doc.id := doc] && race != []
    modifies store
    ensures var e := WriteBack(map[doc.id := doc.(status := AcknowledgedAndLocked)], doc.id, Attempt(race[0]), later);
      step == e.step && store.records == e.records && store.log == old(store.log) + [Updated(doc.id, LockFields)] + e.events
  {
    var claimed := server.OnInsertInChannel(doc);
    assert claimed.Claimed?;
    step := server.ResumeAfterClaim(claimed.locked, race, later);
  }

  /**
   * One caller, one subscriber: the record is claimed, completed and deleted, in that
   * order, and the call resolves with the handler's result.
   */
  method SingleSubscriberRoundTrip(id: Id, channel: string, methodName: string, args: string, result: string, now: nat)
    returns (outcome: Option<Settled<Error>>, records: map<Id, Message>, feed: seq<ChangeEvent>)
    requires !IsPrototypeName(methodName)
    ensures outcome == Some(Fulfilled(result))
    ensures records == map[]
    ensures feed == [Inserted(RequestRecord(id, channel, methodName, args, now)),
                     Updated(id, LockFields),
                     Updated(id, SuccessFields(result, now + 1)),
                     Removed(id)]
  {
    var store, server, client, call := Deploy(id, channel, channel, methodName, methodName, args, now);
    var doc := store.log[0].doc;
    WriteBackCompletesLockedRecord(map[id := doc.(status := AcknowledgedAndLocked)], id, Fulfilled(result), now + 1);
    var done := Serve(store, server, doc, [HandlerReturned(result)], now + 1);
    var delivered := client.OnUpdate(store.log[2].id, store.log[2].fields);
    outcome, records, feed := call.outcome, store.records, store.log;
  }

  /**
   * A handler that throws an Error: the record is completed with its message and the
   * caller is rejected with a RemoteFunctionError carrying that message.
   */
  method HandlerErrorRejectsCaller(id: Id, channel: string, methodName: string, args: string, thrown: Error, now: nat)
    returns (outcome: Option<Settled<Error>>, records: map<Id, Message>)
    requires !IsPrototypeName(methodName)
    ensures outcome.Some? && outcome.value.Rejected?
    ensures outcome.value.reason.cls == RemoteFunctionError && outcome.value.reason.name == "RemoteFunctionError"
    ensures outcome.value.reason.message == thrown.message
    ensures records == map[]
  {
    var store, server, client, call := Deploy(id, channel, channel, methodName, methodName, args, now);
    var doc := store.log[0].doc;
    WriteBackCompletesLockedRecord(map[id := doc.(status := AcknowledgedAndLocked)], id, Rejected(Raised(thrown)), now + 1);
    var done := Serve(store, server, doc, [HandlerThrew(Raised(thrown))], now + 1);
    var delivered := client.OnUpdate(store.log[2].id, store.log[2].fields);
    outcome, records := call.outcome, store.records;
  }

  /**
   * No endpoint subscribes to the method (the other one serves another method): both
   * ignore the record, it stays Requested
   * in the collection, and the caller's own timer rejects the call with TimeoutError
   * "Request timeout.".
   */
  method NoSubscriberTimesOut(id: Id, channel: string, served: string, methodName: string, args: string, now: nat)
    returns (outcome: Option<Settled<Error>>, records: map<Id, Message>)
    requires served != methodName && !IsPrototypeName(served) && !IsPrototypeName(methodName)
    ensures outcome == Some(Rejected(RequestTimeout))
    ensures outcome.value.reason.cls == TimeoutError && outcome.value.reason.message == "Request timeout."
    ensures id in records && records[id].status == Requested
  {
    var store, other, client, call := Deploy(id, channel, channel, served, methodName, args, now);
    var atOther := other.OnInsertInChannel(store.log[0].doc);
    var atClient := client.OnInsertInChannel(store.log[0].doc);
    assert atOther == NotSubscribed && atClient == NotSubscribed;
    call.FireTimeout();
    outcome, records := call.outcome, store.records;
  }

  /**
   * Two endpoints subscribe to the method (one of them is the caller) and both see the
   * insert: the first claim applies, the second is lost and writes nothing, so exactly
   * one endpoint goes on to run the handler.
   */
  method CompetingSubscribersOneClaims(id: Id, channel: string, methodName: string, args: string, now: nat)
    returns (first: InsertStep, second: InsertStep, records: map<Id, Message>, feed: seq<ChangeEvent>)
    requires !IsPrototypeName(methodName)
    ensures first.Claimed? && second == ClaimLost
    ensures id in records && records[id].status == AcknowledgedAndLocked
    ensures feed == [Inserted(RequestRecord(id, channel, methodName, args, now)), Updated(id, LockFields)]
  {
    var store, one, two, call := Deploy(id, channel, channel, methodName, methodName, args, now);
    var subscribed := two.Subscribe(methodName);
    first := one.OnInsertInChannel(store.log[0].doc);
    second := two.OnInsertInChannel(store.log[0].doc);
    records, feed := store.records, store.log;
  }

  /**
   * The callee-side timer fires before the handler settles: the handler's later result
   * is ignored, and the caller is rejected with RemoteFunctionError "Callee timeout.".
   */
  method CalleeTimeoutRejectsCaller(id: Id, channel: string, methodName: string, args: string, late: string, now: nat)
    returns (outcome: Option<Settled<Error>>)
    requires !IsPrototypeName(methodName)
    ensures outcome == Some(Rejected(RemoteError("Callee timeout.")))
    ensures outcome.value.reason.cls == RemoteFunctionError
  {
    var store, server, client, call := Deploy(id, channel, channel, methodName, methodName, args, now);
    var doc := store.log[0].doc;
    var later := now + DefaultCalleeTimeout;
    WriteBackCompletesLockedRecord(map[id := doc.(status := AcknowledgedAndLocked)], id, Attempt(TimerFired), later);
    var done := Serve(store, server, doc, [TimerFired, HandlerReturned(late)], later);
    var delivered := client.OnUpdate(store.log[2].id, store.log[2].fields);
    outcome := call.outcome;
  }

  /**
   * Closing the caller's endpoint while its call is pending rejects the call with
   * ConnectionError "Connection closed.", and a completion that arrives afterwards
   * changes nothing.
   */
  method CloseRejectsPendingCall(id: Id, channel: string, methodName: string, args: string, result: string, now: nat)
    returns (outcome: Option<Settled<Error>>, late: UpdateStep)
    requires !IsPrototypeName(methodName)
    ensures outcome == Some(Rejected(ConnectionClosed))
    ensures outcome.value.reason.cls == ConnectionError && outcome.value.reason.message == "Connection closed."
    ensures late == Ignored
  {
    var store, server, client, call := Deploy(id, channel, channel, methodName, methodName, args, now);
    client.Close();
    late := client.OnUpdate(id, SuccessFields(result, now + 1));
    outcome := call.outcome;
  }

  /**
   * The caller's timer fires before the subscriber completes the call: the completion
   * arrives when nothing is pending under its id, so the caller's update handler ignores
   * it and the completed record is never deleted.
   */
  method LateCompletionLingers(id: Id, channel: string, methodName: string, args: string, result: string, now: nat)
    returns (outcome: Option<Settled<Error>>, late: UpdateStep, records: map<Id, Message>)
    requires !IsPrototypeName(methodName)
    ensures outcome == Some(Rejected(RequestTimeout))
    ensures late == Ignored
    ensures id in records && records[id].status == CompletedSuccess && records[id].result == Some(result)
  {
    var store, server, client, call := Deploy(id, channel, channel, methodName, methodName, args, now);
    var doc := store.log[0].doc;
    call.FireTimeout();
    WriteBackCompletesLockedRecord(map[id := doc.(status := AcknowledgedAndLocked)], id, Fulfilled(result), now + 1);
    var done := Serve(store, server, doc, [HandlerReturned(result)], now + 1);
    late := client.OnUpdate(store.log[2].id, store.log[2].fields);
    outcome, records := call.outcome, store.records;
  }

  /**
   * The subscriber withdraws between winning the claim and running the handler: the
   * record is left AcknowledgedAndLocked for good and the caller times out.
   */
  method WithdrawnSubscriberOrphansRecord(id: Id, channel: string, methodName: string, args: string, now: nat)
    returns (step: ExecStep, outcome: Option<Settled<Error>>, records: map<Id, Message>)
    requires !IsPrototypeName(methodName)
    ensures step == Orphaned
    ensures outcome == Some(Rejected(RequestTimeout))
    ensures id in records && records[id].status == AcknowledgedAndLocked
  {
    var store, server, client, call := Deploy(id, channel, channel, methodName, methodName, args, now);
    var claimed := server.OnInsertInChannel(store.log[0].doc);
    assert claimed.Claimed?;
    server.subscribers.handlers[methodName].Close();
    step := server.ResumeAfterClaim(claimed.locked, [HandlerReturned(args)], now + 1);
    call.FireTimeout();
    outcome, records := call.outcome, store.records;
  }

  /**
   * A method named after an `Object.prototype` member (say "toString"): the caller's own
   * endpoint, which subscribes to nothing, finds a truthy member under that name, claims
   * the record, fails to invoke it and writes the TypeError back, so the caller is
   * rejected with a RemoteFunctionError carrying the TypeError's message.
   */
  method PrototypeNameRejectsCaller(id: Id, channel: string, served: string, methodName: string, args: string, now: nat)
    returns (claimed: InsertStep, outcome: Option<Settled<Error>>, records: map<Id, Message>)
    requires !IsPrototypeName(served) && IsPrototypeName(methodName)
    ensures claimed.Claimed?
    ensures outcome == Some(Rejected(RemoteError(NotAFunction.message)))
    ensures outcome.value.reason.cls == RemoteFunctionError
    ensures records == map[]
  {
    var store, server, client, call := Deploy(id, channel, channel, served, methodName, args, now);
    var doc := store.log[0].doc;
    claimed := client.OnInsert(doc);
    InheritedNameReachesCaller(claimed.locked, [], now + 1, store.records);
    var done := client.ResumeAfterClaim(claimed.locked, [], now + 1);
    var delivered := client.OnUpdate(store.log[2].id, store.log[2].fields);
    outcome, records := call.outcome, store.records;
  }

  /**
   * As written, an endpoint on another channel that subscribes to the same method
   * claims a record it was never meant to see; the corrected handler ignores it.
   */
  method CrossChannelClaim(id: Id, channel: string, elsewhere: string, methodName: string, args: string, now: nat)
    returns (asWritten: InsertStep, corrected: InsertStep)
    requires elsewhere != channel && !IsPrototypeName(methodName)
    ensures asWritten.Claimed? && asWritten.locked.channel == channel
    ensures corrected == OtherChannel
  {
    var store, server, client, call := Deploy(id, elsewhere, channel, methodName, methodName, args, now);
    corrected := server.OnInsertInChannel(store.log[0].doc);
    asWritten := server.OnInsert(store.log[0].doc);
  }

  /**
   * As written, a call on a closed endpoint fails at once, yet leaves its entry and its
   * armed timer behind; when the timer fires it rejects a promise no caller awaits. The
   * corrected call registers nothing.
   */
  method CallAfterCloseLeaks(id: Id, channel: string, methodName: string, args: string, now: nat)
    returns (failure: Option<Error>, leftBehind: bool, lateRejection: Option<Settled<Error>>,
             corrected: Result<Request, Error>, leftBehindCorrected: bool)
    ensures failure == Some(NotInitialized)
    ensures leftBehind
    ensures lateRejection == Some(Rejected(RequestTimeout))
    ensures corrected == Failure(NotInitialized)
    ensures !leftBehindCorrected
  {
    var store := new Collection();
    var client := new Endpoint(store, channel, DefaultCallerTimeout, DefaultCalleeTimeout);
    client.Close();

    corrected := client.CallChecked(methodName, args, id, now);
    leftBehindCorrected := |client.pending.entries| > 0;

    var call;
    call, failure := client.Call(methodName, args, id, now);
    leftBehind := id in client.pending.entries && call.timerArmed;
    call.FireTimeout();
    lateRejection := call.outcome;
  }
}
