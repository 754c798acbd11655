# MongoRPC dispatch protocol, modelled in Dafny

MongoRPC is a remote procedure call library that uses one shared MongoDB collection, `mongo_rpc`, as its transport. Every endpoint (a `MongoRPC` instance) watches that collection's change feed:

- **Calling a method.** A caller registers a pending `Request` under a fresh record id, then inserts a `Requested` record.
- **Claiming it.** Every endpoint that subscribes to the method sees the insert and tries an atomic conditional update to `AcknowledgedAndLocked`. Only one can win. "Subscribes" means the lookup `subscribers[method]` on a plain JavaScript object is truthy, so it also holds for the names every object inherits from `Object.prototype`, such as `toString`.
- **Running it.** The winner runs its handler against a callee-side timeout. It then writes the record back as `CompletedSuccess` (with the result) or `CompletedError` (with the error text).
- **Delivering the result.** The caller sees that update and settles its pending call. It then deletes the record.
- **Timeouts.** A caller-side timer rejects calls that never complete.

The model:

| file | models |
|---|---|
| `Exceptions.dfy` | The error classes as a datatype of class tags with a parent relation (`instanceof` is `IsA`), and what each constructor does to `name` and `message`. |
| `Models.dfy` | The record (`Message`), its six statuses and their stored names, and the lifecycle transitions as a path predicate. |
| `Promises.dfy` | A promise as a single-assignment slot: the first settlement wins. |
| `Store.dfy` | The shared collection as a class `Collection`: a map from id to record, plus the change feed as a log of events. Its methods (insert, the claim, update by id, delete) are proved against pure functions. Lemmas over arbitrary interleavings of operations from many endpoints show that at most one claim per record applies, and that the reserved statuses are never stored. |
| `Requests.dfy` | `RequestMap` and `Request`: registration, `clear`, `resolve`, `reject` and the timer callback. Each method is proved to follow a pure per-call transition system (`Next`), whose lemmas state that a call settles once and leaves the table exactly when it settles. |
| `Subscriptions.dfy` | `SubscriptionMap` and `Subscription`: registration, `close`, and `invoke`. `invoke`'s `finished` flag is a loop over the completions in the order they arrive. |
| `MongoRPC.dfy` | The class `Endpoint`, with one method per change-feed event kind plus `call`, `subscribe` and `close`. Details follow this table. |
| `Scenarios.dfy` | Whole exchanges between endpoints sharing one collection, proved from the contracts alone. |

In `MongoRPC.dfy`, the insert handler is split at its claim round-trip:

- `OnInsert` covers the status assertion, the subscriber check and the claim.
- `ResumeAfterClaim` covers the re-check, the invocation and the write-back.

Because of the split, other endpoints, the user and timers can act between the two halves. The pure functions `InsertEffect` and `ResumeEffect` state what each half does to the collection. Both halves are proved against them.

The handler's outcome and the timing of the callee timer are inputs: a `race` of completions, in the order their callbacks run. Payloads are opaque serialized strings. `JSON.stringify` and `JSON.parse` are treated as the identity. Times are `nat` milliseconds, passed in.

## Model

| member | source | states |
|---|---|---|
| Exceptions.Parent | src/MongoRPC/Exceptions.ts:1-34 | Each class `extends` exactly one parent, except the root Error. A parent sits one level closer to the root. |
| Exceptions.Construct | src/MongoRPC/Exceptions.ts:1-34 | `new C(message)` builds an error of class C whose `name` is C's own name (the last constructor in the `super` chain to assign it), with the message kept verbatim. |
| Exceptions.IsATransitive | src/MongoRPC/Exceptions.ts:22-34 | `instanceof` is transitive along `extends`. Examples: a TimeoutError is a SystemError and therefore a MongoRPCError. |
| Exceptions.IsADepth | src/MongoRPC/Exceptions.ts:1-34 | A superclass is never deeper than its subclass. Equal depth means the same class. |
| Exceptions.IsAAntisymmetric | src/MongoRPC/Exceptions.ts:1-34 | The hierarchy has no cycles: two classes that are each other's subclass are the same. |
| Exceptions.EveryClassIsError | src/MongoRPC/Exceptions.ts:1-6 | Every class descends from Error, so every error object passes `err instanceof Error`. |
| Exceptions.SourceHierarchy | src/MongoRPC/Exceptions.ts:8-34 | SystemError is a MongoRPCError. TimeoutError and ConnectionError are SystemErrors, and neither is the other. RemoteFunctionError is a MongoRPCError but not a SystemError. The built-in AssertionError and TypeError are not MongoRPCErrors. |
| Exceptions.ClassNameInjective | src/MongoRPC/Exceptions.ts:1-34 | Distinct classes set distinct `name`s, so `name` identifies the class. |
| Models.StatusNameRoundTrip | src/MongoRPC/Models.ts:3-10 | Each status reads back from its stored string. A string that parses to a status is that status's name. |
| Models.StatusNameInjective | src/MongoRPC/Models.ts:3-10 | The six statuses have six distinct stored strings. |
| Models.PathClimbs | src/MongoRPC/Models.ts:3-10 | Along any status history made of protocol transitions, each step moves exactly one stage forward. |
| Models.PathNeverRepeats | src/MongoRPC/Models.ts:3-10 | Along any history made of protocol transitions, no status occurs twice, and each later status is at a later stage. `Store.RecordStatusOnlyMovesForward` shows that a stored record's history is such a path. |
| Models.PathFromRequested | src/MongoRPC/Models.ts:3-10 | A history starting at Requested has at most three entries: Requested, then AcknowledgedAndLocked, then one completion. It never reaches Cancelled or Deleted. |
| Models.TerminalIsFinal | src/MongoRPC/Models.ts:3-10 | A completed status has no further transition. Removing the record is not a transition: only the caller's update handler does it, and only while the call is still pending there (`Endpoint.OnUpdate`, `Scenarios.LateCompletionLingers`). |
| Promises.FirstAttemptWins | src/MongoRPC/Subscription.ts:21-37 | Over any series of settle attempts, the slot ends with what it already held, or else with the first attempt. |
| Promises.LaterAttemptsIgnored | src/MongoRPC/Subscription.ts:23-36 | Settle attempts made after the slot is filled change nothing. |
| Store.ApplySet | src/MongoRPC/MongoRPC.ts:147 | `$set` gives each assigned field its new value and leaves every other field, including identity and channel, as it was. |
| Store.Claim | src/MongoRPC/MongoRPC.ts:123-127 | The conditional update applies exactly when the record exists with stored status Requested. It then changes only the status, to AcknowledgedAndLocked. Otherwise nothing changes. |
| Store.UpdateOne | src/MongoRPC/MongoRPC.ts:147-151 | `updateOne` by id is always acknowledged. It matches 0 records (and changes nothing) when the id is absent, and 1 when present. It reports a modification exactly when the records changed. |
| Store.Collection.InsertOne | src/MongoRPC/MongoRPC.ts:221-224 | Inserting a record under a fresh id adds exactly that record, returns its id, and logs one insert event. |
| Store.Collection.LockIfRequested | src/MongoRPC/MongoRPC.ts:123-131 | The claim as one atomic step, proved against `Claim`. A winning claim returns the updated record and logs one update event. A lost claim changes nothing. |
| Store.Collection.UpdateById | src/MongoRPC/MongoRPC.ts:147 | Proved against `UpdateOne`. The feed gets an update event exactly when a record was modified. |
| Store.Collection.DeleteOne | src/MongoRPC/MongoRPC.ts:187 | Removes exactly that id. The feed gets a delete event exactly when a record was removed. |
| Store.AtMostOneClaimWins | src/MongoRPC/MongoRPC.ts:123-131 | Consider any interleaving of inserts, claims, updates and deletes from any number of endpoints that neither reuses the id nor writes Requested back. At most one claim on a record applies, and none unless the record was Requested at the start. |
| Store.HistoryIsPath | src/MongoRPC/MongoRPC.ts:123-163 | While the operations still to run fit the record's phase, every change of the record's status is a protocol transition. The phases are: still Requested with every update preceded by a claim, locked, or completed with no update to come. |
| Store.RecordStatusOnlyMovesForward | src/MongoRPC/MongoRPC.ts:123-163 | Take a stored Requested record and any interleaving of operations that never inserts its id again and updates it at most once, with a completion status, after a claim on it. The statuses the record takes then start at Requested and follow Requested, AcknowledgedAndLocked, completion. There are at most three of them and none repeats. |
| Store.ReservedNeverStored | src/MongoRPC/Models.ts:6-9 | Starting from a collection without Cancelled or Deleted records, no sequence of the dispatcher's writes stores either status. |
| Requests.RunStaysConsistent | src/MongoRPC/Request.ts:30-46 | In every reachable state, a call is in the table exactly while its promise is unsettled, and its timer is armed only while it is in the table. |
| Requests.SettledCallIsFinal | src/MongoRPC/Request.ts:30-46 | Once a call has settled, no later resolve, reject or timer event changes its outcome, its table entry or its timer. |
| Requests.CallSettlesOnce | src/MongoRPC/Request.ts:19-46 | From registration, the first event decides the outcome. A call settled before its timer never times out. A call whose timer fires first is rejected with TimeoutError "Request timeout.", whatever arrives later. |
| Requests.Request.constructor | src/MongoRPC/Request.ts:13-28 | Registers the call under its id in its table, unsettled, with its timer armed. |
| Requests.Request.Clear | src/MongoRPC/Request.ts:30-36 | Cancels the timer and deletes this call's own key and no other. The promise is untouched. |
| Requests.Request.Resolve | src/MongoRPC/Request.ts:38-41 | Settles the promise with the value unless it is already settled, then clears. Proved to follow `Next`. |
| Requests.Request.Reject | src/MongoRPC/Request.ts:43-46 | Rejects the promise unless it is already settled, then clears. Proved to follow `Next`. |
| Requests.Request.FireTimeout | src/MongoRPC/Request.ts:24-27 | An armed timer rejects the call with "Request timeout." and removes it. A cancelled timer does nothing. Proved to follow `Next`. |
| Subscriptions.Subscription.constructor | src/MongoRPC/Subscription.ts:11-17 | Installs the subscription under its method name, replacing what was there. |
| Subscriptions.Subscription.Invoke | src/MongoRPC/Subscription.ts:19-56 | `invoke` settles with the first completion to arrive and ignores every later one. The result is the handler's value, the error it threw, or TimeoutError "Callee timeout." when the timer is first. This equals settling the slot with the attempts in order. |
| Subscriptions.Subscription.Close | src/MongoRPC/Subscription.ts:58-60 | Deletes its own method key and no other. |
| MongoRPC.ClaimConditions | src/MongoRPC/MongoRPC.ts:117-131 | An inserted record is claimed iff all of these hold: its status is Requested, the lookup of its method in this endpoint's subscriber table is truthy, the endpoint is connected, and the stored record is still Requested. The claim changes only the status (`acknowledgeTime` stays unset). A claim that does not happen changes nothing. |
| MongoRPC.SecondClaimLoses | src/MongoRPC/MongoRPC.ts:123-131 | After one endpoint's claim on a record, every later insert handler for that record, on any endpoint, fails to claim it and writes nothing. |
| MongoRPC.ClaimIgnoresChannel | src/MongoRPC/MongoRPC.ts:114-131 | As written, an endpoint subscribed to the method claims a Requested record from another channel. The corrected handler ignores it. |
| MongoRPC.ClaimStaysInChannel | src/MongoRPC/MongoRPC.ts:114-120 | With the channel check, a record from another channel is never claimed and nothing is written. |
| MongoRPC.WriteBackCompletesLockedRecord | src/MongoRPC/MongoRPC.ts:141-163 | After a winning claim, the write-back updates exactly that record, once. The status moves one step forward: to CompletedSuccess with the handler's result, or to CompletedError with the error's message (or the thrown value itself). Nothing else changes. |
| MongoRPC.WriteBackOnVanishedRecord | src/MongoRPC/MongoRPC.ts:147-163 | If the record vanished before the write-back, nothing is written and the handler fails with "Update failed.". |
| MongoRPC.EndpointWritesStoreNoReservedStatus | src/MongoRPC/MongoRPC.ts:123-224 | The writes an endpoint issues (the Requested insert of `call`, the claim, the success or error write-back, the delete) are all dispatcher writes, so no interleaving of them stores Cancelled or Deleted. |
| MongoRPC.WithdrawnAfterClaimOrphans | src/MongoRPC/MongoRPC.ts:136-138 | A handler withdrawn between a winning claim and the re-check leaves the record AcknowledgedAndLocked. Nothing is written. |
| MongoRPC.HandlerErrorReachesCaller | src/MongoRPC/MongoRPC.ts:153-180 | A handler that throws an Error reaches the caller as a RemoteFunctionError with the same message. That error is a MongoRPCError and not a SystemError. |
| MongoRPC.CalleeTimeoutReachesCaller | src/MongoRPC/Subscription.ts:50-52 | Take a locked record whose handler's race starts with the callee timer. Whatever the handler does later, the claimant's resumption completes the record as CompletedError with one update event. Delivering that update rejects the caller with RemoteFunctionError "Callee timeout.". |
| MongoRPC.InheritedNameReachesCaller | src/MongoRPC/MongoRPC.ts:136-159 | Take a locked record whose method name the lookup finds only on `Object.prototype`. Calling `.invoke` on that member throws a TypeError. The record is completed as CompletedError with the TypeError's message, and delivering that update rejects the caller with a RemoteFunctionError carrying it. |
| MongoRPC.Endpoint.constructor | src/MongoRPC/MongoRPC.ts:14-26 | A connected endpoint on its channel, with empty pending and subscriber tables. |
| MongoRPC.Endpoint.OnInsert | src/MongoRPC/MongoRPC.ts:114-131 | The insert handler up to the claim's answer, proved against `InsertEffect`, where "subscribed" is the truthy lookup: an own handler or an `Object.prototype` name. The feed gets the lock event exactly when the claim is won. The tables stay valid. |
| MongoRPC.Endpoint.OnInsertInChannel | src/MongoRPC/MongoRPC.ts:114-120 | The insert handler with the channel check, proved against `InsertEffectInChannel`. |
| MongoRPC.Endpoint.ResumeAfterClaim | src/MongoRPC/MongoRPC.ts:135-163 | Re-check, invoke, write back, proved against `ResumeEffect`. The lookup decides the path. A missing handler leaves the record orphaned. An inherited member throws a TypeError, which is written back. An own handler is invoked, and the result is still awaiting the handler, a failure because the endpoint is not connected, or the write-back. The feed grows by exactly the write-back's events. |
| MongoRPC.Endpoint.WriteOutcome | src/MongoRPC/MongoRPC.ts:141-163 | The write-back of a known outcome, proved against `WriteBack`. A success update that fails its checks falls into the `catch` and is written as an error. |
| MongoRPC.Endpoint.OnUpdate | src/MongoRPC/MongoRPC.ts:165-190 | Acts iff the update sets a completion status and the id is pending here. It then resolves with the result, or rejects with RemoteFunctionError carrying the error payload. That removes exactly that entry and deletes the record. On a closed endpoint the call still settles, but the delete's `getCollection` throws "MongoRPC not initialized." and nothing is deleted. In every other case no table, entry or record changes. |
| MongoRPC.Endpoint.OnDelete | src/MongoRPC/MongoRPC.ts:191-195 | A delete fails the assertion "Request deleted before completion." iff its id is still pending here. |
| MongoRPC.Endpoint.Call | src/MongoRPC/MongoRPC.ts:199-227 | Registers a fresh, unsettled, armed call under the new id before anything else. When connected, it inserts the Requested record with no result, error or later times. When not connected, it fails with "MongoRPC not initialized.", with the registration left in place. |
| MongoRPC.Endpoint.CallChecked | src/MongoRPC/MongoRPC.ts:215-221 | The corrected `call`. A closed endpoint fails before registering anything. Otherwise it behaves as `Call`. |
| MongoRPC.Endpoint.Subscribe | src/MongoRPC/MongoRPC.ts:229-234 | Fails with SystemError "Already subscribed." when the lookup is truthy (the method has a handler, or it is an `Object.prototype` name), changing nothing. Otherwise it installs exactly that method key. |
| MongoRPC.Endpoint.Close | src/MongoRPC/MongoRPC.ts:236-253 | Disconnects and rejects every pending call with ConnectionError "Connection closed.", cancelling its timer. The pending table ends empty. |
| Scenarios.SingleSubscriberRoundTrip | tests/Common.test.ts:38-50 | One caller, one subscriber: the call resolves with the handler's result. The feed is exactly insert, lock, completion, delete, and the collection ends empty. |
| Scenarios.HandlerErrorRejectsCaller | tests/Common.test.ts:103-124 | A handler that throws rejects the caller with an error named "RemoteFunctionError" that carries the thrown message. The record is deleted. |
| Scenarios.NoSubscriberTimesOut | src/MongoRPC/Request.ts:24-27 | Take a method that no endpoint subscribes to and that is not an `Object.prototype` name. No endpoint claims the record, which stays Requested. The caller's timer rejects the call with "Request timeout.". |
| Scenarios.PrototypeNameRejectsCaller | src/MongoRPC/MongoRPC.ts:114-163 | A call of a method named after an `Object.prototype` member is claimed even by the caller's own endpoint, which subscribes to nothing. The caller is rejected with a RemoteFunctionError carrying the TypeError's message, and the record is deleted. |
| Scenarios.CompetingSubscribersOneClaims | src/MongoRPC/MongoRPC.ts:123-131 | Two subscribers see the same insert: the first claims it and the second loses. The feed holds one lock. |
| Scenarios.CalleeTimeoutRejectsCaller | src/MongoRPC/Subscription.ts:50-52 | The callee timer fires before the handler returns: the caller is rejected with RemoteFunctionError "Callee timeout.". |
| Scenarios.CloseRejectsPendingCall | src/MongoRPC/MongoRPC.ts:249-252 | Closing the caller rejects its pending call with "Connection closed.". A completion arriving afterwards is ignored. |
| Scenarios.LateCompletionLingers | src/MongoRPC/MongoRPC.ts:164-188 | When the caller's timer fires before the subscriber completes, the call is rejected with "Request timeout.", the completion update is ignored because nothing is pending under its id, and the CompletedSuccess record with its result stays in the collection. |
| Scenarios.WithdrawnSubscriberOrphansRecord | src/MongoRPC/MongoRPC.ts:136-138 | The subscriber closes after winning the claim: the record stays AcknowledgedAndLocked for good and the caller times out. |
| Scenarios.CrossChannelClaim | src/MongoRPC/MongoRPC.ts:114-120 | As written, an endpoint on another channel claims the record. The corrected handler ignores it. |
| Scenarios.CallAfterCloseLeaks | src/MongoRPC/MongoRPC.ts:215-218 | As written, a call on a closed endpoint fails at once, yet leaves an armed entry whose timer later rejects a promise nobody awaits. The corrected call leaves nothing behind. |

## Left out

- **Connection setup and change-stream wiring** (`initWithUrlDatabaseName`, `initWithDatabase`, `initStream`, `getCollection`) are MongoDB I/O.
  - `database` being set is the boolean `connected`. A new endpoint starts connected, and `close` clears it.
  - `getCollection` throwing "MongoRPC not initialized." is modelled wherever it is reached: the claim, the write-back, `call`, and the delete after a delivered completion (the `fault` of `Delivered`).
  - Change events are delivered by calling `OnInsert`, `ResumeAfterClaim`, `OnUpdate` and `OnDelete` explicitly, in the feed's order.
  - The `!event` guard and the other event kinds (replace, drop, rename, invalidate) do nothing in the source and are not modelled.
- **Closing the stream and the client** in `close` is I/O. Only `database = null` and the reject loop are modelled.
- **Timeout setters:** `setCallerTimeout` and `setCalleeTimeout` change module-level globals shared by every instance in the process. The model passes the timeouts to each endpoint's constructor, so one instance changing another's timeouts is not captured.
- **`setName`, logging and `sleep`** carry no behaviour.
- **`JSON.stringify` / `JSON.parse`** are treated as the identity on opaque strings.
  - A parse failure of the arguments inside the `try` is not modelled.
  - A completion update without its payload field is the `Unparsable` step, where the source's `JSON.parse` would throw.
  - The primitive-type round trip in the tests is a property of JSON, not of this code.
- **Driver result shapes:** the claim's `ok`/`value` fields are modelled as "applied iff the stored status is Requested", with a lost claim writing nothing.
  - With the real driver, a lost claim may instead come back with `ok` set and a null `value`. Reading `.status` of null then throws a TypeError before the `Invalid status.` assertion runs.
  - Either way the lost claimant writes nothing, so that path is not modelled separately.
- **The fire-and-forget `deleteOne`** takes effect immediately.
- **Timestamps:** `Date` values are `nat` parameters (`now`, `later`). `acknowledgeTime` and `deleteTime` are never written by the source and stay `None`.
- **Timers and promise scheduling:**
  - The caller timer is the explicit `FireTimeout` event.
  - The callee timer and the handler's completion are the `race` input to `Invoke`.
  - The callee timer is never cancelled in the source. It later calls `rejectOnce`, which is ignored, so only its position in the race matters.
  - Interleavings inside one endpoint are modelled only at the claim round-trip, the one await whose interleaving changes what the protocol writes.
- **The handler itself** is not modelled. `Invoke` receives its arguments but does not pass them anywhere, since what the handler does with them is outside the library.
- **Record ids and the pending table's lookups:** `pendingRequests` is a plain object too, but its keys are ObjectId hex strings of 24 hexadecimal digits, never an `Object.prototype` name. Its truthy lookups (`OnUpdate`, `OnDelete`) are therefore modelled as key membership.
- Store.RecordStatusOnlyMovesForward: covers interleavings with at most one completion update per record. The claimant's second write (the error write after a success update that matched or changed nothing) is outside it. `MongoRPC.WriteBackOnVanishedRecord` shows that when the record is gone neither write changes anything.
- **ObjectId generation** is the parameter `freshId`, required to be absent from the collection, as ObjectIds are unique. The insert's two assertions therefore always hold.
- **`example.ts` and `tests/MongoRPCTest.ts`** are process and test scaffolding.

## Findings

| source | as written | input that shows it | evidently intended | confidence | as-written member | corrected member |
|---|---|---|---|---|---|---|
| src/MongoRPC/MongoRPC.ts:114-131 | The insert handler claims any Requested record whose method it subscribes to. It never compares the record's `channel` with its own. | An endpoint on channel "b" subscribes to method m. An endpoint on channel "a" calls m. The "b" endpoint claims and runs the call. | Channels partition the collection: an endpoint only serves records written on its own channel. | not executed; medium (the `channel` field is what separates RPC namespaces that share one collection; nothing else reads it) | MongoRPC.ClaimIgnoresChannel | MongoRPC.Endpoint.OnInsertInChannel |
| src/MongoRPC/MongoRPC.ts:215-218 | `call` builds its `Request` (registering it and arming its timer) before `getCollection` throws on a closed endpoint. | Call `call` after `close`. The call throws "MongoRPC not initialized.", but its entry stays in `pendingRequests`. Its timer later rejects a promise nobody awaits. A Node process treats that as an unhandled rejection. | Fail before registering anything, so a failed call leaves no pending entry and no timer. | not executed; medium | Scenarios.CallAfterCloseLeaks | MongoRPC.Endpoint.CallChecked |
