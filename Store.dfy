/**
 * The shared collection `mongo_rpc` that every endpoint reads and writes, reduced to
 * what the dispatch protocol relies on: insertion with a caller-chosen id, the
 * atomic conditional update used as the claim, an unconditional update by id that
 * reports how many records it matched and modified, deletion by id, and a change
 * feed that lists every mutation once, in one global order, for every watcher.
 *
 * The pure functions state what each operation does to the records; the class
 * `Collection` is the shared mutable store whose methods are proved against them.
 */
module Store {
  import opened Wrappers
  import opened Models

  /** The `$set` of an update: the fields it assigns (`None`: not assigned). */
  datatype UpdatedFields = UpdatedFields(
    status: Option<Status>,
    result: Option<string>,
    error: Option<string>,
    completeTime: Option<nat>)

  /** One change-feed entry: an insert with its document, an update with the fields it set, a delete. */
  datatype ChangeEvent =
    | Inserted(doc: Message)
    | Updated(id: Id, fields: UpdatedFields)
    | Removed(id: Id)

  /** What `updateOne` reports. */
  datatype UpdateResult = UpdateResult(acknowledged: bool, matchedCount: nat, modifiedCount: nat)

  /** The fields of the claim's `$set`: only the status. */
  const LockFields := UpdatedFields(Some(AcknowledgedAndLocked), None, None, None)

  /** A record after `$set`: every assigned field takes its new value, the others keep theirs. */
  function ApplySet(m: Message, f: UpdatedFields): (r: Message)
    ensures r.id == m.id && r.channel == m.channel && r.methodName == m.methodName && r.args == m.args
    ensures r.requestTime == m.requestTime && r.acknowledgeTime == m.acknowledgeTime && r.deleteTime == m.deleteTime
    ensures f.status.Some? ==> r.status == f.status.value
    ensures f.status.None? ==> r.status == m.status
    ensures f.result.Some? ==> r.result == f.result
    ensures f.result.None? ==> r.result == m.result
    ensures f.error.Some? ==> r.error == f.error
    ensures f.error.None? ==> r.error == m.error
    ensures f.completeTime.Some? ==> r.completeTime == f.completeTime
    ensures f.completeTime.None? ==> r.completeTime == m.completeTime
  {
    m.(status := if f.status.Some? then f.status.value else m.status,
       result := if f.result.Some? then f.result else m.result,
       error := if f.error.Some? then f.error else m.error,
       completeTime := if f.completeTime.Some? then f.completeTime else m.completeTime)
  }

  /**
   * The claim: `findOneAndUpdate({_id: id, status: Requested}, {$set: {status:
   * AcknowledgedAndLocked}})`. It applies exactly when the stored status is still
   * Requested, and then changes nothing but that status.
   */
  function Claim(records: map<Id, Message>, id: Id): (r: (map<Id, Message>, bool))
    ensures r.1 <==> id in records && records[id].status == Requested
    ensures r.1 ==> r.0 == records[id := records[id].(status := AcknowledgedAndLocked)]
    ensures !r.1 ==> r.0 == records
  {
    if id in records && records[id].status == Requested then
      (records[id := ApplySet(records[id], LockFields)], true)
    else
      (records, false)
  }

  /** `updateOne({_id: id}, {$set: f})`: unconditional; matched is 0 or 1, modified counts a real change. */
  function UpdateOne(records: map<Id, Message>, id: Id, f: UpdatedFields): (r: (map<Id, Message>, UpdateResult))
    ensures r.1.acknowledged
    ensures id !in records ==> r.0 == records && r.1.matchedCount == 0 && r.1.modifiedCount == 0
    ensures id in records ==> r.0 == records[id := ApplySet(records[id], f)] && r.1.matchedCount == 1
    ensures r.1.modifiedCount == 1 <==> r.0 != records
    ensures r.1.modifiedCount <= r.1.matchedCount
  {
    if id !in records then
      (records, UpdateResult(true, 0, 0))
    else
      var m := ApplySet(records[id], f);
      assert records[id := m] != records <==> m != records[id] by {
        if m == records[id] { assert records[id := m] == records; }
      }
      (records[id := m], UpdateResult(true, 1, if m == records[id] then 0 else 1))
  }

  /** An update that matched exactly one record and changed it: what the dispatcher asserts. */
  predicate UpdatedExactlyOne(u: UpdateResult) {
    u.acknowledged && u.matchedCount == 1 && u.modifiedCount == 1
  }

  /** The shared collection, and its change feed in the one order every watcher sees. */
  class Collection {
    var records: map<Id, Message>
    var log: seq<ChangeEvent>

    constructor()
      ensures records == map[] && log == []
    {
      records := map[];
      log := [];
    }

    /** `insertOne`. The id is fresh (ObjectIds are unique), so the insert is acknowledged. */
    method InsertOne(m: Message) returns (insertedId: Id)
      requires m.id !in records
      modifies this
      ensures insertedId == m.id
      ensures records == old(records)[m.id := m]
      ensures log == old(log) + [Inserted(m)]
    {
      records := records[m.id := m];
      log := log + [Inserted(m)];
      insertedId := m.id;
    }

    /**
     * The claim, as one atomic step. `locked` is the document after the update when
     * the claim applied, and `None` when it did not; a lost claim changes nothing.
     */
    method LockIfRequested(id: Id) returns (locked: Option<Message>)
      modifies this
      ensures (records, locked.Some?) == Claim(old(records), id)
      ensures locked.Some? ==> id in records && locked.value == records[id]
      ensures log == if locked.Some? then old(log) + [Updated(id, LockFields)] else old(log)
    {
      var (next, applied) := Claim(records, id);
      if applied {
        records := next;
        log := log + [Updated(id, LockFields)];
        locked := Some(records[id]);
      } else {
        locked := None;
      }
    }

    /** `updateOne` by id; the feed carries an update event only when a record changed. */
    method UpdateById(id: Id, f: UpdatedFields) returns (u: UpdateResult)
      modifies this
      ensures (records, u) == UpdateOne(old(records), id, f)
      ensures log == if u.modifiedCount == 1 then old(log) + [Updated(id, f)] else old(log)
    {
      var (next, result) := UpdateOne(records, id, f);
      records, u := next, result;
      if u.modifiedCount == 1 {
        log := log + [Updated(id, f)];
      }
    }

    /** `deleteOne` by id; the feed carries a delete event only when a record was removed. */
    method DeleteOne(id: Id)
      modifies this
      ensures records == old(records) - {id}
      ensures log == if id in old(records) then old(log) + [Removed(id)] else old(log)
    {
      if id in records {
        records := records - {id};
        log := log + [Removed(id)];
      }
    }
  }

  /** The mutations endpoints issue against the collection, for reasoning about interleavings. */
  datatype Op =
    | InsertOp(m: Message)
    | ClaimOp(id: Id)
    | UpdateOp(id: Id, f: UpdatedFields)
    | DeleteOp(id: Id)

  /** One mutation; an insert under an id already present is refused (duplicate key). */
  function Apply(records: map<Id, Message>, op: Op): map<Id, Message> {
    match op
    case InsertOp(m) => if m.id in records then records else records[m.id := m]
    case ClaimOp(id) => Claim(records, id).0
    case UpdateOp(id, f) => UpdateOne(records, id, f).0
    case DeleteOp(id) => records - {id}
  }

  function Replay(records: map<Id, Message>, ops: seq<Op>): map<Id, Message>
    decreases |ops|
  {
    if ops == [] then records else Replay(Apply(records, ops[0]), ops[1..])
  }

  /** How many claims on `id` in `ops`, from any endpoints in any order, apply. */
  function ClaimsWon(records: map<Id, Message>, ops: seq<Op>, id: Id): nat
    decreases |ops|
  {
    if ops == [] then 0
    else
      var won := if ops[0] == ClaimOp(id) && Claim(records, id).1 then 1 else 0;
      won + ClaimsWon(Apply(records, ops[0]), ops[1..], id)
  }

  /** Neither inserts `id` again (ObjectIds are never reused) nor writes Requested back by update. */
  predicate NeverReopens(ops: seq<Op>, id: Id) {
    forall k :: 0 <= k < |ops| ==>
      (ops[k].InsertOp? ==> ops[k].m.id != id) && (ops[k].UpdateOp? ==> ops[k].f.status != Some(Requested))
  }

  predicate Open(records: map<Id, Message>, id: Id) {
    id in records && records[id].status == Requested
  }

  /**
   * Claim exclusivity: however the claims of any number of endpoints interleave with
   * other mutations, at most one claim on a record applies, and none unless the record
   * was still Requested at the start.
   */
  lemma {:induction false} AtMostOneClaimWins(records: map<Id, Message>, ops: seq<Op>, id: Id)
    requires NeverReopens(ops, id)
    ensures ClaimsWon(records, ops, id) <= if Open(records, id) then 1 else 0
    decreases |ops|
  {
    if ops != [] {
      var next := Apply(records, ops[0]);
      assert NeverReopens(ops[1..], id) by {
        forall k | 0 <= k < |ops[1..]| ensures
          (ops[1..][k].InsertOp? ==> ops[1..][k].m.id != id) &&
          (ops[1..][k].UpdateOp? ==> ops[1..][k].f.status != Some(Requested))
        {
          assert ops[1..][k] == ops[k + 1];
        }
      }
      AtMostOneClaimWins(next, ops[1..], id);
      assert ops[0].InsertOp? ==> ops[0].m.id != id;
      assert ops[0].UpdateOp? ==> ops[0].f.status != Some(Requested);
      if Open(records, id) {
        if ops[0] == ClaimOp(id) {
          assert !Open(next, id);
        }
      } else {
        assert !Open(next, id);
      }
    }
  }

  /** `op` is an update of record `id`. */
  predicate UpdatesOn(op: Op, id: Id) {
    op.UpdateOp? && op.id == id
  }

  /**
   * How the dispatcher writes one record after its insert: it never inserts the id
   * again, and it updates it only with a completion status, at most once.
   */
  predicate WriteBackDiscipline(ops: seq<Op>, id: Id) {
    && (forall k :: 0 <= k < |ops| && ops[k].InsertOp? ==> ops[k].m.id != id)
    && (forall k :: 0 <= k < |ops| && UpdatesOn(ops[k], id) ==>
          ops[k].f.status.Some? && IsTerminal(ops[k].f.status.value))
    && (forall k, j :: 0 <= k < j < |ops| && UpdatesOn(ops[k], id) ==> !UpdatesOn(ops[j], id))
  }

  /** Every update of `id` is issued after a claim on `id` (by the endpoint that won it). */
  predicate ClaimedBeforeWriteBack(ops: seq<Op>, id: Id) {
    forall k :: 0 <= k < |ops| && UpdatesOn(ops[k], id) ==> ClaimOp(id) in ops[..k]
  }

  /**
   * The statuses record `id` takes while `ops` run: its status at the start (if it is
   * stored), then each new status an operation gives it.
   */
  function StatusHistory(records: map<Id, Message>, ops: seq<Op>, id: Id): seq<Status> {
    (if id in records then [records[id].status] else []) + StatusChanges(records, ops, id)
  }

  function StatusChanges(records: map<Id, Message>, ops: seq<Op>, id: Id): seq<Status>
    decreases |ops|
  {
    if ops == [] then []
    else
      var next := Apply(records, ops[0]);
      var changed := id in next && (id !in records || next[id].status != records[id].status);
      (if changed then [next[id].status] else []) + StatusChanges(next, ops[1..], id)
  }

  /** A record that is gone, and is never inserted again, takes no further status. */
  lemma {:induction false} AbsentStaysAbsent(records: map<Id, Message>, ops: seq<Op>, id: Id)
    requires id !in records
    requires forall k :: 0 <= k < |ops| && ops[k].InsertOp? ==> ops[k].m.id != id
    ensures StatusChanges(records, ops, id) == []
    decreases |ops|
  {
    if ops != [] {
      assert ops[0].InsertOp? ==> ops[0].m.id != id;
      forall k | 0 <= k < |ops[1..]| && ops[1..][k].InsertOp? ensures ops[1..][k].m.id != id {
        assert ops[1..][k] == ops[k + 1];
      }
      AbsentStaysAbsent(Apply(records, ops[0]), ops[1..], id);
    }
  }

  lemma DisciplineOfRest(ops: seq<Op>, id: Id)
    requires ops != [] && WriteBackDiscipline(ops, id)
    ensures WriteBackDiscipline(ops[1..], id)
    ensures UpdatesOn(ops[0], id) ==> forall k :: 0 <= k < |ops[1..]| ==> !UpdatesOn(ops[1..][k], id)
  {
    var rest := ops[1..];
    forall k | 0 <= k < |rest| ensures rest[k] == ops[k + 1] { }
  }

  lemma ClaimedBeforeOfRest(ops: seq<Op>, id: Id)
    requires ops != [] && ops[0] != ClaimOp(id) && ClaimedBeforeWriteBack(ops, id)
    ensures ClaimedBeforeWriteBack(ops[1..], id)
  {
    var rest := ops[1..];
    forall k | 0 <= k < |rest| && UpdatesOn(rest[k], id) ensures ClaimOp(id) in rest[..k] {
      assert rest[k] == ops[k + 1];
      assert ops[..k + 1] == [ops[0]] + rest[..k];
    }
  }

  /** Where a record's status may be, given what is still to run on it. */
  predicate Phase(s: Status, ops: seq<Op>, id: Id) {
    || (s == Requested && ClaimedBeforeWriteBack(ops, id))
    || s == AcknowledgedAndLocked
    || (IsTerminal(s) && forall k :: 0 <= k < |ops| ==> !UpdatesOn(ops[k], id))
  }

  /** One operation on a stored record: its status stays or takes one protocol step, and the phase carries over. */
  lemma PhaseStep(records: map<Id, Message>, ops: seq<Op>, id: Id)
    requires ops != [] && WriteBackDiscipline(ops, id)
    requires id in records && Phase(records[id].status, ops, id)
    requires id in Apply(records, ops[0])
    ensures var s, t := records[id].status, Apply(records, ops[0])[id].status;
      (t == s || Advances(s, t)) && Phase(t, ops[1..], id)
  {
    var s, t := records[id].status, Apply(records, ops[0])[id].status;
    var rest := ops[1..];
    DisciplineOfRest(ops, id);
    if UpdatesOn(ops[0], id) {
      assert ops[..0] == [];
      assert s == AcknowledgedAndLocked;
    } else if ops[0] == ClaimOp(id) {
      if IsTerminal(t) {
        forall k | 0 <= k < |rest| ensures !UpdatesOn(rest[k], id) {
          assert rest[k] == ops[k + 1];
        }
      }
    } else {
      assert ops[0].InsertOp? ==> ops[0].m.id != id;
      assert t == s;
      if s == Requested {
        ClaimedBeforeOfRest(ops, id);
      } else if IsTerminal(s) {
        forall k | 0 <= k < |rest| ensures !UpdatesOn(rest[k], id) {
          assert rest[k] == ops[k + 1];
        }
      }
    }
  }

  lemma PrependStep(s: Status, tail: seq<Status>)
    requires IsPath(tail) && tail != [] && Advances(s, tail[0])
    ensures IsPath([s] + tail)
  {
    var h := [s] + tail;
    forall i | 0 < i < |h| ensures Advances(h[i - 1], h[i]) {
      if i > 1 {
        assert h[i - 1] == tail[i - 2] && h[i] == tail[i - 1];
      }
    }
  }

  /** The history of a record whose phase fits the operations still to run follows the protocol. */
  lemma {:induction false} HistoryIsPath(records: map<Id, Message>, ops: seq<Op>, id: Id)
    requires WriteBackDiscipline(ops, id)
    requires id in records ==> Phase(records[id].status, ops, id)
    ensures IsPath(StatusHistory(records, ops, id))
    decreases |ops|
  {
    if ops == [] {
      return;
    }
    var next := Apply(records, ops[0]);
    var rest := ops[1..];
    DisciplineOfRest(ops, id);
    assert ops[0].InsertOp? ==> ops[0].m.id != id;
    if id !in records {
      assert id !in next;
      HistoryIsPath(next, rest, id);
      return;
    }
    var s := records[id].status;
    if id !in next {
      forall k | 0 <= k < |rest| && rest[k].InsertOp? ensures rest[k].m.id != id {
        assert rest[k] == ops[k + 1];
      }
      AbsentStaysAbsent(next, rest, id);
      assert StatusHistory(records, ops, id) == [s];
      return;
    }
    var t := next[id].status;
    PhaseStep(records, ops, id);
    HistoryIsPath(next, rest, id);
    var tail := StatusHistory(next, rest, id);
    assert tail == [t] + StatusChanges(next, rest, id);
    if t == s {
      assert StatusHistory(records, ops, id) == tail;
    } else {
      assert StatusHistory(records, ops, id) == [s] + tail;
      PrependStep(s, tail);
    }
  }

  /**
   * Status only moves forward for a stored record. Run any interleaving in which the
   * record is not inserted again and is updated at most once, with a completion, after
   * a claim on it. Its status history then starts at Requested, follows the protocol's
   * transitions, has at most three entries and never repeats a status.
   */
  lemma RecordStatusOnlyMovesForward(records: map<Id, Message>, ops: seq<Op>, id: Id)
    requires id in records && records[id].status == Requested
    requires WriteBackDiscipline(ops, id) && ClaimedBeforeWriteBack(ops, id)
    ensures var h := StatusHistory(records, ops, id);
      && IsPath(h) && |h| > 0 && h[0] == Requested && |h| <= 3
      && (forall i, j :: 0 <= i < j < |h| ==> h[i] != h[j])
  {
    HistoryIsPath(records, ops, id);
    var h := StatusHistory(records, ops, id);
    PathFromRequested(h);
    forall i, j | 0 <= i < j < |h| ensures h[i] != h[j] {
      PathNeverRepeats(h, i, j);
    }
  }

  /** No stored record holds a reserved status (Cancelled or Deleted). */
  predicate NoReservedStatus(records: map<Id, Message>) {
    forall id :: id in records ==> Written(records[id].status)
  }

  /** The mutations the dispatcher issues: it inserts Requested records and updates only to written statuses. */
  predicate DispatcherOp(op: Op) {
    match op
    case InsertOp(m) => m.status == Requested
    case UpdateOp(_, f) => f.status.None? || Written(f.status.value)
    case _ => true
  }

  /** Cancelled and Deleted are never stored: no sequence of dispatcher mutations writes them. */
  lemma {:induction false} ReservedNeverStored(records: map<Id, Message>, ops: seq<Op>)
    requires NoReservedStatus(records)
    requires forall k :: 0 <= k < |ops| ==> DispatcherOp(ops[k])
    ensures NoReservedStatus(Replay(records, ops))
    decreases |ops|
  {
    if ops != [] {
      var next := Apply(records, ops[0]);
      assert DispatcherOp(ops[0]);
      assert NoReservedStatus(next);
      assert forall k :: 0 <= k < |ops[1..]| ==> DispatcherOp(ops[1..][k]) by {
        forall k | 0 <= k < |ops[1..]| ensures DispatcherOp(ops[1..][k]) {
          assert ops[1..][k] == ops[k + 1];
        }
      }
      ReservedNeverStored(next, ops[1..]);
    }
  }
}
