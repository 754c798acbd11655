/**
 * The persisted record and its status (src/MongoRPC/Models.ts), with the protocol's
 * status transitions (which status the dispatcher moves a record to from which).
 */
module Models {
  import opened Wrappers

  /** A record's identity: the hex string of its ObjectId (the store key and the correlation key). */
  type Id = string

  datatype Status =
    | Requested
    | AcknowledgedAndLocked
    | Cancelled              // reserved: never assigned
    | CompletedSuccess
    | CompletedError
    | Deleted                // reserved: records are removed instead

  /** The string each enum member stands for in the store. */
  function StatusName(s: Status): string {
    match s
    case Requested => "Requested"
    case AcknowledgedAndLocked => "AcknowledgedAndLocked"
    case Cancelled => "Cancelled"
    case CompletedSuccess => "CompletedSuccess"
    case CompletedError => "CompletedError"
    case Deleted => "Deleted"
  }

  /** Reading a stored status string back; any other string is not a status. */
  function ParseStatus(name: string): Option<Status> {
    if name == "Requested" then Some(Requested)
    else if name == "AcknowledgedAndLocked" then Some(AcknowledgedAndLocked)
    else if name == "Cancelled" then Some(Cancelled)
    else if name == "CompletedSuccess" then Some(CompletedSuccess)
    else if name == "CompletedError" then Some(CompletedError)
    else if name == "Deleted" then Some(Deleted)
    else None
  }

  /** The six members have six distinct stored strings, and each reads back as itself. */
  lemma StatusNameRoundTrip(s: Status, name: string)
    ensures ParseStatus(StatusName(s)) == Some(s)
    ensures ParseStatus(name) == Some(s) ==> StatusName(s) == name
  {
  }

  lemma StatusNameInjective(s: Status, t: Status)
    requires StatusName(s) == StatusName(t)
    ensures s == t
  {
    StatusNameRoundTrip(s, StatusName(s));
    StatusNameRoundTrip(t, StatusName(t));
  }

  /** One transition of the protocol: the claim, then one of the two completions. */
  predicate Advances(s: Status, t: Status) {
    || (s == Requested && t == AcknowledgedAndLocked)
    || (s == AcknowledgedAndLocked && (t == CompletedSuccess || t == CompletedError))
  }

  predicate IsTerminal(s: Status) {
    s == CompletedSuccess || s == CompletedError
  }

  /** The statuses the dispatcher ever writes into a record. */
  predicate Written(s: Status) {
    s != Cancelled && s != Deleted
  }

  /** How far along the lifecycle a status is; the reserved statuses are on no path. */
  function Stage(s: Status): nat {
    match s
    case Requested => 0
    case AcknowledgedAndLocked => 1
    case CompletedSuccess => 2
    case CompletedError => 2
    case Cancelled => 3
    case Deleted => 3
  }

  /** A status history of one record: every consecutive pair is a protocol transition. */
  predicate IsPath(ss: seq<Status>) {
    forall i :: 0 < i < |ss| ==> Advances(ss[i - 1], ss[i])
  }

  /** A contiguous stretch of a history is a history. */
  lemma SubPath(ss: seq<Status>, i: nat, j: nat)
    requires IsPath(ss) && i <= j <= |ss|
    ensures IsPath(ss[i..j])
  {
    var seg := ss[i..j];
    forall k | 0 < k < |seg| ensures Advances(seg[k - 1], seg[k]) {
      assert seg[k - 1] == ss[i + k - 1] && seg[k] == ss[i + k];
    }
  }

  /** Every transition moves exactly one stage forward, so a history climbs one stage per step. */
  lemma {:induction false} PathClimbs(ss: seq<Status>)
    requires IsPath(ss) && |ss| > 0
    ensures Stage(ss[|ss| - 1]) == Stage(ss[0]) + |ss| - 1
  {
    if |ss| > 1 {
      SubPath(ss, 0, |ss| - 1);
      PathClimbs(ss[..|ss| - 1]);
      assert Advances(ss[|ss| - 2], ss[|ss| - 1]);
    }
  }

  /** Status only moves forward: no record passes through the same status twice. */
  lemma PathNeverRepeats(ss: seq<Status>, i: nat, j: nat)
    requires IsPath(ss) && i < j < |ss|
    ensures ss[i] != ss[j]
    ensures Stage(ss[i]) < Stage(ss[j])
  {
    SubPath(ss, i, j + 1);
    PathClimbs(ss[i..j + 1]);
  }

  /**
   * A history that starts at Requested is a prefix of Requested, AcknowledgedAndLocked,
   * then one completion: it has at most three entries and never reaches a reserved status.
   */
  lemma PathFromRequested(ss: seq<Status>)
    requires IsPath(ss) && |ss| > 0 && ss[0] == Requested
    ensures |ss| <= 3
    ensures forall k :: 0 <= k < |ss| ==> Written(ss[k]) && Stage(ss[k]) == k
  {
    forall k | 0 <= k < |ss| ensures Written(ss[k]) && Stage(ss[k]) == k {
      if k > 0 {
        SubPath(ss, 0, k + 1);
        PathClimbs(ss[..k + 1]);
        assert Advances(ss[k - 1], ss[k]);
      }
    }
    assert Stage(ss[|ss| - 1]) == |ss| - 1;
  }

  /**
   * A completed record has no further status. It is removed only by the caller's update
   * handler, and only while the call is still pending there.
   */
  lemma TerminalIsFinal(s: Status, t: Status)
    requires IsTerminal(s)
    ensures !Advances(s, t)
  {
  }

  /**
   * The only persisted entity. Payloads are serialized strings; `None` stands for the
   * `null` the caller writes into fields not yet known. Times are milliseconds.
   */
  datatype Message = Message(
    id: Id,
    channel: string,
    methodName: string,
    args: string,
    result: Option<string>,
    error: Option<string>,
    status: Status,
    requestTime: nat,
    acknowledgeTime: Option<nat>,
    completeTime: Option<nat>,
    deleteTime: Option<nat>)
}
