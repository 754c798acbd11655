/**
 * A JavaScript promise seen as a single-assignment slot: the first resolve or
 * reject settles it, and every later one is ignored.
 */
module Promises {
  import opened Wrappers

  /** How a promise settled: with a (serialized) value, or rejected with a reason. */
  datatype Settled<+E> = Fulfilled(value: string) | Rejected(reason: E)

  /** One resolve/reject call on a promise whose slot holds `slot`. */
  function Settle<E>(slot: Option<Settled<E>>, s: Settled<E>): Option<Settled<E>> {
    if slot.Some? then slot else Some(s)
  }

  /** A series of resolve/reject calls, in the order they are made. */
  function SettleAll<E>(slot: Option<Settled<E>>, attempts: seq<Settled<E>>): Option<Settled<E>>
    decreases |attempts|
  {
    if attempts == [] then slot else SettleAll(Settle(slot, attempts[0]), attempts[1..])
  }

  /** First settlement wins: the slot ends with what it held, or else with the first attempt. */
  lemma {:induction false} FirstAttemptWins<E>(slot: Option<Settled<E>>, attempts: seq<Settled<E>>)
    ensures SettleAll(slot, attempts) ==
      if slot.Some? then slot else if attempts == [] then None else Some(attempts[0])
    decreases |attempts|
  {
    if attempts != [] {
      FirstAttemptWins(Settle(slot, attempts[0]), attempts[1..]);
    }
  }

  /** Attempts made after a settlement change nothing. */
  lemma {:induction false} LaterAttemptsIgnored<E>(slot: Option<Settled<E>>, first: seq<Settled<E>>, later: seq<Settled<E>>)
    requires SettleAll(slot, first).Some?
    ensures SettleAll(slot, first + later) == SettleAll(slot, first)
    decreases |first|
  {
    if first == [] {
      assert first + later == later;
      FirstAttemptWins(slot, later);
    } else {
      assert (first + later)[1..] == first[1..] + later;
      LaterAttemptsIgnored(Settle(slot, first[0]), first[1..], later);
    }
  }
}
