/**
 * Lock contention, as an oracle.
 *
 * Every `try_lock` the core performs (on a dispatcher's handler list, on the
 * queue's receiver, on the application's exit flag) reads the next outcome of
 * one schedule `locks: seq<bool>`, in program order: `true` means the lock was
 * free and is taken, `false` that another thread held it. Once the schedule is
 * used up, every further attempt succeeds: nothing else is running.
 */
module Locking {

  /** The outcome of the next `try_lock`. */
  predicate Granted(locks: seq<bool>)
  {
    |locks| == 0 || locks[0]
  }

  /** The schedule after one attempt. */
  function Rest(locks: seq<bool>): seq<bool>
  {
    if |locks| == 0 then [] else locks[1..]
  }

  /** The schedule after `n` attempts. */
  function Skip(locks: seq<bool>, n: nat): seq<bool>
  {
    if n <= |locks| then locks[n..] else []
  }

  /** How many `try_lock` attempts the dispatcher makes before giving up. */
  const MaxLockAttempts: nat := 5

  /** The result of a bounded retry loop: granted at attempt `tries`, or every attempt refused. */
  datatype Attempt = Acquired(tries: nat) | Exhausted

  /**
   * Retrying `try_lock` at most `budget` times. The result says on which
   * attempt (counted from 1) the lock was granted.
   */
  function Acquire(locks: seq<bool>, budget: nat): (a: Attempt)
    ensures a.Acquired? ==> 1 <= a.tries <= budget
    decreases budget
  {
    if budget == 0 then Exhausted
    else if Granted(locks) then Acquired(1)
    else Later(Acquire(Rest(locks), budget - 1), 1)
  }

  /** An attempt made `n` tries later. */
  function Later(a: Attempt, n: nat): Attempt
  {
    match a
    case Acquired(k) => Acquired(k + n)
    case Exhausted => Exhausted
  }

  /** The number of attempts a retry loop uses: up to the granted one, or the whole budget. */
  function Used(a: Attempt, budget: nat): nat
  {
    match a
    case Acquired(k) => k
    case Exhausted => budget
  }

  lemma SkipRest(locks: seq<bool>, n: nat)
    ensures Skip(locks, n + 1) == Rest(Skip(locks, n))
  {
  }

  /** A retry loop gives up exactly when each of its attempts is refused. */
  lemma {:induction false} AcquireExhaustedIff(locks: seq<bool>, budget: nat)
    ensures Acquire(locks, budget).Exhausted? <==>
      budget <= |locks| && forall i :: 0 <= i < budget ==> !locks[i]
    decreases budget
  {
    if budget > 0 && !Granted(locks) {
      AcquireExhaustedIff(Rest(locks), budget - 1);
      assert forall i :: 1 <= i < |locks| ==> locks[i] == Rest(locks)[i - 1];
    }
  }

  /** A retry loop succeeds on the first attempt that is granted, and every earlier one was refused. */
  lemma {:induction false} AcquireFirstGranted(locks: seq<bool>, budget: nat)
    requires Acquire(locks, budget).Acquired?
    ensures var k := Acquire(locks, budget).tries;
      k - 1 <= |locks| && Granted(Skip(locks, k - 1)) &&
      forall i :: 0 <= i < k - 1 ==> !locks[i]
    decreases budget
  {
    if !Granted(locks) {
      AcquireFirstGranted(Rest(locks), budget - 1);
      var k := Acquire(Rest(locks), budget - 1).tries;
      assert Skip(Rest(locks), k - 1) == Skip(locks, k);
      assert forall i :: 1 <= i < |locks| ==> locks[i] == Rest(locks)[i - 1];
    }
  }
}
