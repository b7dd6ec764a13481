/**
 * The bounded busy-wait every command path uses: read the chip once per
 * iteration, let a decision table either finish with a result code or keep
 * polling, and give up with a timeout code after a fixed number of
 * iterations. The chip is an oracle: `chip(k)` is what the k-th iteration
 * reads.
 */
module Poll {

  datatype Decision = Continue | Done(code: int)

  /** No iteration before `n` reached a decision. */
  ghost predicate QuietBefore<T>(decide: T -> Decision, chip: nat -> T, n: nat)
  {
    forall k: nat :: k < n ==> decide(chip(k)) == Continue
  }

  /**
   * What a poll of at most `limit` iterations may end with: either every
   * iteration was quiet and the result is the timeout code after exactly
   * `limit` reads, or the first decisive iteration is the last one read and
   * its code is the result.
   */
  ghost predicate PollOutcome<T>(decide: T -> Decision, chip: nat -> T, limit: nat, timeoutCode: int,
                                 r: int, polls: nat)
  {
    (polls == limit && QuietBefore(decide, chip, limit) && r == timeoutCode)
    || (1 <= polls <= limit && QuietBefore(decide, chip, polls - 1)
        && decide(chip(polls - 1)) == Done(r))
  }

  /** Reference definition: the result and iteration count when polling resumes at iteration `t`. */
  function PollFrom<T>(decide: T -> Decision, chip: nat -> T, t: nat, limit: nat, timeoutCode: int): (int, nat)
    decreases limit - t
  {
    if t >= limit then (timeoutCode, limit)
    else match decide(chip(t))
      case Done(c) => (c, t + 1)
      case Continue => PollFrom(decide, chip, t + 1, limit, timeoutCode)
  }

  /** The loop the driver runs. */
  method Wait<T>(decide: T -> Decision, chip: nat -> T, limit: nat, timeoutCode: int)
    returns (r: int, polls: nat)
    ensures PollOutcome(decide, chip, limit, timeoutCode, r, polls)
    ensures polls <= limit
  {
    var t: nat := 0;
    while t < limit
      invariant t <= limit
      invariant QuietBefore(decide, chip, t)
    {
      var d := decide(chip(t));
      if d.Done? {
        return d.code, t + 1;
      }
      t := t + 1;
    }
    return timeoutCode, limit;
  }

  /** The recursive reference meets the outcome description. */
  lemma {:induction false} PollFromMeetsOutcome<T>(decide: T -> Decision, chip: nat -> T, t: nat,
                                                   limit: nat, timeoutCode: int)
    requires t <= limit && QuietBefore(decide, chip, t)
    ensures PollOutcome(decide, chip, limit, timeoutCode,
                        PollFrom(decide, chip, t, limit, timeoutCode).0,
                        PollFrom(decide, chip, t, limit, timeoutCode).1)
    decreases limit - t
  {
    if t < limit && decide(chip(t)) == Continue {
      assert QuietBefore(decide, chip, t + 1) by {
        forall k: nat | k < t + 1
          ensures decide(chip(k)) == Continue
        {
        }
      }
      PollFromMeetsOutcome(decide, chip, t + 1, limit, timeoutCode);
    }
  }

  /** The outcome description admits exactly one result, so it is a complete specification. */
  lemma OutcomeIsUnique<T>(decide: T -> Decision, chip: nat -> T, limit: nat, timeoutCode: int,
                           r1: int, p1: nat, r2: int, p2: nat)
    requires PollOutcome(decide, chip, limit, timeoutCode, r1, p1)
    requires PollOutcome(decide, chip, limit, timeoutCode, r2, p2)
    ensures r1 == r2 && p1 == p2
  {
  }

  /** Hence the loop computes exactly the reference. */
  lemma PollAgreesWithReference<T>(decide: T -> Decision, chip: nat -> T, limit: nat, timeoutCode: int,
                                   r: int, polls: nat)
    requires PollOutcome(decide, chip, limit, timeoutCode, r, polls)
    ensures (r, polls) == PollFrom(decide, chip, 0, limit, timeoutCode)
  {
    PollFromMeetsOutcome(decide, chip, 0, limit, timeoutCode);
    var ref := PollFrom(decide, chip, 0, limit, timeoutCode);
    OutcomeIsUnique(decide, chip, limit, timeoutCode, r, polls, ref.0, ref.1);
  }

  /** A result other than the timeout code was produced by some iteration's decision. */
  lemma DecidedByAnIteration<T>(decide: T -> Decision, chip: nat -> T, limit: nat, timeoutCode: int,
                                r: int, polls: nat)
    requires PollOutcome(decide, chip, limit, timeoutCode, r, polls)
    requires r != timeoutCode
    ensures 1 <= polls <= limit && decide(chip(polls - 1)) == Done(r)
  {
  }
}
