/** The retry policy of lib/backoff.js: exponential delays bounded by a number of retries and by a timeout. */
module BackoffPolicy {
  import opened Basics
  import opened Delays

  /** `retries` and `timeout` are absent when the caller sets no such bound. */
  datatype Policy = Policy(minDelay: nat, maxDelay: nat, retries: Option<nat>, timeout: Option<nat>)

  /** `firstTry` is 0 until the first `retry`, as a timestamp is never 0. */
  datatype State = State(policy: Policy, attempt: nat, firstTry: nat, waiting: bool)

  datatype Verdict = MaxRetriesReached | RetryTimedOut | WaitFor(delay: nat)

  /** Zero and absent delays fall back to the defaults. */
  function Effective(minDelay: nat, maxDelay: nat, retries: Option<nat>, timeout: Option<nat>): Policy {
    Policy(if minDelay == 0 then 500 else minDelay, if maxDelay == 0 then 15000 else maxDelay, retries, timeout)
  }

  function Fresh(policy: Policy): State {
    State(policy, 0, 0, false)
  }

  function Judge(s: State, now: nat, draw: Draw): Verdict {
    var first := if s.firstTry == 0 then now else s.firstTry;
    if s.policy.retries.Some? && s.attempt >= s.policy.retries.value then MaxRetriesReached
    else if s.policy.timeout.Some? && now - first > s.policy.timeout.value then RetryTimedOut
    else WaitFor(FuzzedDelay(s.policy.minDelay, s.policy.maxDelay, s.attempt, draw))
  }

  function AfterRetry(s: State, now: nat, draw: Draw): State {
    s.(firstTry := if s.firstTry == 0 then now else s.firstTry,
       waiting := s.waiting || Judge(s, now, draw).WaitFor?)
  }

  function AfterTimeout(s: State): State {
    s.(attempt := s.attempt + 1, waiting := false)
  }

  class Backoff {
    const policy: Policy
    var attempt: nat
    var firstTry: nat
    var timer: bool

    ghost function Abstract(): State
      reads this
    {
      State(policy, attempt, firstTry, timer)
    }

    constructor (minDelay: nat, maxDelay: nat, retries: Option<nat>, timeout: Option<nat>)
      ensures Abstract() == Fresh(Effective(minDelay, maxDelay, retries, timeout))
      ensures policy.minDelay == (if minDelay == 0 then 500 else minDelay)
      ensures policy.maxDelay == (if maxDelay == 0 then 15000 else maxDelay)
      ensures policy.retries == retries && policy.timeout == timeout
    {
      policy := Effective(minDelay, maxDelay, retries, timeout);
      attempt, firstTry, timer := 0, 0, false;
    }

    /** Either refuses another try or starts the timer for one. */
    method Retry(now: nat, draw: Draw) returns (verdict: Verdict)
      modifies this
      ensures verdict == Judge(old(Abstract()), now, draw)
      ensures Abstract() == AfterRetry(old(Abstract()), now, draw)
    {
      if firstTry == 0 {
        firstTry := now;
      }
      if policy.retries.Some? && attempt >= policy.retries.value {
        return MaxRetriesReached;
      }
      var duration := now - firstTry;
      if policy.timeout.Some? && duration > policy.timeout.value {
        return RetryTimedOut;
      }
      timer := true;
      return WaitFor(FuzzedDelay(policy.minDelay, policy.maxDelay, attempt, draw));
    }

    method OnTimeout()
      modifies this
      ensures Abstract() == AfterTimeout(old(Abstract()))
    {
      attempt := attempt + 1;
      timer := false;
    }
  }
}
