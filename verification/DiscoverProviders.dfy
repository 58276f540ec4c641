/** The retrying discover provider of discover-providers.js, over every timed run. */
module DiscoverProviders {
  import opened Basics
  import opened Delays
  import opened BackoffPolicy

  /** What the wrapped provider calls back with; `hosts` may be null. */
  datatype Reply = Reply(err: Option<string>, hosts: Option<seq<string>>)

  datatype Report = Found(hosts: seq<string>) | GaveUp(why: Verdict, lastError: Option<string>)

  datatype Phase = Asking | Sleeping(due: nat) | Over

  datatype Provider = Provider(backoff: State, phase: Phase, innerCalls: nat, lastError: Option<string>,
                         reports: seq<Report>, clock: nat)

  datatype Event = Replied(reply: Reply, now: nat, draw: Draw) | Woke(now: nat)

  predicate Good(r: Reply) {
    r.err.None? && r.hosts.Some? && r.hosts.value != []
  }

  function Start(policy: Policy, now: nat): Provider {
    Provider(Fresh(policy), Asking, 1, None, [], now)
  }

  /** The wrapped provider answers each call once, a timer fires no earlier than it is due, and time does not run
      back. */
  predicate Enabled(s: Provider, e: Event) {
    match e
    case Replied(_, now, _) => s.phase.Asking? && s.clock <= now
    case Woke(now) => s.phase.Sleeping? && s.phase.due <= now && s.clock <= now
  }

  function Step(s: Provider, e: Event): Provider {
    match e
    case Woke(now) =>
      s.(backoff := AfterTimeout(s.backoff), phase := Asking, innerCalls := s.innerCalls + 1, clock := now)
    case Replied(reply, now, draw) =>
      if Good(reply) then
        s.(phase := Over, reports := s.reports + [Found(reply.hosts.value)], clock := now)
      else
        var verdict := Judge(s.backoff, now, draw);
        var s' := s.(backoff := AfterRetry(s.backoff, now, draw), lastError := reply.err, clock := now);
        if verdict.WaitFor? then s'.(phase := Sleeping(now + verdict.delay))
        else s'.(phase := Over, reports := s.reports + [GaveUp(verdict, s'.lastError)])
  }

  ghost predicate Legal(policy: Policy, start: nat, es: seq<Event>) {
    es == [] ||
    (Legal(policy, start, es[..|es| - 1]) && Enabled(Run(policy, start, es[..|es| - 1]), es[|es| - 1]))
  }

  ghost function Run(policy: Policy, start: nat, es: seq<Event>): Provider {
    if es == [] then Start(policy, start) else Step(Run(policy, start, es[..|es| - 1]), es[|es| - 1])
  }

  /** The wrapped provider's answers in a run, in order. */
  function Replies(es: seq<Event>): seq<Reply> {
    if es == [] then []
    else Replies(es[..|es| - 1]) + (match es[|es| - 1] case Replied(r, _, _) => [r] case Woke(_) => [])
  }

  ghost predicate Inv(policy: Policy, start: nat, s: Provider) {
    && s.backoff.policy == policy
    && s.innerCalls == s.backoff.attempt + 1
    && start <= s.clock
    && s.backoff.firstTry <= s.clock
    && (s.phase.Asking? && s.backoff.attempt == 0 <==> s.backoff.firstTry == 0 && s.phase.Asking?)
    && (s.phase.Sleeping? ==> s.backoff.firstTry > 0)
    && (s.backoff.firstTry > 0 ==>
          s.clock >= s.backoff.firstTry + MinElapsed(policy.minDelay, policy.maxDelay, s.backoff.attempt))
    && (s.phase.Sleeping? ==>
          s.phase.due >= s.backoff.firstTry + MinElapsed(policy.minDelay, policy.maxDelay, s.backoff.attempt + 1))
    && (policy.retries.Some? ==> s.backoff.attempt + (if s.phase.Sleeping? then 1 else 0) <= policy.retries.value)
    && (policy.timeout.Some? ==>
          && (s.phase.Sleeping? ==>
              MinElapsed(policy.minDelay, policy.maxDelay, s.backoff.attempt) <= policy.timeout.value)
          && (s.backoff.attempt > 0 ==>
                MinElapsed(policy.minDelay, policy.maxDelay, s.backoff.attempt - 1) <= policy.timeout.value))
  }

  lemma StepKeepsInv(policy: Policy, start: nat, s: Provider, e: Event)
    requires start > 0 && Inv(policy, start, s) && Enabled(s, e)
    ensures Inv(policy, start, Step(s, e))
  {
    if e.Replied? && !Good(e.reply) {
      DelayBounds(policy.minDelay, policy.maxDelay, s.backoff.attempt, e.draw);
    }
  }

  lemma {:induction false} RunKeepsInv(policy: Policy, start: nat, es: seq<Event>)
    requires start > 0 && Legal(policy, start, es)
    ensures Inv(policy, start, Run(policy, start, es))
  {
    if es != [] {
      RunKeepsInv(policy, start, es[..|es| - 1]);
      StepKeepsInv(policy, start, Run(policy, start, es[..|es| - 1]), es[|es| - 1]);
    }
  }

  /** On every run: at most `retries + 1` calls of the wrapped provider, and with a timeout no more calls than leave
      the waits before the last one within it. */
  lemma CallsAreBounded(policy: Policy, start: nat, es: seq<Event>)
    requires start > 0 && Legal(policy, start, es)
    ensures policy.retries.Some? ==> Run(policy, start, es).innerCalls <= policy.retries.value + 1
    ensures policy.timeout.Some? && Run(policy, start, es).innerCalls >= 2 ==>
              MinElapsed(policy.minDelay, policy.maxDelay, Run(policy, start, es).innerCalls - 2)
              <= policy.timeout.value
    ensures policy.timeout.Some? && Min(policy.minDelay, policy.maxDelay) > 0 ==>
              Run(policy, start, es).innerCalls
              <= policy.timeout.value / Min(policy.minDelay, policy.maxDelay) + 2
  {
    RunKeepsInv(policy, start, es);
    var calls := Run(policy, start, es).innerCalls;
    if policy.timeout.Some? && Min(policy.minDelay, policy.maxDelay) > 0 && calls >= 2 {
      var m := Min(policy.minDelay, policy.maxDelay);
      MinElapsedIsLinear(policy.minDelay, policy.maxDelay, m, calls - 2);
      QuotientBound(calls - 2, m, policy.timeout.value);
    }
  }

  /** The default policy (500 ms, 15 s, 60 s) never asks the wrapped provider more than nine times. */
  lemma DefaultPolicyCallsAtMostNineTimes(start: nat, es: seq<Event>)
    requires start > 0 && Legal(Policy(500, 15000, None, Some(60000)), start, es)
    ensures Run(Policy(500, 15000, None, Some(60000)), start, es).innerCalls <= 9
  {
    var policy := Policy(500, 15000, None, Some(60000));
    assert MinElapsed(policy.minDelay, policy.maxDelay, 4) == 7500;
    assert MinElapsed(policy.minDelay, policy.maxDelay, 8) == 60500;
    CallsAreBounded(policy, start, es);
    if Run(policy, start, es).innerCalls > 9 {
      MinElapsedMonotone(policy.minDelay, policy.maxDelay, 8, Run(policy, start, es).innerCalls - 2);
    }
  }

  /** On every run there is at most one report. It is a success exactly when some answer was good; then it carries
      that answer's hosts, and every earlier answer was bad. A failure carries the error of the last answer. */
  lemma {:induction false} ReportsFirstGoodAnswer(policy: Policy, start: nat, es: seq<Event>)
    requires Legal(policy, start, es)
    ensures var s, rs := Run(policy, start, es), Replies(es);
            && |s.reports| <= 1
            && (s.reports == [] <==> !s.phase.Over?)
            && (forall i :: 0 <= i < |rs| && Good(rs[i]) ==>
                  i == |rs| - 1 && s.reports == [Found(rs[i].hosts.value)])
            && (s.reports != [] && (rs == [] || !Good(rs[|rs| - 1])) ==>
                  rs != [] && s.reports[0].GaveUp? && s.reports[0].lastError == rs[|rs| - 1].err)
  {
    if es != [] {
      ReportsFirstGoodAnswer(policy, start, es[..|es| - 1]);
    }
  }

  // -------- what each answer leads to --------

  /** When the wrapped provider first answered. */
  function FirstAnswer(es: seq<Event>): Option<nat> {
    if es == [] then None
    else
      var before := FirstAnswer(es[..|es| - 1]);
      if before.None? && es[|es| - 1].Replied? then Some(es[|es| - 1].now) else before
  }

  lemma {:induction false} TriesAreCounted(policy: Policy, start: nat, es: seq<Event>)
    requires start > 0 && Legal(policy, start, es)
    ensures var s := Run(policy, start, es);
            && s.backoff.policy == policy
            && (!s.phase.Over? ==>
                  && |Replies(es)| == s.backoff.attempt + (if s.phase.Asking? then 0 else 1)
                  && s.backoff.firstTry == (if FirstAnswer(es).Some? then FirstAnswer(es).value else 0)
                  && (FirstAnswer(es).Some? <==> Replies(es) != []))
  {
    if es != [] {
      var init, e := es[..|es| - 1], es[|es| - 1];
      TriesAreCounted(policy, start, init);
      RunKeepsInv(policy, start, init);
    }
  }

  /** What an answer at this time leads to: hosts without an error, at least one, are reported; otherwise it gives up
      when there were as many answers before as retries are allowed, and else when more time than the timeout has passed
      since the first answer; and else it waits for one of the delays that are possible after as many attempts. */
  lemma AnswerDecides(policy: Policy, start: nat, es: seq<Event>, e: Event)
    requires start > 0 && Legal(policy, start, es) && e.Replied? && Enabled(Run(policy, start, es), e)
    ensures var t, n := Run(policy, start, es + [e]), |Replies(es)|;
            var first := if FirstAnswer(es).Some? then FirstAnswer(es).value else e.now;
            var found := e.reply.err == None && e.reply.hosts.Some? && |e.reply.hosts.value| > 0;
            var tooOften := policy.retries.Some? && n >= policy.retries.value;
            var tooLate := policy.timeout.Some? && e.now - first > policy.timeout.value;
            && (found <==> t.reports == [Found(if found then e.reply.hosts.value else [])])
            && (!found && tooOften <==> t.reports == [GaveUp(MaxRetriesReached, e.reply.err)])
            && (!found && !tooOften && tooLate <==> t.reports == [GaveUp(RetryTimedOut, e.reply.err)])
            && (t.phase.Sleeping? <==> !found && !tooOften && !tooLate)
            && (t.phase.Sleeping? ==> t.reports == [] && exists draw: Draw ::
                  t.phase.due == e.now + FuzzedDelay(policy.minDelay, policy.maxDelay, n, draw))
  {
    assert (es + [e])[..|es|] == es;
    TriesAreCounted(policy, start, es);
    ReportsFirstGoodAnswer(policy, start, es);
    RunKeepsInv(policy, start, es);
    assert forall r: Report :: [] + [r] == [r];
    if FirstAnswer(es).Some? {
      FirstAnswerIsLater(policy, start, es);
    }
  }

  /** The first answer does not come at time 0. */
  lemma {:induction false} FirstAnswerIsLater(policy: Policy, start: nat, es: seq<Event>)
    requires start > 0 && Legal(policy, start, es)
    ensures FirstAnswer(es).Some? ==> FirstAnswer(es).value > 0
  {
    if es != [] {
      var init := es[..|es| - 1];
      FirstAnswerIsLater(policy, start, init);
      RunKeepsInv(policy, start, init);
    }
  }

  // -------- a report is reached --------

  /** Answers and wake-ups take turns, so the number of calls gives the length of the run. */
  lemma {:induction false} CallsGiveLength(policy: Policy, start: nat, es: seq<Event>)
    requires Legal(policy, start, es)
    ensures var s := Run(policy, start, es);
            |es| == 2 * (s.innerCalls - 1) + (if s.phase.Asking? then 0 else 1)
  {
    if es != [] {
      CallsGiveLength(policy, start, es[..|es| - 1]);
    }
  }

  /** The largest number of calls that the policy's own bounds leave. */
  function MostCalls(policy: Policy): nat
    requires policy.retries.Some? || (policy.timeout.Some? && Min(policy.minDelay, policy.maxDelay) > 0)
  {
    if policy.retries.Some? then policy.retries.value + 1
    else policy.timeout.value / Min(policy.minDelay, policy.maxDelay) + 2
  }

  /** With a bound on the retries, or a timeout and delays that are not zero, every run reaches its one report: one
      without it can go on, but none is longer than two events for each of the calls that there can be. */
  lemma ReportIsReached(policy: Policy, start: nat, es: seq<Event>)
    requires start > 0 && Legal(policy, start, es)
    requires policy.retries.Some? || (policy.timeout.Some? && Min(policy.minDelay, policy.maxDelay) > 0)
    ensures |es| < 2 * MostCalls(policy)
    ensures |Run(policy, start, es).reports| == 1 <==> forall e :: !Legal(policy, start, es + [e])
  {
    CallsGiveLength(policy, start, es);
    CallsAreBounded(policy, start, es);
    ReportedWhenOver(policy, start, es);
  }

  lemma LegalSnoc(policy: Policy, start: nat, es: seq<Event>, e: Event)
    requires Legal(policy, start, es)
    ensures Legal(policy, start, es + [e]) <==> Enabled(Run(policy, start, es), e)
  {
    assert (es + [e])[..|es|] == es;
  }

  /** A run that cannot go on has reported, and the other way round. */
  lemma ReportedWhenOver(policy: Policy, start: nat, es: seq<Event>)
    requires Legal(policy, start, es)
    ensures |Run(policy, start, es).reports| == 1 <==> forall e :: !Legal(policy, start, es + [e])
  {
    ReportsFirstGoodAnswer(policy, start, es);
    var s := Run(policy, start, es);
    forall e ensures Legal(policy, start, es + [e]) <==> Enabled(s, e) {
      LegalSnoc(policy, start, es, e);
    }
    if !s.phase.Over? {
      var draw: Draw := 0.0;
      assert Enabled(s, Next(s, draw)) && Legal(policy, start, es + [Next(s, draw)]);
    }
  }

  /** And without either bound, a provider that never gives a good answer is asked for ever. */
  lemma {:induction false} UnboundedIsNeverReported(policy: Policy, start: nat, n: nat, draw: Draw)
    returns (es: seq<Event>)
    requires policy.retries.None? && policy.timeout.None?
    ensures |es| == n && Legal(policy, start, es) && Unreported(policy, Run(policy, start, es))
  {
    es := [];
    if n > 0 {
      var before := UnboundedIsNeverReported(policy, start, n - 1, draw);
      var e := Next(Run(policy, start, before), draw);
      es := before + [e];
      assert es[..|es| - 1] == before;
      StaysUnreported(policy, Run(policy, start, before), e);
    }
  }

  predicate Unreported(policy: Policy, s: Provider) {
    s.reports == [] && !s.phase.Over? && s.backoff.policy == policy
  }

  lemma StaysUnreported(policy: Policy, s: Provider, e: Event)
    requires policy.retries.None? && policy.timeout.None? && Unreported(policy, s) && Enabled(s, e)
    requires e.Replied? ==> !Good(e.reply)
    ensures Unreported(policy, Step(s, e))
  {
  }

  /** Something that can happen while there is no report. */
  function Next(s: Provider, draw: Draw): (e: Event)
    requires !s.phase.Over?
    ensures Enabled(s, e) && (e.Replied? ==> !Good(e.reply))
  {
    if s.phase.Asking? then Replied(Reply(None, None), s.clock, draw) else Woke(s.clock + s.phase.due)
  }

  /** The provider as the source runs it: one `Backoff` and the closure variables of the retrying function. */
  class RetryingProvider {
    const backoff: Backoff
    var lastError: Option<string>
    var innerCalls: nat
    var phase: Phase
    ghost var reports: seq<Report>
    ghost var clock: nat

    ghost function Abstract(): Provider
      reads this, backoff
    {
      Provider(backoff.Abstract(), phase, innerCalls, lastError, reports, clock)
    }

    constructor (minDelay: nat, maxDelay: nat, retries: Option<nat>, timeout: Option<nat>, now: nat)
      ensures fresh(backoff) && Abstract() == Start(Effective(minDelay, maxDelay, retries, timeout), now)
    {
      backoff := new Backoff(minDelay, maxDelay, retries, timeout);
      lastError, innerCalls, phase := None, 1, Asking;
      reports, clock := [], now;
    }

    method OnTry(reply: Reply, now: nat, draw: Draw)
      requires Enabled(Abstract(), Replied(reply, now, draw))
      modifies this, backoff
      ensures Abstract() == Step(old(Abstract()), Replied(reply, now, draw))
    {
      clock := now;
      if reply.err.None? && reply.hosts.Some? && |reply.hosts.value| > 0 {
        reports := reports + [Found(reply.hosts.value)];
        phase := Over;
        return;
      }
      lastError := reply.err;
      var verdict := backoff.Retry(now, draw);
      if verdict.WaitFor? {
        phase := Sleeping(now + verdict.delay);
      } else {
        reports := reports + [GaveUp(verdict, lastError)];
        phase := Over;
      }
    }

    method OnTimeout(now: nat)
      requires Enabled(Abstract(), Woke(now))
      modifies this, backoff
      ensures Abstract() == Step(old(Abstract()), Woke(now))
    {
      clock := now;
      backoff.OnTimeout();
      innerCalls := innerCalls + 1;
      phase := Asking;
    }
  }
}
