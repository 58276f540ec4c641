/** The damp-req fan-out of gossip/damper.js: an r-of-n quorum with early success and early failure. */
module DampFanout {
  import opened Basics

  datatype Score = Score(member: string, dampScore: int)

  /** One reply to a damp-req; a good one may come without a list of scores. A blank one has neither an error nor a body
      that can be parsed: the handler throws on it, after counting it. */
  datatype Reply =
    | Good(from: string, scores: Option<seq<Score>>)
    | Bad(from: string, error: string)
    | Blank(from: string)

  /** What the fan-out calls back with. */
  datatype Outcome = Quorum(results: seq<Reply>) | Unattainable(errors: seq<Reply>)

  datatype State = State(numPending: int, errors: seq<Reply>, results: seq<Reply>, open: bool, calls: seq<Outcome>)

  function Start(n: nat): State {
    State(n, [], [], true, [])
  }

  function Step(s: State, rVal: nat, reply: Reply): State {
    if !s.open then s
    else if reply.Blank? then s.(numPending := s.numPending - 1)
    else
      var t := s.(numPending := s.numPending - 1,
                  errors := if reply.Bad? then s.errors + [reply] else s.errors,
                  results := if reply.Good? then s.results + [reply] else s.results);
      if |t.results| >= rVal then t.(open := false, calls := t.calls + [Quorum(t.results)])
      else if t.numPending < rVal - |t.results| then t.(open := false, calls := t.calls + [Unattainable(t.errors)])
      else t
  }

  function Run(n: nat, rVal: nat, replies: seq<Reply>): State {
    if replies == [] then Start(n)
    else Step(Run(n, rVal, replies[..|replies| - 1]), rVal, replies[|replies| - 1])
  }

  function Goods(replies: seq<Reply>): seq<Reply> {
    Filter(replies, (r: Reply) => r.Good?)
  }

  function Bads(replies: seq<Reply>): seq<Reply> {
    Filter(replies, (r: Reply) => r.Bad?)
  }

  /** How many replies are not good. */
  function Misses(replies: seq<Reply>): nat {
    |Filter(replies, (r: Reply) => !r.Good?)|
  }

  /** Whether that many replies that are not good leave too few to reach the quorum. */
  predicate Lost(n: nat, rVal: nat, replies: seq<Reply>)
    requires 1 <= rVal <= n
  {
    Misses(replies) >= n - rVal + 1
  }

  /** The replies up to the last one that the handler does not throw on. */
  function Handled(replies: seq<Reply>): (handled: seq<Reply>)
    ensures handled <= replies
    ensures handled == [] || !handled[|handled| - 1].Blank?
    ensures forall i :: |handled| <= i < |replies| ==> replies[i].Blank?
  {
    if replies == [] || !replies[|replies| - 1].Blank? then replies else Handled(replies[..|replies| - 1])
  }

  predicate NoBlanks(replies: seq<Reply>) {
    forall i :: 0 <= i < |replies| ==> !replies[i].Blank?
  }

  /** The errors among the replies up to the first one handled at which the quorum is lost. */
  function FirstErrors(n: nat, rVal: nat, replies: seq<Reply>): (errors: seq<Reply>)
    requires 1 <= rVal <= n
  {
    if replies == [] then []
    else
      var init := replies[..|replies| - 1];
      if Lost(n, rVal, Handled(init)) then FirstErrors(n, rVal, init) else Bads(replies)
  }

  /** What the replies so far decide, read off their numbers. */
  function Decision(n: nat, rVal: nat, replies: seq<Reply>): seq<Outcome>
    requires 1 <= rVal <= n
  {
    if |Goods(replies)| >= rVal then [Quorum(Goods(replies)[..rVal])]
    else if Lost(n, rVal, Handled(replies)) then [Unattainable(FirstErrors(n, rVal, replies))]
    else []
  }

  lemma {:induction false} CountsAddUp(replies: seq<Reply>)
    ensures |Goods(replies)| + Misses(replies) == |replies|
    ensures NoBlanks(replies) ==> |Goods(replies)| + |Bads(replies)| == |replies|
  {
    if replies != [] {
      CountsAddUp(replies[..|replies| - 1]);
    }
  }

  lemma FirstOnesStay<T>(a: seq<T>, b: seq<T>, k: nat)
    requires a <= b && |b| <= |a| + 1
    ensures |a| >= k ==> b[..k] == a[..k]
    ensures |b| == k ==> b[..k] == b
  {
  }

  /** One reply more. */
  lemma CountsSnoc(init: seq<Reply>, last: Reply)
    ensures Goods(init + [last]) == Goods(init) + (if last.Good? then [last] else [])
    ensures Bads(init + [last]) == Bads(init) + (if last.Bad? then [last] else [])
    ensures Misses(init + [last]) == Misses(init) + (if last.Good? then 0 else 1)
    ensures Handled(init + [last]) == if last.Blank? then Handled(init) else init + [last]
  {
    assert (init + [last])[..|init|] == init;
  }

  lemma {:induction false} HandledMisses(replies: seq<Reply>)
    ensures Misses(Handled(replies)) <= Misses(replies) && Goods(Handled(replies)) == Goods(replies)
  {
    if replies != [] {
      var init, last := replies[..|replies| - 1], replies[|replies| - 1];
      HandledMisses(init);
      assert replies == init + [last];
      CountsSnoc(init, last);
    }
  }

  /** The state that the counts call for. */
  ghost predicate Matches(n: nat, rVal: nat, replies: seq<Reply>, s: State)
    requires 1 <= rVal <= n
  {
    && s.calls == Decision(n, rVal, replies)
    && (s.open <==> s.calls == [])
    && (s.open ==> s.numPending == n - |replies| && s.results == Goods(replies) && s.errors == Bads(replies))
  }

  /** What is decided stays decided. */
  lemma DecisionStays(n: nat, rVal: nat, init: seq<Reply>, last: Reply)
    requires 1 <= rVal <= n && |init| < n && Decision(n, rVal, init) != []
    ensures Decision(n, rVal, init + [last]) == Decision(n, rVal, init)
  {
    CountsSnoc(init, last);
    CountsAddUp(init + [last]);
    HandledMisses(init);
    assert (init + [last])[..|init|] == init;
    if |Goods(init)| >= rVal {
      FirstOnesStay(Goods(init), Goods(init + [last]), rVal);
    }
  }

  /** The decision of an open fan-out with one reply more. */
  lemma DecisionSnoc(n: nat, rVal: nat, init: seq<Reply>, last: Reply)
    requires 1 <= rVal <= n && |init| < n && Decision(n, rVal, init) == []
    ensures var all := init + [last];
            Decision(n, rVal, all) ==
            if last.Blank? then []
            else if |Goods(all)| >= rVal then [Quorum(Goods(all))]
            else if n - |all| < rVal - |Goods(all)| then [Unattainable(Bads(all))]
            else []
  {
    var all := init + [last];
    CountsSnoc(init, last);
    CountsAddUp(all);
    assert all[..|init|] == init;
    assert |Goods(all)| >= rVal ==> Goods(all)[..rVal] == Goods(all);
  }

  lemma StepMatches(n: nat, rVal: nat, init: seq<Reply>, last: Reply, s: State)
    requires 1 <= rVal <= n && |init| < n && Matches(n, rVal, init, s)
    ensures Matches(n, rVal, init + [last], Step(s, rVal, last))
  {
    CountsSnoc(init, last);
    if s.open {
      DecisionSnoc(n, rVal, init, last);
      assert Goods(init) + [] == Goods(init) && Bads(init) + [] == Bads(init);
      assert forall o :: s.calls + [o] == [o];
    } else {
      DecisionStays(n, rVal, init, last);
    }
  }

  lemma {:induction false} RunMatchesCounts(n: nat, rVal: nat, replies: seq<Reply>)
    requires 1 <= rVal <= n && |replies| <= n
    ensures Matches(n, rVal, replies, Run(n, rVal, replies))
  {
    if replies != [] {
      var init, last := replies[..|replies| - 1], replies[|replies| - 1];
      RunMatchesCounts(n, rVal, init);
      assert replies == init + [last];
      StepMatches(n, rVal, init, last, Run(n, rVal, init));
    }
  }

  /** Without blank replies, the quorum is lost at the n-rVal+1st error. */
  lemma {:induction false} FirstErrorsAre(n: nat, rVal: nat, replies: seq<Reply>)
    requires 1 <= rVal <= n && NoBlanks(replies)
    ensures Handled(replies) == replies && Misses(replies) == |Bads(replies)|
    ensures Lost(n, rVal, replies) ==> FirstErrors(n, rVal, replies) == Bads(replies)[..n - rVal + 1]
  {
    CountsAddUp(replies);
    if replies != [] {
      var init, last := replies[..|replies| - 1], replies[|replies| - 1];
      FirstErrorsAre(n, rVal, init);
      assert replies == init + [last];
      CountsSnoc(init, last);
      FirstOnesStay(Bads(init), Bads(replies), n - rVal + 1);
    }
  }

  /** For every interleaving of at most n replies, and so after every one of them: the callback has run with exactly the
      first rVal good replies if there are that many, and with the errors so far if those up to the last one that is not
      blank lose the quorum, and otherwise not at all; never both. Without blank replies these are the first n-rVal+1
      errors, and once every member has replied it has run exactly once. */
  lemma QuorumOutcome(n: nat, rVal: nat, replies: seq<Reply>)
    requires 1 <= rVal <= n && |replies| <= n
    ensures Run(n, rVal, replies).calls == Decision(n, rVal, replies)
    ensures |Goods(replies)| >= rVal ==> !Lost(n, rVal, Handled(replies))
    ensures NoBlanks(replies) ==> (Lost(n, rVal, Handled(replies)) <==> |Bads(replies)| >= n - rVal + 1)
    ensures NoBlanks(replies) && |Bads(replies)| >= n - rVal + 1 ==>
              Run(n, rVal, replies).calls == [Unattainable(Bads(replies)[..n - rVal + 1])]
    ensures NoBlanks(replies) && |replies| == n ==> |Run(n, rVal, replies).calls| == 1
  {
    RunMatchesCounts(n, rVal, replies);
    HandledMisses(replies);
    CountsAddUp(replies);
    if NoBlanks(replies) {
      FirstErrorsAre(n, rVal, replies);
    }
  }

  /** Once every member has replied, the callback has not run exactly when there are fewer than rVal good replies and
      the blank ones at the end leave the quorum open until then. */
  lemma NeverCalledBackIff(n: nat, rVal: nat, replies: seq<Reply>)
    requires 1 <= rVal <= n && |replies| == n
    ensures Run(n, rVal, replies).calls == [] <==> |Goods(replies)| < rVal && Misses(Handled(replies)) <= n - rVal
    ensures Run(n, rVal, replies).calls == [] ==> replies[n - 1].Blank?
  {
    QuorumOutcome(n, rVal, replies);
    CountsAddUp(replies);
    assert !replies[n - 1].Blank? ==> Handled(replies) == replies;
  }

  /** The run that shows it: the only member asked gives a blank reply. */
  lemma BlankReplyIsNotReported(r: Reply)
    requires r.Blank?
    ensures Run(1, 1, [r]).calls == [] && Run(1, 1, [r]).numPending == 0
  {
    assert [r][..0] == [];
  }

  /** The reply that decides: the rVal-th good one, or the first that is handled once the quorum is lost, which without
      blank replies is the n-rVal+1st error. */
  lemma DecidedAtOnce(n: nat, rVal: nat, replies: seq<Reply>)
    requires 1 <= rVal <= n && 0 < |replies| <= n
    ensures var init, last := replies[..|replies| - 1], replies[|replies| - 1];
            Run(n, rVal, init).calls == [] && Run(n, rVal, replies).calls != [] <==>
              (last.Good? && |Goods(replies)| == rVal && !Lost(n, rVal, Handled(init))) ||
              (!last.Blank? && |Goods(replies)| < rVal && Lost(n, rVal, replies) && !Lost(n, rVal, Handled(init)))
    ensures NoBlanks(replies) ==>
              var before, after := Run(n, rVal, replies[..|replies| - 1]), Run(n, rVal, replies);
              before.calls == [] && after.calls != [] <==>
                (replies[|replies| - 1].Good? && |Goods(replies)| == rVal && |Bads(replies)| <= n - rVal) ||
                (replies[|replies| - 1].Bad? && |Bads(replies)| == n - rVal + 1 && |Goods(replies)| < rVal)
  {
    var init, last := replies[..|replies| - 1], replies[|replies| - 1];
    assert replies == init + [last];
    CountsSnoc(init, last);
    QuorumOutcome(n, rVal, replies);
    QuorumOutcome(n, rVal, init);
    HandledMisses(init);
    CountsAddUp(replies);
    if NoBlanks(replies) {
      FirstErrorsAre(n, rVal, replies);
      FirstErrorsAre(n, rVal, init);
    }
  }

  lemma SameCounts(a: seq<Reply>, b: seq<Reply>)
    requires multiset(a) == multiset(b)
    ensures |a| == |b| && |Goods(a)| == |Goods(b)| && (NoBlanks(a) ==> NoBlanks(b))
  {
    assert |a| == |multiset(a)| == |multiset(b)| == |b|;
    assert multiset(Goods(a)) == multiset(Goods(b)) by {
      forall x: Reply ensures multiset(Goods(a))[x] == multiset(Goods(b))[x] {
        FilterCount(a, (r: Reply) => r.Good?, x);
        FilterCount(b, (r: Reply) => r.Good?, x);
      }
    }
    assert |Goods(a)| == |multiset(Goods(a))| == |multiset(Goods(b))| == |Goods(b)|;
    forall i | 0 <= i < |b| && NoBlanks(a) ensures !b[i].Blank? {
      assert b[i] in multiset(b) && b[i] in multiset(a) && b[i] in a;
    }
  }

  /** Whether the quorum is reached does not depend on the order of the replies; nor, without blank replies, does
      anything about which side wins. */
  lemma OrderIrrelevant(n: nat, rVal: nat, a: seq<Reply>, b: seq<Reply>)
    requires 1 <= rVal <= n && |a| <= n && multiset(a) == multiset(b)
    ensures var x, y := Run(n, rVal, a).calls, Run(n, rVal, b).calls;
            && (x != [] && x[0].Quorum? <==> y != [] && y[0].Quorum?)
            && (NoBlanks(a) ==> |x| == |y| && (x != [] ==> (x[0].Quorum? <==> y[0].Quorum?)))
  {
    SameCounts(a, b);
    QuorumOutcome(n, rVal, a);
    QuorumOutcome(n, rVal, b);
    CountsAddUp(a);
    CountsAddUp(b);
  }

  /** The variables that the reply handlers of one fan-out share. */
  class Fanout {
    const rVal: nat
    var numPendingReqs: int
    var errors: seq<Reply>
    var results: seq<Reply>
    var hasCallback: bool
    ghost var calls: seq<Outcome>

    ghost function Abstract(): State
      reads this
    {
      State(numPendingReqs, errors, results, hasCallback, calls)
    }

    constructor (numMembers: nat, rVal: nat)
      ensures Abstract() == Start(numMembers) && this.rVal == rVal
    {
      this.rVal := rVal;
      numPendingReqs, errors, results := numMembers, [], [];
      hasCallback, calls := true, [];
    }

    /** Handles one reply; `outcome` is what the callback was run with, if it was. On a blank reply the handler ends
        early, by throwing. */
    method OnDampReq(reply: Reply) returns (outcome: Option<Outcome>)
      modifies this
      ensures Abstract() == Step(old(Abstract()), rVal, reply)
      ensures calls == old(calls) + (if outcome.Some? then [outcome.value] else [])
    {
      if !hasCallback {
        return None;
      }
      numPendingReqs := numPendingReqs - 1;
      if reply.Blank? {
        return None;
      }
      if reply.Bad? {
        errors := errors + [reply];
      } else {
        results := results + [reply];
      }
      if |results| >= rVal {
        outcome := Some(Quorum(results));
        calls := calls + [Quorum(results)];
        hasCallback := false;
      } else if numPendingReqs < rVal - |results| {
        outcome := Some(Unattainable(errors));
        calls := calls + [Unattainable(errors)];
        hasCallback := false;
      } else {
        outcome := None;
      }
    }
  }
}
