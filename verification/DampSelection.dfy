/** Which flappers a finished fan-out damps: `getMembersToDamp` of gossip/damper.js and its two helpers. */
module DampSelection {
  import opened Basics
  import opened DampFanout

  /** The scores that one response gives for `member`. */
  function ScoresIn(scores: seq<Score>, member: string): seq<int> {
    if scores == [] then []
    else
      var last := scores[|scores| - 1];
      ScoresIn(scores[..|scores| - 1], member) + (if last.member == member then [last.dampScore] else [])
  }

  /** The scores in one response, none when it has no list of scores. */
  function Listed(r: Reply): seq<Score> {
    if r.Good? && r.scores.Some? then r.scores.value else []
  }

  /** All the scores given for `member`, response by response. */
  function ScoresOf(responses: seq<Reply>, member: string): seq<int> {
    if responses == [] then []
    else ScoresOf(responses[..|responses| - 1], member) + ScoresIn(Listed(responses[|responses| - 1]), member)
  }

  predicate AllOver(scores: seq<int>, suppressLimit: int) {
    forall i :: 0 <= i < |scores| ==> scores[i] >= suppressLimit
  }

  lemma AllOverAppend(a: seq<int>, b: seq<int>, suppressLimit: int)
    ensures AllOver(a + b, suppressLimit) <==> AllOver(a, suppressLimit) && AllOver(b, suppressLimit)
  {
    if AllOver(a + b, suppressLimit) {
      forall i | 0 <= i < |a| ensures a[i] >= suppressLimit {
        assert (a + b)[i] == a[i];
      }
      forall i | 0 <= i < |b| ensures b[i] >= suppressLimit {
        assert (a + b)[|a| + i] == b[i];
      }
    }
  }

  /** The damp decision, read off the scores alone. */
  predicate ShouldDamp(responses: seq<Reply>, rVal: nat, suppressLimit: int, member: string) {
    var scores := ScoresOf(responses, member);
    scores != [] && |scores| >= rVal && AllOver(scores, suppressLimit)
  }

  // -------- the source's loops --------

  function Collected(responses: seq<Reply>, partial: seq<Score>, member: string): seq<int> {
    ScoresOf(responses, member) + ScoresIn(partial, member)
  }

  /** `keys` and `groups` are the object that maps every scored member to its scores, with its keys in insertion
      order. */
  ghost predicate GroupsMatch(keys: seq<string>, groups: map<string, seq<int>>, responses: seq<Reply>,
                              partial: seq<Score>) {
    && NoDup(keys)
    && (forall m :: m in keys <==> m in groups)
    && (forall m :: m in groups ==> groups[m] == Collected(responses, partial, m))
    && (forall m :: m !in groups ==> Collected(responses, partial, m) == [])
    && (forall m :: m in groups ==> groups[m] != [])
  }

  method GroupDampScoresByFlapper(allResponses: seq<Reply>) returns (keys: seq<string>, groups: map<string, seq<int>>)
    ensures GroupsMatch(keys, groups, allResponses, [])
  {
    keys, groups := [], map[];
    for i := 0 to |allResponses|
      invariant GroupsMatch(keys, groups, allResponses[..i], [])
    {
      keys, groups := AddResponse(keys, groups, allResponses[..i], allResponses[i]);
      assert allResponses[..i + 1][..i] == allResponses[..i];
      NextResponse(keys, groups, allResponses[..i + 1]);
    }
    assert allResponses[..|allResponses|] == allResponses;
  }

  lemma NextResponse(keys: seq<string>, groups: map<string, seq<int>>, responses: seq<Reply>)
    requires responses != []
    requires GroupsMatch(keys, groups, responses[..|responses| - 1], Listed(responses[|responses| - 1]))
    ensures GroupsMatch(keys, groups, responses, [])
  {
    forall m
      ensures Collected(responses, [], m)
              == Collected(responses[..|responses| - 1], Listed(responses[|responses| - 1]), m)
    {
    }
  }

  method AddResponse(keys0: seq<string>, groups0: map<string, seq<int>>, ghost before: seq<Reply>, response: Reply)
    returns (keys: seq<string>, groups: map<string, seq<int>>)
    requires GroupsMatch(keys0, groups0, before, [])
    ensures GroupsMatch(keys, groups, before, Listed(response))
  {
    keys, groups := keys0, groups0;
    if !response.Good? || response.scores.None? {
      return;
    }
    keys, groups := PushScores(keys, groups, before, response.scores.value);
  }

  method PushScores(keys0: seq<string>, groups0: map<string, seq<int>>, ghost before: seq<Reply>,
                    responseScores: seq<Score>)
    returns (keys: seq<string>, groups: map<string, seq<int>>)
    requires GroupsMatch(keys0, groups0, before, [])
    ensures GroupsMatch(keys, groups, before, responseScores)
  {
    keys, groups := keys0, groups0;
    assert responseScores[..0] == [];
    for j := 0 to |responseScores|
      invariant GroupsMatch(keys, groups, before, responseScores[..j])
    {
      assert responseScores[..j + 1] == responseScores[..j] + [responseScores[j]];
      keys, groups := PushScore(keys, groups, before, responseScores[..j], responseScores[j]);
    }
    assert responseScores[..|responseScores|] == responseScores;
  }

  method PushScore(keys0: seq<string>, groups0: map<string, seq<int>>, ghost before: seq<Reply>,
                   ghost partial: seq<Score>, score: Score)
    returns (keys: seq<string>, groups: map<string, seq<int>>)
    requires GroupsMatch(keys0, groups0, before, partial)
    ensures GroupsMatch(keys, groups, before, partial + [score])
  {
    CollectedGrows(before, partial, score);
    if score.member !in groups0 {
      keys := keys0 + [score.member];
      groups := groups0[score.member := [score.dampScore]];
    } else {
      keys := keys0;
      groups := groups0[score.member := groups0[score.member] + [score.dampScore]];
    }
  }

  lemma CollectedGrows(before: seq<Reply>, partial: seq<Score>, score: Score)
    ensures forall m :: m != score.member ==>
              Collected(before, partial + [score], m) == Collected(before, partial, m)
    ensures Collected(before, partial + [score], score.member)
            == Collected(before, partial, score.member) + [score.dampScore]
  {
    assert (partial + [score])[..|partial|] == partial;
  }

  method FindFlappersToDamp(keys: seq<string>, groups: map<string, seq<int>>, rVal: nat, suppressLimit: int)
    returns (membersToDamp: seq<string>)
    requires NoDup(keys) && forall m :: m in keys ==> m in groups
    ensures NoDup(membersToDamp)
    ensures forall m :: m in membersToDamp <==>
              m in keys && |groups[m]| >= rVal && AllOver(groups[m], suppressLimit)
  {
    membersToDamp := [];
    for i := 0 to |keys|
      invariant NoDup(membersToDamp)
      invariant forall m :: m in membersToDamp <==>
        m in keys[..i] && |groups[m]| >= rVal && AllOver(groups[m], suppressLimit)
    {
      var scores := groups[keys[i]];
      var exceeded := HaveAllScoresExceededLimit(scores, suppressLimit);
      if |scores| >= rVal && exceeded {
        membersToDamp := membersToDamp + [keys[i]];
      }
      assert keys[..i + 1] == keys[..i] + [keys[i]];
    }
    assert keys[..|keys|] == keys;
  }

  method HaveAllScoresExceededLimit(scores: seq<int>, suppressLimit: int) returns (all: bool)
    ensures all <==> AllOver(scores, suppressLimit)
  {
    for i := 0 to |scores|
      invariant forall k :: 0 <= k < i ==> scores[k] >= suppressLimit
    {
      if scores[i] < suppressLimit {
        return false;
      }
    }
    return true;
  }

  /** The list of members to damp has no repetition and holds exactly those that `ShouldDamp`. */
  method GetMembersToDamp(allResponses: seq<Reply>, rVal: nat, suppressLimit: int) returns (membersToDamp: seq<string>)
    ensures NoDup(membersToDamp)
    ensures forall m :: m in membersToDamp <==> ShouldDamp(allResponses, rVal, suppressLimit, m)
  {
    var keys, groups := GroupDampScoresByFlapper(allResponses);
    membersToDamp := FindFlappersToDamp(keys, groups, rVal, suppressLimit);
    forall m
      ensures m in membersToDamp <==> ShouldDamp(allResponses, rVal, suppressLimit, m)
    {
      assert Collected(allResponses, [], m) == ScoresOf(allResponses, m);
    }
  }

  // -------- what the decision means --------

  lemma {:induction false} ScoresOfAppend(a: seq<Reply>, b: seq<Reply>, member: string)
    ensures ScoresOf(a + b, member) == ScoresOf(a, member) + ScoresOf(b, member)
  {
    if b == [] {
      assert a + b == a;
    } else {
      var last := b[|b| - 1];
      ScoresOfAppend(a, b[..|b| - 1], member);
      AppendInit(a, b);
      Associates(ScoresOf(a, member), ScoresOf(b[..|b| - 1], member), ScoresIn(Listed(last), member));
    }
  }

  lemma Associates(a: seq<int>, b: seq<int>, c: seq<int>)
    ensures (a + b) + c == a + (b + c)
  {
  }

  lemma ScoresAround(left: seq<Reply>, r: Reply, right: seq<Reply>, member: string)
    ensures multiset(ScoresOf(left + [r] + right, member))
            == multiset(ScoresOf(left + right, member)) + multiset(ScoresIn(Listed(r), member))
  {
    ScoresOfAppend(left, right, member);
    ScoresOfAppend(left + [r], right, member);
    assert (left + [r])[..|left|] == left;
  }

  lemma Locate(a: seq<Reply>, b: seq<Reply>) returns (left: seq<Reply>, right: seq<Reply>)
    requires a != [] && multiset(a) == multiset(b)
    ensures b == left + [a[|a| - 1]] + right && multiset(a[..|a| - 1]) == multiset(left + right)
  {
    var last := a[|a| - 1];
    assert last in multiset(b);
    var k :| 0 <= k < |b| && b[k] == last;
    left, right := b[..k], b[k + 1..];
    assert b == left + [last] + right;
    assert a == a[..|a| - 1] + [last];
    OneFewer(multiset(a[..|a| - 1]), multiset(left + right), last, multiset(b));
  }

  lemma OneFewer(a: multiset<Reply>, b: multiset<Reply>, r: Reply, whole: multiset<Reply>)
    requires a + multiset{r} == whole && b + multiset{r} == whole
    ensures a == b
  {
    assert a == whole - multiset{r} && b == whole - multiset{r};
  }

  /** The same responses in another order give the same scores for every member, up to order. */
  lemma {:induction false} ScoresKeepUnderReordering(a: seq<Reply>, b: seq<Reply>, member: string)
    requires multiset(a) == multiset(b)
    ensures multiset(ScoresOf(a, member)) == multiset(ScoresOf(b, member))
    decreases |a|
  {
    if a == [] {
      assert |b| == |multiset(b)| == 0;
    } else {
      var init, last := a[..|a| - 1], a[|a| - 1];
      var left, right := Locate(a, b);
      ScoresKeepUnderReordering(init, left + right, member);
      ScoresAround(left, last, right, member);
    }
  }

  /** Which members are damped does not depend on the order of the responses. */
  lemma DecisionIgnoresOrder(a: seq<Reply>, b: seq<Reply>, rVal: nat, suppressLimit: int, member: string)
    requires multiset(a) == multiset(b)
    ensures ShouldDamp(a, rVal, suppressLimit, member) <==> ShouldDamp(b, rVal, suppressLimit, member)
  {
    ScoresKeepUnderReordering(a, b, member);
    SameMultisetSameVerdict(ScoresOf(a, member), ScoresOf(b, member), suppressLimit);
  }

  lemma SameMultisetSameVerdict(s: seq<int>, t: seq<int>, limit: int)
    requires multiset(s) == multiset(t)
    ensures |s| == |t|
    ensures AllOver(s, limit) <==> AllOver(t, limit)
  {
    assert |s| == |multiset(s)| == |multiset(t)| == |t|;
    forall i | 0 <= i < |s| ensures s[i] in t {
      assert s[i] in multiset(t);
    }
    forall i | 0 <= i < |t| ensures t[i] in s {
      assert t[i] in multiset(s);
    }
  }

  /** The reply is a good one whose list gives that member that score. */
  predicate Reports(r: Reply, member: string, score: int) {
    r.Good? && r.scores.Some? && Score(member, score) in r.scores.value
  }

  /** A responder that gives at most one score for each member. */
  ghost predicate OneScoreEach(r: Reply, member: string) {
    r.Good? && r.scores.Some? ==>
      forall i, j :: 0 <= i < j < |r.scores.value| ==>
        r.scores.value[i].member != member || r.scores.value[j].member != member
  }

  /** It reports the member at or over the limit. */
  ghost predicate OverLimit(r: Reply, suppressLimit: int, member: string) {
    exists score :: Reports(r, member, score) && score >= suppressLimit
  }

  lemma {:induction false} ScoresInMembers(scores: seq<Score>, member: string)
    ensures forall x :: x in ScoresIn(scores, member) <==> Score(member, x) in scores
    ensures (forall i :: 0 <= i < |scores| ==> scores[i].member != member) ==> ScoresIn(scores, member) == []
    ensures (forall i, j :: 0 <= i < j < |scores| ==> scores[i].member != member || scores[j].member != member) ==>
              |ScoresIn(scores, member)| <= 1
  {
    if scores != [] {
      var init, last := scores[..|scores| - 1], scores[|scores| - 1];
      ScoresInMembers(init, member);
      assert scores == init + [last];
      assert forall i :: 0 <= i < |init| ==> init[i] == scores[i];
    }
  }

  /** The scores of one reply that gives at most one for the member. */
  lemma OneScore(r: Reply, suppressLimit: int, member: string)
    requires OneScoreEach(r, member)
    ensures |ScoresIn(Listed(r), member)| <= 1
    ensures OverLimit(r, suppressLimit, member) <==>
            |ScoresIn(Listed(r), member)| == 1 && AllOver(ScoresIn(Listed(r), member), suppressLimit)
  {
    var scores := ScoresIn(Listed(r), member);
    ScoresInMembers(Listed(r), member);
    if score :| Reports(r, member, score) && score >= suppressLimit {
      assert score in scores;
    }
    if |scores| == 1 && AllOver(scores, suppressLimit) {
      assert scores[0] in scores;
      assert Reports(r, member, scores[0]);
    }
  }

  ghost predicate SomebodyReports(responses: seq<Reply>, member: string, score: int) {
    exists i :: 0 <= i < |responses| && Reports(responses[i], member, score)
  }

  lemma OneReplyMore(init: seq<Reply>, last: Reply, member: string, score: int)
    ensures SomebodyReports(init + [last], member, score) <==>
            SomebodyReports(init, member, score) || Reports(last, member, score)
  {
    var all := init + [last];
    if i :| 0 <= i < |init| && Reports(init[i], member, score) {
      assert Reports(all[i], member, score);
    }
    if Reports(last, member, score) {
      assert Reports(all[|init|], member, score);
    }
  }

  /** Over all the replies, a member has a score if and only if some reply reports it. */
  lemma {:induction false} ScoresAreReported(responses: seq<Reply>, member: string, score: int)
    ensures score in ScoresOf(responses, member) <==> SomebodyReports(responses, member, score)
  {
    if responses != [] {
      var init, last := responses[..|responses| - 1], responses[|responses| - 1];
      ScoresAreReported(init, member, score);
      ScoresOfOne(last, member, score);
      OneReplyMore(init, last, member, score);
      assert responses == init + [last];
    }
  }

  lemma ScoresOfOne(r: Reply, member: string, score: int)
    ensures score in ScoresIn(Listed(r), member) <==> Reports(r, member, score)
  {
    ScoresInMembers(Listed(r), member);
  }

  /** A member is damped if and only if it has a score at all, enough of them, and no reply gives it one below the
      limit. */
  lemma DampedIff(responses: seq<Reply>, rVal: nat, suppressLimit: int, member: string)
    ensures ShouldDamp(responses, rVal, suppressLimit, member) <==>
            && (exists score :: SomebodyReports(responses, member, score))
            && |ScoresOf(responses, member)| >= rVal
            && (forall score :: SomebodyReports(responses, member, score) ==> score >= suppressLimit)
  {
    var scores := ScoresOf(responses, member);
    forall score ensures score in scores <==> SomebodyReports(responses, member, score) {
      ScoresAreReported(responses, member, score);
    }
    AllOverMembers(scores, suppressLimit);
    if scores != [] {
      assert SomebodyReports(responses, member, scores[0]);
    }
  }

  lemma AllOverMembers(scores: seq<int>, suppressLimit: int)
    ensures AllOver(scores, suppressLimit) <==> forall score :: score in scores ==> score >= suppressLimit
  {
    if forall score :: score in scores ==> score >= suppressLimit {
      forall i | 0 <= i < |scores| ensures scores[i] >= suppressLimit {
        assert scores[i] in scores;
      }
    }
  }

  /** How many responses report the member at or over the limit. */
  ghost function HowManyOver(responses: seq<Reply>, suppressLimit: int, member: string): nat {
    if responses == [] then 0
    else
      HowManyOver(responses[..|responses| - 1], suppressLimit, member) +
      if OverLimit(responses[|responses| - 1], suppressLimit, member) then 1 else 0
  }

  /** However many responses there are, a damped member was reported at or over the limit by at least rVal of them. */
  lemma {:induction false} DampedHasQuorum(responses: seq<Reply>, suppressLimit: int, member: string)
    requires forall i :: 0 <= i < |responses| ==> OneScoreEach(responses[i], member)
    requires AllOver(ScoresOf(responses, member), suppressLimit)
    ensures |ScoresOf(responses, member)| == HowManyOver(responses, suppressLimit, member)
  {
    if responses != [] {
      var init, last := responses[..|responses| - 1], responses[|responses| - 1];
      AllOverAppend(ScoresOf(init, member), ScoresIn(Listed(last), member), suppressLimit);
      DampedHasQuorum(init, suppressLimit, member);
      OneScore(last, suppressLimit, member);
    }
  }

  lemma SplitVerdict(before: seq<int>, here: seq<int>, n: nat, suppressLimit: int)
    requires |before| <= n && |here| <= 1
    ensures |before + here| == n + 1 && AllOver(before + here, suppressLimit)
            <==> (|before| == n && AllOver(before, suppressLimit)) && (|here| == 1 && AllOver(here, suppressLimit))
  {
    AllOverAppend(before, here, suppressLimit);
  }

  ghost predicate EveryOneOver(responses: seq<Reply>, suppressLimit: int, member: string) {
    forall i :: 0 <= i < |responses| ==> OverLimit(responses[i], suppressLimit, member)
  }

  lemma EveryOneOverSnoc(responses: seq<Reply>, suppressLimit: int, member: string)
    requires responses != []
    ensures EveryOneOver(responses, suppressLimit, member) <==>
            EveryOneOver(responses[..|responses| - 1], suppressLimit, member)
            && OverLimit(responses[|responses| - 1], suppressLimit, member)
  {
    var init := responses[..|responses| - 1];
    if EveryOneOver(responses, suppressLimit, member) {
      forall i | 0 <= i < |init| ensures OverLimit(init[i], suppressLimit, member) {
        assert init[i] == responses[i];
      }
    }
    if EveryOneOver(init, suppressLimit, member) && OverLimit(responses[|init|], suppressLimit, member) {
      forall i | 0 <= i < |responses| ensures OverLimit(responses[i], suppressLimit, member) {
        if i < |init| {
          assert init[i] == responses[i];
        }
      }
    }
  }

  lemma {:induction false} EveryResponseOverLimit(responses: seq<Reply>, suppressLimit: int, member: string)
    requires forall i :: 0 <= i < |responses| ==> OneScoreEach(responses[i], member)
    ensures |ScoresOf(responses, member)| <= |responses|
    ensures |ScoresOf(responses, member)| == |responses| && AllOver(ScoresOf(responses, member), suppressLimit)
            <==> EveryOneOver(responses, suppressLimit, member)
  {
    if responses != [] {
      var init, last := responses[..|responses| - 1], responses[|responses| - 1];
      EveryResponseOverLimit(init, suppressLimit, member);
      OneScore(last, suppressLimit, member);
      SplitVerdict(ScoresOf(init, member), ScoresIn(Listed(last), member), |init|, suppressLimit);
      EveryOneOverSnoc(responses, suppressLimit, member);
    }
  }

  /** From any replies of at most n distinct members to the damp decision: if the fan-out reaches its quorum, a member
      is damped exactly when every one of the first rVal good replies reports it at or over the limit. */
  lemma DampedOnlyByQuorum(n: nat, rVal: nat, replies: seq<Reply>, suppressLimit: int, member: string)
    requires 1 <= rVal <= n && |replies| <= n
    requires Run(n, rVal, replies).calls != [] && Run(n, rVal, replies).calls[0].Quorum?
    requires forall i :: 0 <= i < |replies| ==> OneScoreEach(replies[i], member)
    ensures var results := Run(n, rVal, replies).calls[0].results;
            && |results| == rVal
            && results <= Goods(replies)
            && (ShouldDamp(results, rVal, suppressLimit, member) <==>
                EveryOneOver(results, suppressLimit, member))
  {
    QuorumOutcome(n, rVal, replies);
    var results := Run(n, rVal, replies).calls[0].results;
    FilterMember(replies, (r: Reply) => r.Good?);
    forall i | 0 <= i < |results| ensures OneScoreEach(results[i], member) {
      assert results[i] in Goods(replies);
    }
    EveryResponseOverLimit(results, suppressLimit, member);
  }
}
