/** The join of gossip/joiner.js: groups of requests in parallel until `joinSize` nodes joined, with retries after a
    delay. */
module Joining {
  import opened Basics
  import opened Delays
  import opened JoinRounds

  /** A join response, tagged with the node it came from. */
  datatype Response = Response(from: string, membership: string)

  /** What a join request brings back; a reply may come without a body. */
  datatype Reply = Failed | Joined(body: Option<string>)

  datatype Outcome = Aborted | Alone | DurationExceeded | Complete(joined: seq<string>, merged: seq<Response>)

  /** How `join` is called: whether ringpop is destroyed by then, and the draws of the first group. */
  datatype Opening = Opening(destroyed: bool, draws: Draws)

  /** `group` is the group in progress and `answered` the positions in it that have replied; `successes` and `failures`
      are that group's lists. `responses` is null once merged, and `tick` is a callback left to the next tick. `tried`
      logs the nodes asked in the current round, and `roundNodes` what that round began with; `delays` logs the delays
      and `troubles` counts the trouble errors. */
  datatype State = State(rounds: Rounds, joined: seq<string>, group: seq<string>, answered: set<nat>,
                         successes: seq<string>, failures: seq<string>, groupDone: bool, waiting: bool,
                         responses: Option<seq<Response>>, retries: nat, joinDelay: nat,
                         outcomes: seq<Outcome>, tick: Option<Outcome>,
                         roundNodes: seq<string>, tried: seq<string>, delays: seq<nat>, troubles: nat)

  /** `Replied` carries the time since the join started, by the clock on the wall, which may be set; whether ringpop was
      destroyed; and the draw for the delay. */
  datatype Event =
    | Replied(i: nat, reply: Reply, elapsed: int, destroyed: bool, draw: Draw)
    | Retry(draws: Draws)
    | Tick

  function NextGroup(c: Config, s: State, draws: Draws): State {
    WithGroup(InRound(c, s), SelectGroup(c, s.rounds, s.joined, draws))
  }

  /** Notes that a new round begins when the last one is exhausted. */
  function InRound(c: Config, s: State): State {
    if Left(s.rounds) == [] then s.(roundNodes := Potential(c, s.joined), tried := []) else s
  }

  function WithGroup(s: State, sel: Selection): State {
    s.(rounds := sel.rounds, group := sel.group, answered := {}, successes := [], failures := [],
       groupDone := false, waiting := false, tried := s.tried + sel.group)
  }

  /** A joiner before its first group. */
  function Idle(c: Config): State {
    State(Rounds([], []), [], [], {}, [], [], true, false, Some([]), 0, c.delayMin, [], None, [], [], [], 0)
  }

  /** The join goes ahead unless ringpop is destroyed or this node is the only one to join. */
  predicate Starts(c: Config, first: Opening) {
    !first.destroyed && c.bootstrap != [c.self]
  }

  /** A call of `join`: it leaves its callback to the next tick, or selects the first group. */
  function Begin(c: Config, first: Opening): State {
    if Starts(c, first) then NextGroup(c, Idle(c), first.draws)
    else Idle(c).(tick := Some(if first.destroyed then Aborted else Alone))
  }

  /** The callback of a finished group. */
  function OnGroup(c: Config, s: State, elapsed: int, destroyed: bool, draw: Draw): State {
    if s.outcomes != [] then s
    else if destroyed then s.(outcomes := [Aborted])
    else
      var joined := s.joined + s.successes;
      if |joined| >= JoinSize(c) then
        s.(joined := joined, responses := None,
           outcomes := [Complete(joined, if s.responses.Some? then s.responses.value else [])])
      else if elapsed > c.maxJoinDuration then s.(joined := joined, outcomes := [DurationExceeded])
      else
        WaitFor(c, s.(joined := joined), FuzzedDelay(c.delayMin, c.delayMax, s.retries, draw))
  }

  function WaitFor(c: Config, s: State, delay: nat): State {
    s.(joinDelay := delay, delays := s.delays + [delay], waiting := true,
       troubles := s.troubles +
                   if c.troubleErrorEnabled && s.joinDelay < c.delayMax && delay >= c.delayMax then 1 else 0)
  }

  /** The bookkeeping of one reply: the response is kept while responses are collected, the node is listed while the
      group is not finished. */
  function Noted(s: State, i: nat, reply: Reply): State
    requires i < |s.group|
  {
    var node := s.group[i];
    var t := s.(answered := s.answered + {i},
                responses := if reply.Joined? && reply.body.Some? && s.responses.Some?
                             then Some(s.responses.value + [Response(node, reply.body.value)]) else s.responses);
    if s.groupDone then t
    else if reply.Failed? then t.(failures := s.failures + [node])
    else t.(successes := s.successes + [node])
  }

  predicate GroupFinished(c: Config, s: State) {
    |s.successes| >= JoinSize(c) - |s.joined| || |s.successes| + |s.failures| >= |s.group|
  }

  /** Each request is answered once, and a retry happens when its timer fires. */
  predicate Enabled(s: State, e: Event) {
    match e
    case Replied(i, _, _, _, _) => i < |s.group| && i !in s.answered
    case Retry(_) => s.waiting
    case Tick => s.tick.Some?
  }

  function Step(c: Config, s: State, e: Event): State {
    if !Enabled(s, e) then s
    else
    match e
    case Replied(i, reply, elapsed, destroyed, draw) =>
      var t := Noted(s, i, reply);
      if !s.groupDone && GroupFinished(c, t) then OnGroup(c, t.(groupDone := true), elapsed, destroyed, draw) else t
    case Retry(draws) => NextGroup(c, s.(retries := s.retries + 1), draws)
    case Tick => s.(outcomes := s.outcomes + [s.tick.value], tick := None)
  }

  ghost predicate Legal(c: Config, first: Opening, es: seq<Event>) {
    es == [] || (Legal(c, first, es[..|es| - 1]) && Enabled(Run(c, first, es[..|es| - 1]), es[|es| - 1]))
  }

  ghost function Run(c: Config, first: Opening, es: seq<Event>): State {
    if es == [] then Begin(c, first) else Step(c, Run(c, first, es[..|es| - 1]), es[|es| - 1])
  }

  // -------- what holds on every run, repetitions among the hosts or not --------

  /** The bootstrap hosts other than this one. */
  function Hosts(c: Config): seq<string> {
    Potential(c, [])
  }

  function HostSet(c: Config): set<string> {
    set h | h in Hosts(c)
  }

  ghost predicate Basic(c: Config, s: State) {
    && |s.outcomes| <= 1
    && (s.waiting <==> s.groupDone && s.outcomes == [] && s.tick.None?)
    && (s.tick.Some? ==> s.outcomes == [] && s.group == [] && !(s.tick.value.Complete?))
    && (!s.groupDone ==> s.tick.None?)
    && (!s.groupDone ==> s.outcomes == [])
    && (s.outcomes == [] ==> s.responses.Some? && (s.group == [] || |s.joined| < JoinSize(c)))
    && (forall i :: i in s.answered ==> i < |s.group|)
    && (!s.groupDone ==> |s.successes| + |s.failures| == |s.answered| && (s.group == [] || !GroupFinished(c, s)))
    && (s.waiting ==> s.group != [] && |s.answered| == |s.group|)
  }

  ghost predicate FromHosts(c: Config, s: State) {
    forall h :: h in s.group || h in s.joined || h in Left(s.rounds) || h in s.successes ==> h in Hosts(c)
  }

  lemma SelectedFromHosts(c: Config, s: State, draws: Draws)
    requires FromHosts(c, s)
    ensures FromHosts(c, NextGroup(c, s, draws))
  {
    var t := NextGroup(c, s, draws);
    SelectionConserves(c, s.rounds, s.joined, draws);
    var from := Available(c, s.rounds, s.joined);
    NewRoundPartitions(c, s.joined);
    FilterMember(c.bootstrap, (h: string) => h != c.self && h !in []);
    forall h | h in t.group || h in Left(t.rounds) ensures h in Hosts(c) {
      assert h in multiset(t.group) + multiset(Left(t.rounds));
      assert h in multiset(Left(from));
      assert h in Left(from);
    }
  }

  lemma NextGroupKeeps(c: Config, s: State, draws: Draws)
    requires s.outcomes == [] && s.tick.None? && s.responses.Some? && FromHosts(c, s)
    requires |s.joined| < JoinSize(c) || JoinSize(c) == 0 == |s.joined|
    ensures Basic(c, NextGroup(c, s, draws)) && FromHosts(c, NextGroup(c, s, draws))
  {
    EmptyGroupIff(c, s.rounds, s.joined, draws);
    SelectedFromHosts(c, s, draws);
  }

  lemma NotedFromHosts(c: Config, s: State, i: nat, reply: Reply)
    requires FromHosts(c, s) && i < |s.group|
    ensures FromHosts(c, Noted(s, i, reply))
  {
  }

  lemma ReplyKeepsHosts(c: Config, s: State, e: Event)
    requires e.Replied? && FromHosts(c, s) && Basic(c, s) && Enabled(s, e)
    ensures FromHosts(c, Step(c, s, e))
  {
    var t := Noted(s, e.i, e.reply);
    NotedFromHosts(c, s, e.i, e.reply);
    StepOfReply(c, s, e);
    if !s.groupDone && GroupFinished(c, t) {
      OnGroupLists(c, t.(groupDone := true), e.elapsed, e.destroyed, e.draw);
    }
  }

  lemma ReplyKeeps(c: Config, s: State, e: Event)
    requires e.Replied? && Basic(c, s) && FromHosts(c, s) && Enabled(s, e)
    ensures Basic(c, Step(c, s, e)) && FromHosts(c, Step(c, s, e))
  {
    ReplyKeepsHosts(c, s, e);
    assert |s.answered + {e.i}| == |s.answered| + 1;
    AnsweredBound(s.answered + {e.i}, |s.group|);
    if !s.groupDone {
      if GroupFinished(c, Noted(s, e.i, e.reply)) {
        DoneKeepsBasic(c, Noted(s, e.i, e.reply), e);
      }
    }
  }

  /** What the callback of a finished group leaves behind. */
  lemma DoneKeepsBasic(c: Config, s: State, e: Event)
    requires e.Replied? && !s.groupDone && !s.waiting && s.outcomes == [] && s.tick.None? && s.responses.Some?
             && s.group != []
    requires |s.joined| < JoinSize(c) && |s.answered| <= |s.group| && |s.successes| + |s.failures| == |s.answered|
    requires (forall i :: i in s.answered ==> i < |s.group|) && GroupFinished(c, s)
    ensures Basic(c, OnGroup(c, s.(groupDone := true), e.elapsed, e.destroyed, e.draw))
  {
  }

  lemma AnsweredBound(answered: set<nat>, n: nat)
    requires forall i :: i in answered ==> i < n
    ensures |answered| <= n
    ensures |answered| == n ==> forall i :: 0 <= i < n ==> i in answered
  {
    SubsetSize(answered, Below(n));
    if i :| 0 <= i < n && i !in answered {
      SubsetSize(answered, Below(n) - {i});
    }
  }

  lemma BeginKeeps(c: Config, first: Opening)
    ensures Basic(c, Begin(c, first)) && FromHosts(c, Begin(c, first))
  {
    if Starts(c, first) {
      NextGroupKeeps(c, Idle(c), first.draws);
    }
  }

  lemma {:induction false} RunKeeps(c: Config, first: Opening, es: seq<Event>)
    requires Legal(c, first, es)
    ensures Basic(c, Run(c, first, es)) && FromHosts(c, Run(c, first, es))
  {
    if es == [] {
      BeginKeeps(c, first);
    } else {
      var s, e := Run(c, first, es[..|es| - 1]), es[|es| - 1];
      RunKeeps(c, first, es[..|es| - 1]);
      match e
      case Replied(_, _, _, _, _) => ReplyKeeps(c, s, e);
      case Retry(draws) => NextGroupKeeps(c, s.(retries := s.retries + 1), draws);
      case Tick =>
    }
  }

  // -------- no run gets stuck --------

  /** The join has not called back, and neither a reply nor a timer nor a tick is outstanding. */
  predicate Stuck(s: State) {
    s.outcomes == [] && !s.waiting && s.tick.None? && forall i :: 0 <= i < |s.group| ==> i in s.answered
  }

  lemma StuckIsEmptyGroup(c: Config, first: Opening, es: seq<Event>)
    requires Legal(c, first, es)
    ensures Stuck(Run(c, first, es)) ==> Run(c, first, es).group == []
  {
    RunKeeps(c, first, es);
    var s := Run(c, first, es);
    if Stuck(s) && s.group != [] {
      SubsetSize(Below(|s.group|), s.answered);
    }
  }

  /** Fewer joined nodes than distinct hosts leave one to try. */
  lemma SomeHostLeft(c: Config, joined: seq<string>)
    requires |joined| < |HostSet(c)|
    ensures Left(NewRound(c, joined)) != []
  {
    var seen := set h | h in joined;
    JoinedSize(joined);
    if HostSet(c) <= seen {
      SubsetSize(HostSet(c), seen);
    }
    var h :| h in HostSet(c) && h !in joined;
    NewRoundPartitions(c, joined);
    FilterMember(c.bootstrap, (h: string) => h != c.self && h !in []);
    assert h in Left(NewRound(c, joined));
  }

  lemma {:induction false} JoinedSize(joined: seq<string>)
    ensures |set h | h in joined| <= |joined|
  {
    if joined != [] {
      var init := joined[..|joined| - 1];
      JoinedSize(init);
      assert joined == init + [joined[|init|]];
      assert forall h :: h in joined <==> h in init || h == joined[|init|];
      var all, most := set h | h in joined, set h | h in init;
      assert all == most + {joined[|init|]};
    }
  }

  /** The condition under which no run gets stuck. */
  predicate CanAlwaysGoOn(c: Config) {
    1 <= JoinSize(c) <= |HostSet(c)| && c.parallelism != 0.0
  }

  lemma TargetNotZero(c: Config, joined: seq<string>)
    requires c.parallelism != 0.0 && |joined| < JoinSize(c)
    ensures Target(c, joined) != 0.0
  {
    NonZero((JoinSize(c) - |joined|) as real, c.parallelism);
  }

  lemma GroupNotEmpty(c: Config, s: State, draws: Draws)
    requires CanAlwaysGoOn(c) && |s.joined| < JoinSize(c)
    ensures NextGroup(c, s, draws).group != []
  {
    EmptyGroupIff(c, s.rounds, s.joined, draws);
    TargetNotZero(c, s.joined);
    if Left(s.rounds) == [] {
      SomeHostLeft(c, s.joined);
    }
  }

  lemma NonZero(x: real, y: real)
    requires x != 0.0 && y != 0.0
    ensures x * y != 0.0
  {
  }

  /** A join that does not go ahead calls back on the next tick. */
  lemma {:induction false} NotStartedCallsBack(c: Config, first: Opening, es: seq<Event>)
    requires Legal(c, first, es) && !Starts(c, first)
    ensures var s := Run(c, first, es);
            && s.group == [] && !s.waiting
            && s.outcomes + (if s.tick.Some? then [s.tick.value] else [])
               == [if first.destroyed then Aborted else Alone]
  {
    if es != [] {
      NotStartedCallsBack(c, first, es[..|es| - 1]);
    }
  }

  lemma {:induction false} StartedHasNoTick(c: Config, first: Opening, es: seq<Event>)
    requires Legal(c, first, es) && Starts(c, first)
    ensures Run(c, first, es).tick.None?
  {
    if es != [] {
      StartedHasNoTick(c, first, es[..|es| - 1]);
      NoNewTick(c, Run(c, first, es[..|es| - 1]), es[|es| - 1]);
    }
  }

  lemma NoNewTick(c: Config, s: State, e: Event)
    requires s.tick.None?
    ensures Step(c, s, e).tick.None?
  {
  }

  lemma NeverStuck(c: Config, first: Opening, es: seq<Event>)
    requires Legal(c, first, es) && (!Starts(c, first) || CanAlwaysGoOn(c))
    ensures !Stuck(Run(c, first, es))
    ensures Starts(c, first) && Run(c, first, es).outcomes == [] ==> Run(c, first, es).group != []
  {
    if !Starts(c, first) {
      NotStartedCallsBack(c, first, es);
    } else {
      StuckIsEmptyGroup(c, first, es);
      StartedGoesOn(c, first, es);
    }
  }

  lemma {:induction false} StartedGoesOn(c: Config, first: Opening, es: seq<Event>)
    requires Legal(c, first, es) && Starts(c, first) && CanAlwaysGoOn(c)
    ensures Run(c, first, es).outcomes == [] ==> Run(c, first, es).group != []
  {
    if es == [] {
      GroupNotEmpty(c, Idle(c), first.draws);
    } else {
      var s, e := Run(c, first, es[..|es| - 1]), es[|es| - 1];
      StartedGoesOn(c, first, es[..|es| - 1]);
      RunKeeps(c, first, es[..|es| - 1]);
      if e.Retry? {
        GroupNotEmpty(c, s.(retries := s.retries + 1), e.draws);
      }
    }
  }

  // -------- and otherwise some run does --------

  function Current(s: State): seq<string> {
    s.joined + (if s.groupDone then [] else s.successes)
  }

  /** Every host is joined, asked and not answered yet, or still to be asked. */
  ghost predicate Covered(c: Config, s: State) {
    && NoDup(Current(s))
    && forall h :: h in Hosts(c) ==> h in Current(s) || h in Left(s.rounds) || Awaited(s, h)
  }

  ghost predicate Awaited(s: State, h: string) {
    exists i :: 0 <= i < |s.group| && i !in s.answered && s.group[i] == h
  }

  /** Answers position `i` so that no host is listed twice. */
  function Reluctant(c: Config, s: State, i: nat): Event
    requires i < |s.group|
  {
    Replied(i, if s.group[i] in Current(s) then Failed else Joined(None), c.maxJoinDuration, false, 0.0)
  }

  lemma ReluctantKeepsCovered(c: Config, s: State, i: nat)
    requires Basic(c, s) && FromHosts(c, s) && Covered(c, s) && JoinSize(c) > |HostSet(c)|
    requires s.outcomes == [] && !s.groupDone && i < |s.group| && i !in s.answered
    ensures var t := Step(c, s, Reluctant(c, s, i));
            && t.outcomes == [] && Covered(c, t) && t.rounds == s.rounds && t.group == s.group
            && t.answered == s.answered + {i}
  {
    var e := Reluctant(c, s, i);
    var noted := Noted(s, i, e.reply);
    NotedKeepsCovered(c, s, i, e.reply);
    NoDupBound(Current(noted), HostSet(c));
    assert |Current(noted)| < JoinSize(c);
    var t := Step(c, s, e);
    assert Current(t) == Current(noted);
    forall h | h in Hosts(c) ensures h in Current(t) || h in Left(t.rounds) || Awaited(t, h) {
      if Awaited(noted, h) {
        var j :| 0 <= j < |noted.group| && j !in noted.answered && noted.group[j] == h;
        assert t.group[j] == h && j !in t.answered;
      }
    }
  }

  lemma NotedKeepsCovered(c: Config, s: State, i: nat, reply: Reply)
    requires FromHosts(c, s) && Covered(c, s) && !s.groupDone && i < |s.group| && i !in s.answered
    requires reply == if s.group[i] in Current(s) then Failed else Joined(None)
    ensures Covered(c, Noted(s, i, reply)) && forall h :: h in Current(Noted(s, i, reply)) ==> h in Hosts(c)
  {
    var t := Noted(s, i, reply);
    assert Current(t) == Current(s) + (if reply.Failed? then [] else [s.group[i]]);
    forall h | h in Hosts(c) ensures h in Current(t) || h in Left(t.rounds) || Awaited(t, h) {
      if h !in Current(s) && h !in Left(s.rounds) {
        var j :| 0 <= j < |s.group| && j !in s.answered && s.group[j] == h;
        if j != i {
          assert t.group[j] == h && j !in t.answered;
        }
      }
    }
  }

  lemma RetryKeepsCovered(c: Config, s: State, draws: Draws)
    requires Basic(c, s) && Covered(c, s) && s.waiting && Left(s.rounds) != []
    ensures Covered(c, NextGroup(c, s, draws))
    ensures |NextGroup(c, s, draws).group| + |Left(NextGroup(c, s, draws).rounds)| == |Left(s.rounds)|
  {
    var t := NextGroup(c, s, draws);
    SelectionConserves(c, s.rounds, s.joined, draws);
    assert |multiset(t.group)| + |multiset(Left(t.rounds))| == |multiset(Left(s.rounds))|;
    AnsweredBound(s.answered, |s.group|);
    assert Current(t) == Current(s);
    forall h | h in Hosts(c) ensures h in Current(t) || h in Left(t.rounds) || Awaited(t, h) {
      if h !in Current(s) {
        assert !Awaited(s, h);
        assert h in multiset(t.group) + multiset(Left(t.rounds));
        if h in t.group {
          var j :| 0 <= j < |t.group| && t.group[j] == h;
          assert j !in t.answered;
        }
      }
    }
  }

  /** With every host joined and none left in the round, the next group is empty. */
  lemma RetryGetsStuck(c: Config, s: State, draws: Draws)
    requires Basic(c, s) && Covered(c, s) && s.waiting && Left(s.rounds) == []
    ensures Stuck(NextGroup(c, s, draws))
  {
    AnsweredBound(s.answered, |s.group|);
    assert forall h :: h in Hosts(c) ==> !Awaited(s, h);
    NewRoundPartitions(c, s.joined);
    FilterMember(c.bootstrap, (h: string) => h != c.self && h !in []);
    assert forall h :: h !in Left(NewRound(c, s.joined));
    FirstMember(Left(NewRound(c, s.joined)));
    EmptyGroupIff(c, s.rounds, s.joined, draws);
  }

  lemma FirstMember(s: seq<string>)
    ensures s == [] || s[0] in s
  {
  }

  const ANY: Draws := (k: nat, n: nat) => 0

  lemma Extend(c: Config, first: Opening, es: seq<Event>, e: Event)
    requires Legal(c, first, es) && Enabled(Run(c, first, es), e)
    ensures Legal(c, first, es + [e]) && Run(c, first, es + [e]) == Step(c, Run(c, first, es), e)
  {
    assert (es + [e])[..|es|] == es;
  }

  /** From any covered state some run gets stuck, when more nodes are to be joined than there are. */
  lemma {:induction false} CoveredGetsStuck(c: Config, first: Opening, es: seq<Event>) returns (more: seq<Event>)
    requires Legal(c, first, es) && Covered(c, Run(c, first, es)) && Run(c, first, es).outcomes == []
    requires Starts(c, first) && JoinSize(c) > |HostSet(c)|
    ensures Legal(c, first, more) && Stuck(Run(c, first, more))
    decreases 3 * |Left(Run(c, first, es).rounds)| + 2 * (|Run(c, first, es).group| - |Run(c, first, es).answered|)
              + (if Run(c, first, es).waiting then 1 else 0)
  {
    var s := Run(c, first, es);
    RunKeeps(c, first, es);
    StartedHasNoTick(c, first, es);
    AnsweredBound(s.answered, |s.group|);
    if Stuck(s) {
      more := es;
    } else if s.waiting {
      var e := Retry(ANY);
      Extend(c, first, es, e);
      var s' := s.(retries := s.retries + 1);
      if Left(s.rounds) == [] {
        RetryGetsStuck(c, s', ANY);
        more := es + [e];
      } else {
        RetryKeepsCovered(c, s', ANY);
        if Stuck(NextGroup(c, s', ANY)) {
          more := es + [e];
        } else {
          more := CoveredGetsStuck(c, first, es + [e]);
        }
      }
    } else {
      var i :| 0 <= i < |s.group| && i !in s.answered;
      ReluctantKeepsCovered(c, s, i);
      Extend(c, first, es, Reluctant(c, s, i));
      more := CoveredGetsStuck(c, first, es + [Reluctant(c, s, i)]);
    }
  }

  lemma FirstGroupCovers(c: Config, draws: Draws, h: string)
    requires h in Hosts(c)
    ensures var sel := SelectGroup(c, Rounds([], []), [], draws);
            h in sel.group || h in Left(sel.rounds)
  {
    var sel := SelectGroup(c, Rounds([], []), [], draws);
    SelectionConserves(c, Rounds([], []), [], draws);
    NewRoundPartitions(c, []);
    assert h in multiset(Potential(c, []));
    assert h in multiset(sel.group) + multiset(Left(sel.rounds));
  }

  lemma BeginCovered(c: Config, first: Opening)
    requires Starts(c, first)
    ensures Covered(c, Begin(c, first))
  {
    var t := Begin(c, first);
    forall h | h in Hosts(c) ensures h in Left(t.rounds) || Awaited(t, h) {
      FirstGroupCovers(c, first.draws, h);
      if h in t.group {
        var j :| 0 <= j < |t.group| && t.group[j] == h;
        assert j !in t.answered;
      }
    }
  }

  ghost predicate GetsStuck(c: Config, first: Opening, es: seq<Event>) {
    Legal(c, first, es) && Stuck(Run(c, first, es))
  }

  /** No run of a join gets stuck, with no callback, no request, no timer and no tick outstanding, exactly when ringpop
      is destroyed by the time it is called, or this node is the only one to join, or at least one and no more nodes are
      to be joined than there are distinct other hosts and the parallelism is not zero. A joiner has a bootstrap
      list. */
  lemma NeverStuckIff(c: Config, first: Opening)
    requires c.bootstrap != []
    ensures (forall es :: !GetsStuck(c, first, es)) <==>
            first.destroyed || c.bootstrap == [c.self] || CanAlwaysGoOn(c)
  {
    if !Starts(c, first) || CanAlwaysGoOn(c) {
      forall es ensures !GetsStuck(c, first, es) {
        if Legal(c, first, es) {
          NeverStuck(c, first, es);
        }
      }
    } else if JoinSize(c) > |HostSet(c)| {
      BeginCovered(c, first);
      var es := CoveredGetsStuck(c, first, []);
      assert GetsStuck(c, first, es);
    } else {
      StuckAtOnce(c, first);
      assert GetsStuck(c, first, []);
    }
  }

  lemma StuckAtOnce(c: Config, first: Opening)
    requires Starts(c, first) && !CanAlwaysGoOn(c) && JoinSize(c) <= |HostSet(c)|
    ensures Legal(c, first, []) && Stuck(Run(c, first, []))
  {
    EmptyGroupIff(c, Rounds([], []), [], first.draws);
  }

  /** When a group is selected, the join gets stuck exactly when no more nodes are to be asked for, or every host of an
      exhausted round is joined. */
  lemma StuckAtGroupIff(c: Config, s: State, draws: Draws)
    requires s.outcomes == [] && s.tick.None?
    ensures Stuck(NextGroup(c, s, draws)) <==>
            Target(c, s.joined) == 0.0 || (Left(s.rounds) == [] && forall h :: h in Hosts(c) ==> h in s.joined)
  {
    EmptyGroupIff(c, s.rounds, s.joined, draws);
    NewRoundPartitions(c, s.joined);
    forall h ensures h in Hosts(c) <==> h in c.bootstrap && h != c.self {
      HostsAreOthers(c, h);
    }
    var t := NextGroup(c, s, draws);
    FirstMember(Left(NewRound(c, s.joined)));
    if t.group != [] {
      assert 0 !in t.answered;
    }
  }

  lemma {:induction false} SetOfDistinct(hosts: seq<string>)
    requires NoDup(hosts)
    ensures |set h | h in hosts| == |hosts|
  {
    if hosts != [] {
      var init := hosts[..|hosts| - 1];
      SetOfDistinct(init);
      assert forall h :: h in hosts <==> h in init || h == hosts[|init|];
      var all, most := set h | h in hosts, set h | h in init;
      assert all == most + {hosts[|init|]};
    }
  }

  /** With distinct hosts, at least one other than this node, and at least one to join, only the parallelism matters. */
  lemma DistinctHostsGoOn(c: Config)
    requires NoDup(Hosts(c)) && c.requestedSize >= 1 && (exists h :: h in c.bootstrap && h != c.self)
    ensures CanAlwaysGoOn(c) <==> c.parallelism != 0.0
  {
    FilterMember(c.bootstrap, (h: string) => h != c.self && h !in []);
    var h :| h in c.bootstrap && h != c.self;
    assert h in Hosts(c);
    SetOfDistinct(Hosts(c));
  }

  // -------- how many nodes are asked for --------

  /** As many nodes are to be joined as requested, but no more than there are other hosts, repetitions included. */
  lemma JoinSizeIsCapped(c: Config)
    ensures JoinSize(c) <= c.requestedSize && JoinSize(c) <= |Hosts(c)|
    ensures JoinSize(c) == c.requestedSize || JoinSize(c) == |Hosts(c)|
    ensures forall h :: multiset(Hosts(c))[h] == if h != c.self then multiset(c.bootstrap)[h] else 0
  {
    forall h ensures multiset(Hosts(c))[h] == if h != c.self then multiset(c.bootstrap)[h] else 0 {
      FilterCount(c.bootstrap, (x: string) => x != c.self && x !in [], h);
    }
  }

  lemma NextGroupSize(c: Config, s: State, draws: Draws)
    ensures var t := NextGroup(c, s, draws);
            && (|t.group| as real == Missing(c, |s.joined|) || Left(t.rounds) == [])
            && t.joined == s.joined && t.retries == s.retries
  {
    var t, sel := NextGroup(c, s, draws), SelectGroup(c, s.rounds, s.joined, draws);
    assert t.group == sel.group && t.rounds == sel.rounds;
    GroupSize(c, s.rounds, s.joined, draws);
  }

  lemma GroupSize(c: Config, r: Rounds, joined: seq<string>, draws: Draws)
    ensures var sel := SelectGroup(c, r, joined, draws);
            |sel.group| as real == Missing(c, |joined|) || Left(sel.rounds) == []
  {
    SelectionConserves(c, r, joined, draws);
    TargetIsMissing(c, joined);
  }

  lemma TargetIsMissing(c: Config, joined: seq<string>)
    ensures Target(c, joined) == Missing(c, |joined|)
  {
  }

  /** How many nodes to ask, when some are joined: as many as are missing times the parallelism. */
  function Missing(c: Config, joined: nat): real {
    (JoinSize(c) - joined) as real * c.parallelism
  }

  /** On every run, the group selected for a retry has that size, or takes all that the round has left; and so has the
      first. */
  lemma GroupHasItsSize(c: Config, first: Opening, es: seq<Event>, draws: Draws)
    requires Legal(c, first, es)
    ensures Enabled(Run(c, first, es), Retry(draws)) ==>
              var s := Run(c, first, es); var t := Step(c, s, Retry(draws));
              && (|t.group| as real == Missing(c, |s.joined|) || Left(t.rounds) == [])
              && t.joined == s.joined && t.retries == s.retries + 1
    ensures Starts(c, first) ==>
              |Begin(c, first).group| as real == Missing(c, 0) || Left(Begin(c, first).rounds) == []
  {
    var s := Run(c, first, es);
    NextGroupSize(c, s.(retries := s.retries + 1), draws);
    NextGroupSize(c, Idle(c), first.draws);
  }

  // -------- which outcome a group gives --------

  /** What the group has joined with one good reply more, after what was joined before. */
  function JoinedWith(s: State, i: nat, reply: Reply): seq<string>
    requires i < |s.group|
  {
    s.joined + s.successes + if reply.Joined? then [s.group[i]] else []
  }

  /** The responses with that reply's, when it has a body. */
  function ResponsesWith(s: State, i: nat, reply: Reply): seq<Response>
    requires i < |s.group| && s.responses.Some?
  {
    s.responses.value + if reply.Joined? && reply.body.Some? then [Response(s.group[i], reply.body.value)] else []
  }

  /** On every run, the reply that has enough nodes joined, or that is the last of its group, finishes the group, and no
      other; and then, in this order: a destroyed ringpop aborts and merges nothing; enough nodes joined complete the
      join with these nodes and the responses so far; too much time passed ends it; and otherwise a retry is pending. */
  lemma GroupDecides(c: Config, first: Opening, es: seq<Event>, e: Event)
    requires Legal(c, first, es) && e.Replied? && Enabled(Run(c, first, es), e) && !Run(c, first, es).groupDone
    ensures var s := Run(c, first, es); var t := Step(c, s, e);
            var joined := JoinedWith(s, e.i, e.reply);
            var enough := |joined| >= JoinSize(c);
            && s.responses.Some?
            && (t.groupDone <==> enough || |s.answered| + 1 >= |s.group|)
            && (!t.groupDone ==> t.outcomes == [] && !t.waiting && t.joined == s.joined)
            && (t.groupDone ==>
                  && (t.outcomes == [Aborted] <==> e.destroyed)
                  && (t.outcomes == [Complete(joined, ResponsesWith(s, e.i, e.reply))] <==> !e.destroyed && enough)
                  && (t.outcomes == [DurationExceeded] <==>
                        !e.destroyed && !enough && e.elapsed > c.maxJoinDuration)
                  && (t.waiting <==> !e.destroyed && !enough && e.elapsed <= c.maxJoinDuration)
                  && (t.waiting <==> t.outcomes == [])
                  && (t.waiting ==> t.joined == joined && t.responses == Some(ResponsesWith(s, e.i, e.reply)))
                  && (e.destroyed ==> t.responses == Some(ResponsesWith(s, e.i, e.reply))))
  {
    RunKeeps(c, first, es);
    var s := Run(c, first, es);
    StepOfReply(c, s, e);
    GroupOutcome(c, s, e);
  }

  lemma GroupOutcome(c: Config, s: State, e: Event)
    requires Basic(c, s) && e.Replied? && Enabled(s, e) && !s.groupDone
    ensures var u := Noted(s, e.i, e.reply);
            && s.responses.Some? && u.joined == s.joined && u.outcomes == [] && !u.waiting && !u.groupDone
            && u.joined + u.successes == JoinedWith(s, e.i, e.reply)
            && |u.successes| + |u.failures| == |s.answered| + 1
            && u.responses == Some(ResponsesWith(s, e.i, e.reply))
  {
    assert s.responses.value + [] == s.responses.value;
    assert s.joined + s.successes + [] == s.joined + s.successes;
    assert s.joined + (s.successes + [s.group[e.i]]) == s.joined + s.successes + [s.group[e.i]];
  }

  /** And nothing else gives a started join an outcome or takes it back. */
  lemma OnlyGroupsDecide(c: Config, first: Opening, es: seq<Event>, e: Event)
    requires Legal(c, first, es) && Starts(c, first) && Enabled(Run(c, first, es), e)
    requires e.Replied? ==> Run(c, first, es).groupDone
    ensures Step(c, Run(c, first, es), e).outcomes == Run(c, first, es).outcomes && !e.Tick?
  {
    StartedHasNoTick(c, first, es);
  }

  // -------- what a completed join has joined --------

  function Froms(responses: seq<Response>): seq<string> {
    seq(|responses|, i requires 0 <= i < |responses| => responses[i].from)
  }

  /** Every good reply of the run came with a body. */
  predicate AllBodies(es: seq<Event>) {
    forall i :: 0 <= i < |es| && es[i].Replied? && es[i].reply.Joined? ==> es[i].reply.body.Some?
  }

  /** The nodes asked in a group that have not answered. */
  function Unanswered(group: seq<string>, answered: set<nat>): seq<string> {
    if group == [] then []
    else
      var n := |group| - 1;
      Unanswered(group[..n], answered) + (if n in answered then [] else [group[n]])
  }

  /** The nodes listed, asked and not answered yet, and left, as often as each. */
  function Accounted(s: State): multiset<string> {
    multiset(Current(s)) + multiset(if s.groupDone then [] else Unanswered(s.group, s.answered))
    + multiset(Left(s.rounds))
  }

  /** No node is accounted for more often than it is a host. */
  ghost predicate Accounts(c: Config, s: State) {
    Accounted(s) <= multiset(Hosts(c))
  }

  /** The responses collected so far are those of the nodes listed so far, at most once each. */
  ghost predicate Collected(s: State, complete: bool) {
    s.outcomes == [] && s.responses.Some? ==>
      && multiset(Froms(s.responses.value)) <= multiset(Current(s))
      && (complete ==> Froms(s.responses.value) == Current(s))
  }

  ghost predicate ReportedOne(c: Config, o: Outcome, complete: bool)
    requires o.Complete?
  {
    && |o.joined| == JoinSize(c) && multiset(o.joined) <= multiset(Hosts(c))
    && multiset(Froms(o.merged)) <= multiset(o.joined)
    && (complete ==> Froms(o.merged) == o.joined)
  }

  ghost predicate Reported(c: Config, s: State, complete: bool) {
    forall o :: o in s.outcomes && o.Complete? ==> ReportedOne(c, o, complete)
  }

  lemma {:induction false} NobodyAnswered(group: seq<string>)
    ensures Unanswered(group, {}) == group
  {
    if group != [] {
      NobodyAnswered(group[..|group| - 1]);
    }
  }

  lemma MultisetOfConcat(a: seq<string>, b: seq<string>)
    ensures multiset(a + b) == multiset(a) + multiset(b)
  {
  }

  lemma {:induction false} OneAnswers(group: seq<string>, answered: set<nat>, i: nat)
    requires i < |group| && i !in answered
    ensures multiset(Unanswered(group, answered + {i})) + multiset{group[i]} == multiset(Unanswered(group, answered))
  {
    var n := |group| - 1;
    var before, after := Unanswered(group[..n], answered), Unanswered(group[..n], answered + {i});
    if i == n {
      OthersAnswer(group[..n], answered, i);
      MultisetOfConcat(before, [group[n]]);
      assert Unanswered(group, answered + {i}) == after + [] == after;
    } else {
      var tail := if n in answered then [] else [group[n]];
      assert group[..n][i] == group[i];
      OneAnswers(group[..n], answered, i);
      assert Unanswered(group, answered + {i}) == after + tail;
      MultisetOfConcat(before, tail);
      MultisetOfConcat(after, tail);
      MovesAcross(multiset(after), multiset{group[i]}, multiset(before), multiset(tail));
    }
  }

  lemma MovesAcross(a: multiset<string>, x: multiset<string>, b: multiset<string>, tail: multiset<string>)
    requires a + x == b
    ensures (a + tail) + x == b + tail
  {
  }

  lemma {:induction false} OthersAnswer(group: seq<string>, answered: set<nat>, i: nat)
    requires i >= |group|
    ensures Unanswered(group, answered + {i}) == Unanswered(group, answered)
  {
    if group != [] {
      OthersAnswer(group[..|group| - 1], answered, i);
    }
  }

  /** The hosts that are not joined come on top of those that are. */
  lemma JoinedAndPotential(c: Config, joined: seq<string>)
    requires multiset(joined) <= multiset(Hosts(c))
    ensures multiset(joined) + multiset(Potential(c, joined)) <= multiset(Hosts(c))
  {
    forall h ensures multiset(joined)[h] + multiset(Potential(c, joined))[h] <= multiset(Hosts(c))[h] {
      FilterCount(c.bootstrap, (x: string) => x != c.self && x !in joined, h);
      FilterCount(c.bootstrap, (x: string) => x != c.self && x !in [], h);
      assert h in joined <==> multiset(joined)[h] > 0;
    }
  }

  lemma NextGroupAccounts(c: Config, s: State, draws: Draws)
    requires multiset(s.joined) + multiset(Left(s.rounds)) <= multiset(Hosts(c))
    ensures Accounts(c, NextGroup(c, s, draws))
    ensures var t := NextGroup(c, s, draws);
            multiset(t.joined) + multiset(t.group) + multiset(Left(t.rounds)) <= multiset(Hosts(c))
  {
    var t := NextGroup(c, s, draws);
    SelectionConserves(c, s.rounds, s.joined, draws);
    if Left(s.rounds) == [] {
      NewRoundPartitions(c, s.joined);
      JoinedAndPotential(c, s.joined);
    }
    NobodyAnswered(t.group);
    assert Current(t) == t.joined;
  }

  /** What the bookkeeping of a reply to an open group does to the lists. */
  lemma NotedLists(s: State, i: nat, reply: Reply)
    requires !s.groupDone && i < |s.group|
    ensures var t := Noted(s, i, reply);
            && !t.groupDone && t.rounds == s.rounds && t.group == s.group && t.answered == s.answered + {i}
            && Current(t) == Current(s) + (if reply.Failed? then [] else [s.group[i]])
  {
  }

  lemma NotedAccounts(c: Config, s: State, i: nat, reply: Reply)
    requires Accounts(c, s) && !s.groupDone && i < |s.group| && i !in s.answered
    ensures Accounts(c, Noted(s, i, reply))
  {
    var t, node := Noted(s, i, reply), s.group[i];
    var listed, left := multiset(Current(s)), multiset(Unanswered(s.group, s.answered + {i}));
    var rest := multiset(Left(s.rounds));
    OneAnswers(s.group, s.answered, i);
    AnswerAccounts(listed, left, multiset{node}, rest, multiset(Hosts(c)));
    NotedLists(s, i, reply);
    MultisetOfConcat(Current(s), if reply.Failed? then [] else [node]);
    assert Accounted(t) == (if reply.Failed? then listed else listed + multiset{node}) + left + rest;
  }

  lemma AnswerAccounts(listed: multiset<string>, left: multiset<string>, node: multiset<string>, rest: multiset<string>,
                       hosts: multiset<string>)
    requires listed + (left + node) + rest <= hosts
    ensures listed + left + rest <= hosts && (listed + node) + left + rest <= hosts
  {
    assert (listed + node) + left + rest == listed + (left + node) + rest;
  }

  lemma NotedCollects(s: State, i: nat, reply: Reply, complete: bool)
    requires !s.groupDone && s.outcomes == [] && i < |s.group| && Collected(s, complete)
    requires complete && reply.Joined? ==> reply.body.Some?
    ensures Collected(Noted(s, i, reply), complete)
  {
    var t, node := Noted(s, i, reply), s.group[i];
    assert Current(t) == Current(s) + (if reply.Failed? then [] else [node]);
    if s.responses.Some? && reply.Joined? && reply.body.Some? {
      assert Froms(t.responses.value) == Froms(s.responses.value) + [node];
    }
  }

  /** What the callback of a finished group does to the lists. */
  lemma OnGroupLists(c: Config, s: State, elapsed: int, destroyed: bool, draw: Draw)
    requires s.outcomes == [] && s.responses.Some?
    ensures var t := OnGroup(c, s, elapsed, destroyed, draw);
            && t.groupDone == s.groupDone && t.rounds == s.rounds && t.group == s.group && t.successes == s.successes
            && (t.joined == s.joined || t.joined == s.joined + s.successes)
            && (t.outcomes == [] ==> t.joined == s.joined + s.successes && t.responses == s.responses)
            && (forall o :: o in t.outcomes && o.Complete? ==>
                  |o.joined| >= JoinSize(c) && o == Complete(s.joined + s.successes, s.responses.value))
  {
  }

  lemma DoneAccounts(c: Config, s: State, t: State)
    requires !s.groupDone && Accounts(c, s) && t.groupDone && t.rounds == s.rounds
    requires t.joined == s.joined || t.joined == s.joined + s.successes
    ensures Accounts(c, t)
  {
    assert Current(s) == s.joined + s.successes && Current(t) == t.joined;
    assert multiset(s.joined + s.successes) == multiset(s.joined) + multiset(s.successes);
    assert Accounted(t) == multiset(t.joined) + multiset(Left(t.rounds));
  }

  lemma JoinedWithin(c: Config, s: State)
    requires Accounts(c, s)
    ensures multiset(Current(s)) <= multiset(Hosts(c))
  {
  }

  lemma OnGroupReports(c: Config, s: State, elapsed: int, destroyed: bool, draw: Draw, complete: bool)
    requires !s.groupDone && s.outcomes == [] && s.responses.Some? && Accounts(c, s)
    requires |s.joined + s.successes| <= JoinSize(c) && Collected(s, complete)
    ensures var t := OnGroup(c, s.(groupDone := true), elapsed, destroyed, draw);
            Accounts(c, t) && Collected(t, complete) && Reported(c, t, complete)
  {
    var t := OnGroup(c, s.(groupDone := true), elapsed, destroyed, draw);
    OnGroupLists(c, s.(groupDone := true), elapsed, destroyed, draw);
    DoneAccounts(c, s, t);
    assert Current(s) == s.joined + s.successes && Current(t) == t.joined;
    JoinedWithin(c, s);
  }

  lemma StepOfReply(c: Config, s: State, e: Event)
    requires e.Replied? && Enabled(s, e)
    ensures var t := Noted(s, e.i, e.reply);
            Step(c, s, e) == if !s.groupDone && GroupFinished(c, t)
                             then OnGroup(c, t.(groupDone := true), e.elapsed, e.destroyed, e.draw) else t
  {
  }

  /** A reply to a group that is not finished lists at most one node more, and no more than are to be joined. */
  lemma NotedBasics(c: Config, s: State, i: nat, reply: Reply)
    requires Basic(c, s) && !s.groupDone && i < |s.group| && i !in s.answered
    ensures var t := Noted(s, i, reply);
            !t.groupDone && t.outcomes == [] && t.responses.Some? && |t.joined + t.successes| <= JoinSize(c)
  {
  }

  lemma OpenReplyExact(c: Config, s: State, e: Event, complete: bool)
    requires e.Replied? && Enabled(s, e) && Basic(c, s) && !s.groupDone
    requires Accounts(c, s) && Collected(s, complete) && (complete && e.reply.Joined? ==> e.reply.body.Some?)
    ensures Accounts(c, Step(c, s, e)) && Collected(Step(c, s, e), complete) && Reported(c, Step(c, s, e), complete)
  {
    var noted := Noted(s, e.i, e.reply);
    NotedBasics(c, s, e.i, e.reply);
    NotedAccounts(c, s, e.i, e.reply);
    NotedCollects(s, e.i, e.reply, complete);
    StepOfReply(c, s, e);
    if GroupFinished(c, noted) {
      OnGroupReports(c, noted, e.elapsed, e.destroyed, e.draw, complete);
    }
  }

  lemma ReplyExact(c: Config, s: State, e: Event, complete: bool)
    requires e.Replied? && Enabled(s, e) && Basic(c, s)
    requires Accounts(c, s) && Collected(s, complete) && Reported(c, s, complete)
    requires complete && e.reply.Joined? ==> e.reply.body.Some?
    ensures Accounts(c, Step(c, s, e)) && Collected(Step(c, s, e), complete) && Reported(c, Step(c, s, e), complete)
  {
    if s.groupDone {
      StepOfReply(c, s, e);
      LateReplyIsTooLate(c, s, e);
      LateReplyAccounts(c, s, e.i, e.reply);
    } else {
      OpenReplyExact(c, s, e, complete);
    }
  }

  lemma LateReplyAccounts(c: Config, s: State, i: nat, reply: Reply)
    requires Accounts(c, s) && s.groupDone && i < |s.group|
    ensures Accounts(c, Noted(s, i, reply))
  {
    assert Current(Noted(s, i, reply)) == Current(s);
  }

  /** Only a group that finished early can still be answered, and then the join has called back. */
  lemma LateReplyIsTooLate(c: Config, s: State, e: Event)
    requires e.Replied? && Enabled(s, e) && Basic(c, s) && s.groupDone
    ensures s.outcomes != []
  {
    AnsweredBound(s.answered, |s.group|);
  }

  lemma StepExact(c: Config, s: State, e: Event, complete: bool)
    requires Enabled(s, e) && Basic(c, s) && Accounts(c, s) && Collected(s, complete) && Reported(c, s, complete)
    requires complete && e.Replied? && e.reply.Joined? ==> e.reply.body.Some?
    ensures Accounts(c, Step(c, s, e)) && Collected(Step(c, s, e), complete) && Reported(c, Step(c, s, e), complete)
  {
    match e
    case Replied(_, _, _, _, _) => ReplyExact(c, s, e, complete);
    case Retry(draws) =>
      assert Current(s) == s.joined;
      NextGroupAccounts(c, s.(retries := s.retries + 1), draws);
    case Tick =>
      assert Current(Step(c, s, e)) == Current(s);
  }

  /** On every run, repetitions among the hosts or not: the nodes listed, asked and left are accounted for no more often
      than they are hosts, and the responses collected are those of the nodes listed, at most once each. */
  lemma {:induction false} RunExact(c: Config, first: Opening, es: seq<Event>)
    requires Legal(c, first, es)
    ensures var s, complete := Run(c, first, es), AllBodies(es);
            Accounts(c, s) && Collected(s, complete) && Reported(c, s, complete)
  {
    if es == [] {
      if Starts(c, first) {
        NextGroupAccounts(c, Idle(c), first.draws);
      }
    } else {
      var init, e := es[..|es| - 1], es[|es| - 1];
      var s := Run(c, first, init);
      RunExact(c, first, init);
      RunKeeps(c, first, init);
      assert AllBodies(es) ==> AllBodies(init) by {
        assert forall i :: 0 <= i < |init| ==> init[i] == es[i];
      }
      StepExact(c, s, e, AllBodies(es));
    }
  }

  /** When a join completes, whatever the order of the replies and however many are still in flight: it has joined
      exactly `joinSize` bootstrap hosts other than this one, none more often than it is listed, and merges at most one
      response for each time it joined a node and none of anybody else; exactly one, in the order they joined, when
      replies carry bodies. So with distinct hosts the nodes joined are all different. */
  lemma CompletedJoinIsExact(c: Config, first: Opening, es: seq<Event>, o: Outcome)
    requires Legal(c, first, es) && o in Run(c, first, es).outcomes && o.Complete?
    ensures Run(c, first, es).outcomes == [o]
    ensures |o.joined| == JoinSize(c) && multiset(o.joined) <= multiset(Hosts(c))
    ensures forall h :: h in o.joined ==> h in c.bootstrap && h != c.self
    ensures multiset(Froms(o.merged)) <= multiset(o.joined)
    ensures AllBodies(es) ==> Froms(o.merged) == o.joined
    ensures NoDup(Hosts(c)) ==> NoDup(o.joined) && NoDup(Froms(o.merged))
  {
    RunExact(c, first, es);
    RunKeeps(c, first, es);
    OnlyOutcome(Run(c, first, es).outcomes, o);
    assert ReportedOne(c, o, AllBodies(es));
    forall h | h in o.joined ensures h in c.bootstrap && h != c.self {
      assert h in multiset(o.joined) && h in multiset(Hosts(c));
      HostsAreOthers(c, h);
    }
    WithinDistinct(o.joined, Hosts(c));
    WithinDistinct(Froms(o.merged), o.joined);
  }

  lemma WithinDistinct(a: seq<string>, b: seq<string>)
    requires multiset(a) <= multiset(b)
    ensures NoDup(b) ==> NoDup(a)
  {
    CountNoDup(a);
    CountNoDup(b);
    assert forall h :: multiset(a)[h] <= multiset(b)[h];
  }

  lemma OnlyOutcome(outcomes: seq<Outcome>, o: Outcome)
    requires |outcomes| <= 1 && o in outcomes
    ensures outcomes == [o]
  {
  }

  lemma HostsAreOthers(c: Config, h: string)
    ensures h in Hosts(c) <==> h in c.bootstrap && h != c.self
  {
    FilterMember(c.bootstrap, (h: string) => h != c.self && h !in []);
  }

  // -------- fair rounds --------

  ghost predicate Fair(s: State) {
    multiset(s.tried) + multiset(Left(s.rounds)) == multiset(s.roundNodes)
  }

  lemma NextGroupFair(c: Config, s: State, draws: Draws)
    requires Left(s.rounds) == [] || Fair(s)
    ensures Fair(NextGroup(c, s, draws))
  {
    SelectionConserves(c, s.rounds, s.joined, draws);
    NewRoundPartitions(c, s.joined);
  }

  /** A reply moves no nodes between the rounds. */
  lemma ReplyKeepsRounds(c: Config, s: State, e: Event)
    requires e.Replied?
    ensures var t := Step(c, s, e); t.rounds == s.rounds && t.tried == s.tried && t.roundNodes == s.roundNodes
  {
  }

  lemma StepFair(c: Config, s: State, e: Event)
    requires Fair(s)
    ensures Fair(Step(c, s, e))
  {
    match e
    case Replied(_, _, _, _, _) => ReplyKeepsRounds(c, s, e);
    case Retry(draws) => NextGroupFair(c, s.(retries := s.retries + 1), draws);
    case Tick =>
  }

  lemma {:induction false} RunFair(c: Config, first: Opening, es: seq<Event>)
    requires Legal(c, first, es)
    ensures Fair(Run(c, first, es))
  {
    if es == [] {
      if Starts(c, first) {
        NextGroupFair(c, Idle(c), first.draws);
      }
    } else {
      RunFair(c, first, es[..|es| - 1]);
      StepFair(c, Run(c, first, es[..|es| - 1]), es[|es| - 1]);
    }
  }

  /** Goes on with the round, or begins a new one once every node of the last was asked. */
  ghost predicate GoesOnOrStartsOver(c: Config, s: State, t: State) {
    || (t.tried == s.tried + t.group && t.roundNodes == s.roundNodes)
    || (multiset(s.tried) == multiset(s.roundNodes) && t.tried == t.group && t.roundNodes == Potential(c, s.joined))
  }

  /** On every run, the nodes asked in this round and those left in it are together the nodes the round began with, and
      a retry begins a new round, with all the hosts not joined, only when every node of the last was asked. */
  lemma RoundsAreFair(c: Config, first: Opening, es: seq<Event>)
    requires Legal(c, first, es)
    ensures Fair(Run(c, first, es))
    ensures forall draws: Draws :: Enabled(Run(c, first, es), Retry(draws)) ==>
              GoesOnOrStartsOver(c, Run(c, first, es), Step(c, Run(c, first, es), Retry(draws)))
  {
    RunFair(c, first, es);
    forall draws: Draws | Enabled(Run(c, first, es), Retry(draws))
      ensures GoesOnOrStartsOver(c, Run(c, first, es), Step(c, Run(c, first, es), Retry(draws)))
    {
      RetryGoesOn(c, Run(c, first, es), draws);
    }
  }

  lemma RetryGoesOn(c: Config, s: State, draws: Draws)
    requires Fair(s) && s.waiting
    ensures GoesOnOrStartsOver(c, s, Step(c, s, Retry(draws)))
  {
    assert Left(s.rounds) == [] ==> multiset(s.tried) + multiset(Left(s.rounds)) == multiset(s.tried);
    var group := NextGroup(c, s.(retries := s.retries + 1), draws).group;
    assert [] + group == group;
  }

  /** When a group is selected for a retry, no node is joined, in the group and left in the round more often than it is
      a host; so with distinct hosts neither the group nor the round holds a joined node. */
  lemma JoinedNodesAreNotAskedAgain(c: Config, first: Opening, es: seq<Event>, draws: Draws)
    requires Legal(c, first, es) && Enabled(Run(c, first, es), Retry(draws))
    ensures var t := Step(c, Run(c, first, es), Retry(draws));
            && multiset(t.joined) + multiset(t.group) + multiset(Left(t.rounds)) <= multiset(Hosts(c))
            && (NoDup(Hosts(c)) ==> forall h :: h in t.joined ==> h !in t.group && h !in Left(t.rounds))
  {
    RunExact(c, first, es);
    RunKeeps(c, first, es);
    var s := Run(c, first, es).(retries := Run(c, first, es).retries + 1);
    assert Current(s) == s.joined;
    NextGroupAccounts(c, s, draws);
    var t := NextGroup(c, s, draws);
    if NoDup(Hosts(c)) {
      SharesDistinct(t.joined, t.group, Left(t.rounds), Hosts(c));
    }
  }

  lemma SharesDistinct(joined: seq<string>, group: seq<string>, left: seq<string>, hosts: seq<string>)
    requires NoDup(hosts) && multiset(joined) + multiset(group) + multiset(left) <= multiset(hosts)
    ensures forall h :: h in joined ==> h !in group && h !in left
  {
    CountNoDup(hosts);
    forall h | h in joined ensures h !in group && h !in left {
      assert multiset(joined)[h] + multiset(group)[h] + multiset(left)[h] <= multiset(hosts)[h] <= 1;
      assert multiset(joined)[h] >= 1;
    }
  }

  /** A run in which a repeated host is joined twice. */
  lemma RepeatedHostIsJoinedTwice(c: Config, first: Opening, h: string)
    requires c.bootstrap == [h, h] && h != c.self && c.requestedSize == 2 && c.parallelism == 1.0 && !first.destroyed
    ensures var es := [Replied(0, Joined(None), 0, false, 0.0)] + [Replied(1, Joined(None), 0, false, 0.0)];
            Legal(c, first, es) && Run(c, first, es).outcomes == [Complete([h, h], [])]
  {
    TwoHosts(c, h);
    BothAsked(c, first, h);
    var e0, e1 := Replied(0, Joined(None), 0, false, 0.0), Replied(1, Joined(None), 0, false, 0.0);
    assert [] + [e0] == [e0];
    Extend(c, first, [], e0);
    FirstOfTwo(c, Begin(c, first), h);
    Extend(c, first, [e0], e1);
    SecondOfTwo(c, Run(c, first, [e0]), h);
  }

  lemma FirstOfTwo(c: Config, s: State, h: string)
    requires s.group == [h, h] && s.answered == {} && s.successes == [] && s.failures == [] && s.joined == []
    requires !s.groupDone && JoinSize(c) == 2
    ensures Step(c, s, Replied(0, Joined(None), 0, false, 0.0)) == s.(answered := {0}, successes := [h])
  {
    var t := Noted(s, 0, Joined(None));
    assert t.successes == [h] && t.answered == {0};
  }

  lemma SecondOfTwo(c: Config, s: State, h: string)
    requires s.group == [h, h] && s.answered == {0} && s.successes == [h] && s.failures == [] && s.joined == []
    requires !s.groupDone && JoinSize(c) == 2 && s.outcomes == [] && s.responses == Some([])
    ensures Step(c, s, Replied(1, Joined(None), 0, false, 0.0)).outcomes == [Complete([h, h], [])]
  {
    var t := Noted(s, 1, Joined(None));
    assert t.successes == [h, h] && t.joined + t.successes == [h, h];
  }

  lemma TwoHosts(c: Config, h: string)
    requires c.bootstrap == [h, h] && h != c.self
    ensures Hosts(c) == [h, h]
  {
    FilterAll(c.bootstrap, (x: string) => x != c.self && x !in []);
  }

  lemma AllOfTwo(group: seq<string>, left: seq<string>, h: string)
    requires multiset(group) + multiset(left) == multiset([h, h]) && (|group| == 2 || left == [])
    ensures group == [h, h]
  {
    assert |multiset(group)| + |multiset(left)| == 2;
    forall i | 0 <= i < |group| ensures group[i] == h {
      assert group[i] in multiset(group) + multiset(left);
    }
  }

  lemma BothSelected(c: Config, draws: Draws, h: string)
    requires Hosts(c) == [h, h] && Target(c, []) == 2.0
    ensures SelectGroup(c, Rounds([], []), [], draws).group == [h, h]
  {
    var sel := SelectGroup(c, Rounds([], []), [], draws);
    SelectionConserves(c, Rounds([], []), [], draws);
    NewRoundPartitions(c, []);
    AllOfTwo(sel.group, Left(sel.rounds), h);
  }

  lemma BothAsked(c: Config, first: Opening, h: string)
    requires Hosts(c) == [h, h] && c.bootstrap == [h, h] && c.requestedSize == 2 && c.parallelism == 1.0
             && !first.destroyed
    ensures Starts(c, first) && JoinSize(c) == 2 && Begin(c, first).group == [h, h]
  {
    assert JoinSize(c) == 2;
    BothSelected(c, first.draws, h);
  }

  lemma {:induction false} RoundNodesAreHosts(c: Config, first: Opening, es: seq<Event>)
    requires Legal(c, first, es)
    ensures multiset(Run(c, first, es).roundNodes) <= multiset(Hosts(c))
  {
    if es == [] {
      PotentialWithin(c, []);
    } else {
      RoundNodesAreHosts(c, first, es[..|es| - 1]);
      StepKeepsRoundNodes(c, Run(c, first, es[..|es| - 1]), es[|es| - 1]);
    }
  }

  lemma PotentialWithin(c: Config, joined: seq<string>)
    ensures multiset(Potential(c, joined)) <= multiset(Hosts(c))
  {
    forall h ensures multiset(Potential(c, joined))[h] <= multiset(Hosts(c))[h] {
      FilterCount(c.bootstrap, (x: string) => x != c.self && x !in joined, h);
      FilterCount(c.bootstrap, (x: string) => x != c.self && x !in [], h);
    }
  }

  lemma StepKeepsRoundNodes(c: Config, s: State, e: Event)
    requires multiset(s.roundNodes) <= multiset(Hosts(c))
    ensures multiset(Step(c, s, e).roundNodes) <= multiset(Hosts(c))
  {
    PotentialWithin(c, s.joined);
    if e.Replied? {
      ReplyKeepsRounds(c, s, e);
    }
  }

  /** No node is asked in one round more often than it is a host; with distinct hosts, none is asked twice. */
  lemma NoNodeTwiceInARound(c: Config, first: Opening, es: seq<Event>)
    requires Legal(c, first, es)
    ensures multiset(Run(c, first, es).tried) <= multiset(Hosts(c))
    ensures NoDup(Hosts(c)) ==> NoDup(Run(c, first, es).tried)
  {
    RunFair(c, first, es);
    RoundNodesAreHosts(c, first, es);
    WithinDistinct(Run(c, first, es).tried, Hosts(c));
  }

  // -------- the delays of one join --------

  ghost predicate DelaysGrow(c: Config, s: State) {
    && |s.delays| == s.retries + (if s.waiting then 1 else 0)
    && (forall i :: 0 <= i < |s.delays| ==> IsDelay(c, i, s.delays[i]))
    && s.joinDelay == (if s.delays == [] then c.delayMin else s.delays[|s.delays| - 1])
    && s.troubles <= 1
    && (s.troubles == 1 ==> s.delays != [] && s.joinDelay == c.delayMax)
  }

  ghost predicate IsDelay(c: Config, attempt: nat, delay: nat) {
    exists draw: Draw :: delay == FuzzedDelay(c.delayMin, c.delayMax, attempt, draw)
  }

  lemma LaterDelay(c: Config, a: nat, b: nat, x: nat, y: nat)
    requires a < b && IsDelay(c, a, x) && IsDelay(c, b, y)
    ensures x <= y <= c.delayMax && (x == c.delayMax ==> y == c.delayMax)
  {
    var draw: Draw :| x == FuzzedDelay(c.delayMin, c.delayMax, a, draw);
    var draw': Draw :| y == FuzzedDelay(c.delayMin, c.delayMax, b, draw');
    DelaysNeverDecrease(c.delayMin, c.delayMax, a, b, draw, draw');
    DelayBounds(c.delayMin, c.delayMax, b, draw');
  }

  lemma WaitKeepsDelays(c: Config, s: State, delay: nat)
    requires DelaysGrow(c, s) && !s.waiting && IsDelay(c, s.retries, delay) && delay <= c.delayMax
    ensures DelaysGrow(c, WaitFor(c, s, delay))
  {
    if s.delays != [] {
      LaterDelay(c, |s.delays| - 1, s.retries, s.delays[|s.delays| - 1], delay);
    }
  }

  lemma OnGroupDelays(c: Config, s: State, elapsed: int, destroyed: bool, draw: Draw)
    requires DelaysGrow(c, s) && !s.waiting
    ensures DelaysGrow(c, OnGroup(c, s, elapsed, destroyed, draw))
  {
    var delay := FuzzedDelay(c.delayMin, c.delayMax, s.retries, draw);
    DelayBounds(c.delayMin, c.delayMax, s.retries, draw);
    WaitKeepsDelays(c, s.(joined := s.joined + s.successes), delay);
  }

  lemma RetryDelays(c: Config, s: State, draws: Draws)
    requires DelaysGrow(c, s) && s.waiting
    ensures DelaysGrow(c, NextGroup(c, s.(retries := s.retries + 1), draws))
  {
  }

  lemma NotedDelays(c: Config, s: State, i: nat, reply: Reply)
    requires DelaysGrow(c, s) && i < |s.group|
    ensures DelaysGrow(c, Noted(s, i, reply)) && Noted(s, i, reply).waiting == s.waiting
  {
  }

  lemma ReplyDelays(c: Config, s: State, e: Event)
    requires Basic(c, s) && DelaysGrow(c, s) && e.Replied? && Enabled(s, e)
    ensures DelaysGrow(c, Step(c, s, e))
  {
    StepOfReply(c, s, e);
    NotedDelays(c, s, e.i, e.reply);
    if !s.groupDone {
      OnGroupDelays(c, Noted(s, e.i, e.reply).(groupDone := true), e.elapsed, e.destroyed, e.draw);
    }
  }

  lemma StepDelays(c: Config, s: State, e: Event)
    requires Basic(c, s) && DelaysGrow(c, s) && Enabled(s, e)
    ensures DelaysGrow(c, Step(c, s, e))
  {
    match e
    case Replied(_, _, _, _, _) => ReplyDelays(c, s, e);
    case Retry(draws) => RetryDelays(c, s, draws);
    case Tick =>
  }

  lemma {:induction false} RunDelays(c: Config, first: Opening, es: seq<Event>)
    requires Legal(c, first, es)
    ensures DelaysGrow(c, Run(c, first, es))
  {
    if es != [] {
      RunDelays(c, first, es[..|es| - 1]);
      RunKeeps(c, first, es[..|es| - 1]);
      StepDelays(c, Run(c, first, es[..|es| - 1]), es[|es| - 1]);
    }
  }

  /** On every run the delays between retries never decrease and stay at the cap once they reach it. */
  lemma DelaysNeverShrink(c: Config, first: Opening, es: seq<Event>, i: nat, j: nat)
    requires Legal(c, first, es) && i < j < |Run(c, first, es).delays|
    ensures Run(c, first, es).delays[i] <= Run(c, first, es).delays[j] <= c.delayMax
    ensures Run(c, first, es).delays[i] == c.delayMax ==> Run(c, first, es).delays[j] == c.delayMax
  {
    RunDelays(c, first, es);
    LaterDelay(c, i, j, Run(c, first, es).delays[i], Run(c, first, es).delays[j]);
  }

  /** The error that a join is in trouble is logged at most once in a join. */
  lemma TroubleLoggedAtMostOnce(c: Config, first: Opening, es: seq<Event>)
    requires Legal(c, first, es)
    ensures Run(c, first, es).troubles <= 1
  {
    RunDelays(c, first, es);
  }

  /** The trouble is logged exactly once a delay has reached the cap, if that is enabled and not every delay is at
      it. */
  predicate TroubleLogged(c: Config, s: State) {
    s.troubles == if c.troubleErrorEnabled && c.delayMin < c.delayMax && c.delayMax in s.delays then 1 else 0
  }

  /** The last delay is at the cap if any is, and every one is if the smallest is. */
  lemma CapIsLast(c: Config, s: State)
    requires DelaysGrow(c, s) && s.delays != []
    ensures s.joinDelay <= c.delayMax && (c.delayMax in s.delays <==> s.joinDelay == c.delayMax)
    ensures c.delayMin >= c.delayMax ==> s.joinDelay == c.delayMax
  {
    var n := |s.delays| - 1;
    assert s.delays[n] in s.delays && IsDelay(c, n, s.delays[n]);
    var draw: Draw :| s.delays[n] == FuzzedDelay(c.delayMin, c.delayMax, n, draw);
    DelayBounds(c.delayMin, c.delayMax, n, draw);
    AtLeastOnce(c.delayMin, Pow2(n));
    if c.delayMax in s.delays {
      var i :| 0 <= i < |s.delays| && s.delays[i] == c.delayMax;
      if i < n {
        LaterDelay(c, i, n, s.delays[i], s.delays[n]);
      }
    }
  }

  lemma AtLeastOnce(x: nat, k: nat)
    requires k >= 1
    ensures x * k >= x
  {
  }

  lemma WaitLogs(c: Config, s: State, delay: nat)
    requires DelaysGrow(c, s) && TroubleLogged(c, s) && delay <= c.delayMax
    ensures TroubleLogged(c, WaitFor(c, s, delay))
  {
    if s.delays != [] {
      CapIsLast(c, s);
    }
    CapSnoc(s.delays, delay, c.delayMax);
  }

  lemma CapSnoc(delays: seq<nat>, delay: nat, cap: nat)
    ensures cap in delays + [delay] <==> cap in delays || delay == cap
  {
  }

  lemma ReplyLogs(c: Config, s: State, e: Event)
    requires Basic(c, s) && DelaysGrow(c, s) && TroubleLogged(c, s) && e.Replied? && Enabled(s, e)
    ensures TroubleLogged(c, Step(c, s, e))
  {
    StepOfReply(c, s, e);
    var t := Noted(s, e.i, e.reply).(groupDone := true);
    NotedDelays(c, s, e.i, e.reply);
    if !s.groupDone {
      DelayBounds(c.delayMin, c.delayMax, t.retries, e.draw);
      WaitLogs(c, t.(joined := t.joined + t.successes), FuzzedDelay(c.delayMin, c.delayMax, t.retries, e.draw));
    }
  }

  /** On every run, the error that a join is in trouble is logged exactly when that is enabled and some delay has
      reached the cap, unless every delay is at it. */
  lemma {:induction false} TroubleIsLoggedIff(c: Config, first: Opening, es: seq<Event>)
    requires Legal(c, first, es)
    ensures TroubleLogged(c, Run(c, first, es))
  {
    if es != [] {
      var init, e := es[..|es| - 1], es[|es| - 1];
      TroubleIsLoggedIff(c, first, init);
      RunKeeps(c, first, init);
      RunDelays(c, first, init);
      if e.Replied? {
        ReplyLogs(c, Run(c, first, init), e);
      }
    }
  }

  // -------- how many retries fit into a join --------

  /** The run is timed by a clock that does not run back: replies come at these times, and a retry no earlier than its
      delay after the reply that scheduled it. */
  ghost predicate Paced(c: Config, first: Opening, es: seq<Event>, times: seq<nat>) {
    |times| == |es| &&
    (es == [] ||
     var n := |es| - 1;
     && Paced(c, first, es[..n], times[..n])
     && Last(times[..n]) <= times[n]
     && (es[n].Replied? ==> es[n].elapsed == times[n])
     && (es[n].Retry? ==> times[n] >= Last(times[..n]) + Run(c, first, es[..n]).joinDelay))
  }

  function Last(times: seq<nat>): nat {
    if times == [] then 0 else times[|times| - 1]
  }

  /** The time passed covers the waits so far, and all but the last were scheduled within the longest duration. */
  ghost predicate WaitsFit(c: Config, s: State, now: nat) {
    && MinElapsed(c.delayMin, c.delayMax, s.retries) <= now
    && (s.retries > 0 ==> MinElapsed(c.delayMin, c.delayMax, s.retries - 1) <= c.maxJoinDuration)
    && (s.waiting ==> MinElapsed(c.delayMin, c.delayMax, s.retries) <= c.maxJoinDuration)
    && (s.waiting ==> Min(c.delayMax, c.delayMin * Pow2(s.retries)) <= s.joinDelay)
  }

  lemma OnGroupFits(c: Config, s: State, elapsed: nat, destroyed: bool, draw: Draw)
    requires WaitsFit(c, s, elapsed) && !s.waiting
    ensures WaitsFit(c, OnGroup(c, s, elapsed, destroyed, draw), elapsed)
  {
    DelayBounds(c.delayMin, c.delayMax, s.retries, draw);
  }

  lemma ReplyFits(c: Config, s: State, e: Event, was: nat)
    requires e.Replied? && WaitsFit(c, s, was) && was <= e.elapsed && Enabled(s, e) && (!s.groupDone ==> !s.waiting)
    ensures WaitsFit(c, Step(c, s, e), e.elapsed)
  {
    if !s.groupDone && GroupFinished(c, Noted(s, e.i, e.reply)) {
      OnGroupFits(c, Noted(s, e.i, e.reply).(groupDone := true), e.elapsed, e.destroyed, e.draw);
    }
  }

  lemma RetryFits(c: Config, s: State, draws: Draws, was: nat, now: nat)
    requires WaitsFit(c, s, was) && s.waiting && now >= was + s.joinDelay
    ensures WaitsFit(c, Step(c, s, Retry(draws)), now)
  {
  }

  lemma {:induction false} PacedFits(c: Config, first: Opening, es: seq<Event>, times: seq<nat>)
    requires Legal(c, first, es) && Paced(c, first, es, times)
    ensures WaitsFit(c, Run(c, first, es), Last(times))
  {
    if es != [] {
      var n := |es| - 1;
      var s, e := Run(c, first, es[..n]), es[n];
      PacedFits(c, first, es[..n], times[..n]);
      RunKeeps(c, first, es[..n]);
      match e
      case Replied(_, _, _, _, _) => ReplyFits(c, s, e, Last(times[..n]));
      case Retry(draws) => RetryFits(c, s, draws, Last(times[..n]), times[n]);
      case Tick =>
    }
  }

  /** By a clock that does not run back, the waits before the last one fit into the longest duration of a join: so there
      are at most floor(maxJoinDuration / min(delayMin, delayMax)) + 1 retries. */
  lemma RetriesAreBounded(c: Config, first: Opening, es: seq<Event>, times: seq<nat>)
    requires Legal(c, first, es) && Paced(c, first, es, times) && Run(c, first, es).retries > 0
    ensures MinElapsed(c.delayMin, c.delayMax, Run(c, first, es).retries - 1) <= c.maxJoinDuration
    ensures Min(c.delayMin, c.delayMax) > 0 ==>
              Run(c, first, es).retries <= c.maxJoinDuration / Min(c.delayMin, c.delayMax) + 1
  {
    PacedFits(c, first, es, times);
    if Min(c.delayMin, c.delayMax) > 0 {
      WaitsThatFit(c.delayMin, c.delayMax, Run(c, first, es).retries - 1, c.maxJoinDuration);
    }
  }

  // -------- the class --------

  /** What the callbacks of one group share: its nodes, those that joined or failed, and whether it is finished. */
  datatype Group = Group(nodes: seq<string>, joined: seq<string>, failed: seq<string>, calledBack: bool)

  class Joiner {
    const config: Config
    var roundPreferredNodes: seq<string>
    var roundNonPreferredNodes: seq<string>
    var joinResponses: Option<seq<Response>>
    var joinDelay: nat
    var joinRetries: nat
    // what the callbacks of `join` share, and the group in progress
    var nodesJoined: seq<string>
    var calledBack: bool
    var retryPending: bool
    var tick: Option<Outcome>
    var current: Group
    // history
    ghost var answered: set<nat>
    ghost var outcomes: seq<Outcome>
    ghost var roundNodes: seq<string>
    ghost var tried: seq<string>
    ghost var delays: seq<nat>
    ghost var troubles: nat

    ghost function Abstract(): State
      reads this
    {
      State(Rounds(roundPreferredNodes, roundNonPreferredNodes), nodesJoined, current.nodes, answered, current.joined,
            current.failed, current.calledBack, retryPending, joinResponses, joinRetries, joinDelay, outcomes, tick,
            roundNodes, tried, delays, troubles)
    }

    ghost predicate Valid()
      reads this
    {
      calledBack <==> outcomes != []
    }

    constructor (config: Config)
      requires config.bootstrap != []
      ensures Valid() && this.config == config && Abstract() == Idle(config)
    {
      this.config := config;
      roundPreferredNodes, roundNonPreferredNodes := [], [];
      joinResponses, joinDelay, joinRetries := Some([]), config.delayMin, 0;
      nodesJoined, calledBack, retryPending, tick := [], false, false, None;
      current := Group([], [], [], true);
      answered, outcomes, roundNodes, tried, delays, troubles := {}, [], [], [], [], 0;
    }

    /** A joiner, or none when the bootstrap list is empty. */
    static method Create(config: Config) returns (joiner: Joiner?)
      ensures joiner == null <==> config.bootstrap == []
      ensures joiner != null ==>
              fresh(joiner) && joiner.Valid() && joiner.config == config && joiner.Abstract() == Idle(config)
    {
      if config.bootstrap == [] {
        return null;
      }
      joiner := new Joiner(config);
    }

    /** Takes one node out of a list. */
    static method TakeNode(hosts: seq<string>, index: nat) returns (host: string, rest: seq<string>)
      requires index < |hosts|
      ensures host == hosts[index] && multiset(rest) + multiset{host} == multiset(hosts)
      ensures rest == Without(hosts, index)
    {
      host, rest := hosts[index], hosts[..index] + hosts[index + 1..];
      WithoutOne(hosts, index);
    }

    method Init()
      modifies this
      ensures Abstract() == old(Abstract()).(rounds := NewRound(config, nodesJoined),
                                             roundNodes := Potential(config, nodesJoined), tried := [])
      ensures calledBack == old(calledBack)
    {
      var potential := Potential(config, nodesJoined);
      roundPreferredNodes := Preferred(config, potential);
      roundNonPreferredNodes := NonPreferred(config, potential, roundPreferredNodes);
      roundNodes, tried := potential, [];
    }

    /** Takes nodes one at a time from this round's lists, the preferred ones first. */
    method FillGroup(target: real, draws: Draws) returns (selected: seq<string>)
      modifies `roundPreferredNodes, `roundNonPreferredNodes
      ensures Selection(selected, Rounds(roundPreferredNodes, roundNonPreferredNodes))
              == Fill(target, old(Rounds(roundPreferredNodes, roundNonPreferredNodes)), [], draws)
    {
      selected := [];
      ghost var from := Rounds(roundPreferredNodes, roundNonPreferredNodes);
      while |selected| as real != target && |roundPreferredNodes| + |roundNonPreferredNodes| != 0
        invariant Fill(target, Rounds(roundPreferredNodes, roundNonPreferredNodes), selected, draws)
                  == Fill(target, from, [], draws)
        decreases |roundPreferredNodes| + |roundNonPreferredNodes|
      {
        var host;
        if |roundPreferredNodes| > 0 {
          host, roundPreferredNodes := TakeNode(roundPreferredNodes, draws(|selected|, |roundPreferredNodes|));
        } else {
          host, roundNonPreferredNodes := TakeNode(roundNonPreferredNodes, draws(|selected|, |roundNonPreferredNodes|));
        }
        selected := selected + [host];
      }
    }

    /** The group of the next requests, from a new round when the last one is exhausted. */
    method SelectNodes(draws: Draws) returns (selected: seq<string>)
      modifies this
      ensures var r := old(Rounds(roundPreferredNodes, roundNonPreferredNodes));
              var sel := JoinRounds.SelectGroup(config, r, nodesJoined, draws);
              && selected == sel.group
              && Abstract() == InRound(config, old(Abstract())).(rounds := sel.rounds)
      ensures calledBack == old(calledBack)
    {
      if roundPreferredNodes == [] && roundNonPreferredNodes == [] {
        Init();
      }
      selected := FillGroup(Target(config, nodesJoined), draws);
    }

    /** Selects a group and sends its requests. */
    method JoinGroup(draws: Draws)
      requires Valid()
      modifies this
      ensures Valid() && Abstract() == NextGroup(config, old(Abstract()), draws)
    {
      var selected := SelectNodes(draws);
      BeginGroup(selected);
    }

    method BeginGroup(selected: seq<string>)
      modifies this
      ensures Abstract() == WithGroup(old(Abstract()), Selection(selected, old(Abstract()).rounds))
      ensures calledBack == old(calledBack)
    {
      current, retryPending := Group(selected, [], [], false), false;
      answered, tried := {}, tried + selected;
    }

    /** On a new joiner: leaves the callback to the next tick when there is nothing to join, and starts the first group
        otherwise. */
    method Join(destroyed: bool, draws: Draws)
      requires Valid() && Abstract() == Idle(config)
      modifies this
      ensures Valid() && Abstract() == Run(config, Opening(destroyed, draws), [])
    {
      if destroyed {
        tick := Some(Aborted);
        return;
      }
      if |config.bootstrap| == 1 && config.bootstrap[0] == config.self {
        assert config.bootstrap == [config.self];
        tick := Some(Alone);
        return;
      }
      JoinGroup(draws);
    }

    method OnTick()
      requires Valid() && Enabled(Abstract(), Tick)
      modifies this
      ensures Valid() && Abstract() == Step(config, old(Abstract()), Tick)
    {
      calledBack, outcomes := true, outcomes + [tick.value];
      tick := None;
    }

    /** Keeps the response of a reply, and lists its node. */
    method NoteReply(i: nat, reply: Reply)
      requires i < |current.nodes|
      modifies this
      ensures Abstract() == Noted(old(Abstract()), i, reply) && calledBack == old(calledBack)
    {
      var node := current.nodes[i];
      answered := answered + {i};
      if reply.Joined? && reply.body.Some? && joinResponses.Some? {
        joinResponses := Some(joinResponses.value + [Response(node, reply.body.value)]);
      }
      if current.calledBack {
        return;
      }
      if reply.Failed? {
        current := current.(failed := current.failed + [node]);
      } else {
        current := current.(joined := current.joined + [node]);
      }
    }

    /** The callback of one join request. */
    method OnNodeReply(i: nat, reply: Reply, elapsed: int, destroyed: bool, draw: Draw)
      requires Valid() && Enabled(Abstract(), Replied(i, reply, elapsed, destroyed, draw))
      modifies this
      ensures Valid() && Abstract() == Step(config, old(Abstract()), Replied(i, reply, elapsed, destroyed, draw))
    {
      var was := current.calledBack;
      NoteReply(i, reply);
      if was {
        return;
      }
      var numCompleted := |current.joined| + |current.failed|;
      if |current.joined| >= JoinSize(config) - |nodesJoined| || numCompleted >= |current.nodes| {
        current := current.(calledBack := true);
        OnGroupDone(elapsed, destroyed, draw);
      }
    }

    /** The callback of a finished group: gives up, completes, or retries after a delay. */
    method OnGroupDone(elapsed: int, destroyed: bool, draw: Draw)
      requires Valid()
      modifies this
      ensures Valid() && Abstract() == OnGroup(config, old(Abstract()), elapsed, destroyed, draw)
    {
      if calledBack {
        return;
      }
      if destroyed {
        calledBack, outcomes := true, outcomes + [Aborted];
        return;
      }
      nodesJoined := nodesJoined + current.joined;
      if |nodesJoined| >= JoinSize(config) {
        outcomes := outcomes + [Complete(nodesJoined, if joinResponses.Some? then joinResponses.value else [])];
        calledBack, joinResponses := true, None;
      } else if elapsed > config.maxJoinDuration {
        calledBack, outcomes := true, outcomes + [DurationExceeded];
      } else {
        ScheduleRetry(FuzzedDelay(config.delayMin, config.delayMax, joinRetries, draw));
      }
    }

    method ScheduleRetry(delay: nat)
      modifies this
      ensures Abstract() == WaitFor(config, old(Abstract()), delay) && calledBack == old(calledBack)
    {
      var oldJoinDelay := joinDelay;
      joinDelay := delay;
      delays, retryPending := delays + [joinDelay], true;
      if config.troubleErrorEnabled && oldJoinDelay < config.delayMax && joinDelay >= config.delayMax {
        troubles := troubles + 1;
      }
    }

    method OnRetryTimeout(draws: Draws)
      requires Valid() && Enabled(Abstract(), Retry(draws))
      modifies this
      ensures Valid() && Abstract() == Step(config, old(Abstract()), Retry(draws))
    {
      joinRetries := joinRetries + 1;
      JoinGroup(draws);
    }
  }
}
