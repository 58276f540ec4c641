/** Which nodes gossip/joiner.js tries, and in which rounds: sampling without replacement, preferred nodes first. */
module JoinRounds {
  import opened Basics
  import opened Delays

  /** `host` is the IP address captured from a host-port, if it has one; `parallelism` may be any number. */
  datatype Config = Config(bootstrap: seq<string>, self: string, host: string -> Option<string>,
                           requestedSize: nat, parallelism: real,
                           delayMin: nat, delayMax: nat, maxJoinDuration: int, troubleErrorEnabled: bool)

  /** The nodes of the current round that are still to be tried. */
  datatype Rounds = Rounds(preferred: seq<string>, nonPreferred: seq<string>)

  datatype Selection = Selection(group: seq<string>, rounds: Rounds)

  /** The random indices of one selection: for the k-th pick among n nodes, whatever index below n
      `Math.floor(Math.random() * n)` yields (`RandomIndexInRange`). */
  type Draws = d: (nat, nat) -> nat | forall k, n :: n > 0 ==> d(k, n) < n
    witness (k: nat, n: nat) => 0

  /** Every bootstrap host but this one and the joined ones. */
  function Potential(c: Config, joined: seq<string>): seq<string> {
    Filter(c.bootstrap, (h: string) => h != c.self && h !in joined)
  }

  /** No more nodes are joined than there are. */
  function JoinSize(c: Config): nat {
    Min(c.requestedSize, |Potential(c, [])|)
  }

  function Preferred(c: Config, potential: seq<string>): seq<string> {
    Filter(potential, (h: string) => c.host(c.self) != c.host(h))
  }

  function NonPreferred(c: Config, potential: seq<string>, preferred: seq<string>): seq<string> {
    if preferred == [] then potential else Filter(potential, (h: string) => h !in preferred)
  }

  function NewRound(c: Config, joined: seq<string>): Rounds {
    var potential := Potential(c, joined);
    var preferred := Preferred(c, potential);
    Rounds(preferred, NonPreferred(c, potential, preferred))
  }

  function Left(r: Rounds): seq<string> {
    r.preferred + r.nonPreferred
  }

  lemma RandomIndexInRange(draw: Draw, n: nat)
    requires n > 0
    ensures 0 <= (draw * n as real).Floor < n
  {
    ScaleBelow(draw, n as real);
    FloorBelow(draw * n as real, n);
  }

  lemma ScaleBelow(draw: Draw, x: real)
    requires x > 0.0
    ensures 0.0 <= draw * x < x
  {
  }

  lemma FloorBelow(x: real, n: nat)
    requires 0.0 <= x < n as real
    ensures 0 <= x.Floor < n
  {
  }

  /** The selection loop from a group picked so far. */
  function Fill(target: real, r: Rounds, group: seq<string>, draws: Draws): Selection
    decreases |r.preferred| + |r.nonPreferred|
  {
    if |group| as real == target || |r.preferred| + |r.nonPreferred| == 0 then Selection(group, r)
    else if |r.preferred| > 0 then
      var i := draws(|group|, |r.preferred|);
      Fill(target, TakePreferred(r, i), group + [r.preferred[i]], draws)
    else
      var i := draws(|group|, |r.nonPreferred|);
      Fill(target, TakeNonPreferred(r, i), group + [r.nonPreferred[i]], draws)
  }

  /** The rounds a selection draws from: new ones once every node of the last round was tried. */
  function Available(c: Config, r: Rounds, joined: seq<string>): Rounds {
    if Left(r) == [] then NewRound(c, joined) else r
  }

  function Target(c: Config, joined: seq<string>): real {
    (JoinSize(c) - |joined|) as real * c.parallelism
  }

  function SelectGroup(c: Config, r: Rounds, joined: seq<string>, draws: Draws): Selection {
    Fill(Target(c, joined), Available(c, r, joined), [], draws)
  }

  // -------- conservation --------

  /** Preferred and non-preferred nodes partition the potential nodes, repetitions included. */
  lemma NewRoundPartitions(c: Config, joined: seq<string>)
    ensures multiset(Left(NewRound(c, joined))) == multiset(Potential(c, joined))
    ensures forall h :: h in Left(NewRound(c, joined)) <==> h in c.bootstrap && h != c.self && h !in joined
    ensures forall h :: h in NewRound(c, joined).preferred ==> c.host(h) != c.host(c.self)
    ensures forall h :: h in NewRound(c, joined).nonPreferred ==> c.host(h) == c.host(c.self)
  {
    var potential := Potential(c, joined);
    var preferred := Preferred(c, potential);
    FilterMember(c.bootstrap, (h: string) => h != c.self && h !in joined);
    FilterMember(potential, (h: string) => c.host(c.self) != c.host(h));
    if preferred == [] {
      assert Left(NewRound(c, joined)) == potential;
    } else {
      FilterMember(potential, (h: string) => h !in preferred);
      FilterPartition(potential, (h: string) => c.host(c.self) != c.host(h), (h: string) => h !in preferred);
    }
    SameMembers(Left(NewRound(c, joined)), potential);
  }

  lemma SameMembers(a: seq<string>, b: seq<string>)
    requires multiset(a) == multiset(b)
    ensures |a| == |b| && forall h :: h in a <==> h in b
    ensures NoDup(a) <==> NoDup(b)
  {
    assert |a| == |multiset(a)| == |multiset(b)| == |b|;
    forall h ensures h in a <==> h in b {
      assert h in multiset(a) <==> h in multiset(b);
    }
    CountNoDup(a);
    CountNoDup(b);
  }

  lemma {:induction false} CountNoDup(s: seq<string>)
    ensures NoDup(s) <==> forall h :: multiset(s)[h] <= 1
  {
    if s != [] {
      var init, last := s[..|s| - 1], s[|s| - 1];
      CountNoDup(init);
      assert s == init + [last];
      assert multiset(s) == multiset(init) + multiset{last};
      assert last in init <==> multiset(init)[last] > 0;
      if NoDup(s) {
        assert NoDup(init) && last !in init;
      }
      if forall h :: multiset(s)[h] <= 1 {
        forall h ensures multiset(init)[h] <= 1 {
          assert multiset(init)[h] <= multiset(s)[h];
        }
        assert multiset(s)[last] == multiset(init)[last] + 1;
      }
    }
  }

  function TakePreferred(r: Rounds, i: nat): Rounds
    requires i < |r.preferred|
  {
    r.(preferred := Without(r.preferred, i))
  }

  function TakeNonPreferred(r: Rounds, i: nat): Rounds
    requires i < |r.nonPreferred|
  {
    r.(nonPreferred := Without(r.nonPreferred, i))
  }

  lemma TakingConserves(r: Rounds, group: seq<string>, i: nat)
    ensures i < |r.preferred| ==>
              multiset(group + [r.preferred[i]]) + multiset(Left(TakePreferred(r, i)))
              == multiset(group) + multiset(Left(r))
    ensures i < |r.nonPreferred| ==>
              multiset(group + [r.nonPreferred[i]]) + multiset(Left(TakeNonPreferred(r, i)))
              == multiset(group) + multiset(Left(r))
  {
    if i < |r.preferred| {
      WithoutOne(r.preferred, i);
    }
    if i < |r.nonPreferred| {
      WithoutOne(r.nonPreferred, i);
    }
  }

  /** The selection loop terminates, moves nodes and loses none, takes the preferred ones first, and stops only at the
      target or when nothing is left. */
  lemma {:induction false} FillConserves(target: real, r: Rounds, group: seq<string>, draws: Draws)
    ensures var sel := Fill(target, r, group, draws);
            && group <= sel.group
            && multiset(sel.group) + multiset(Left(sel.rounds)) == multiset(group) + multiset(Left(r))
            && (|sel.group| as real == target || Left(sel.rounds) == [])
            && (r.preferred == [] ==> sel.rounds.preferred == [])
            && (sel.rounds.preferred != [] ==> sel.rounds.nonPreferred == r.nonPreferred)
    decreases |r.preferred| + |r.nonPreferred|
  {
    if |group| as real == target || |r.preferred| + |r.nonPreferred| == 0 {
    } else if |r.preferred| > 0 {
      var i := draws(|group|, |r.preferred|);
      TakingConserves(r, group, i);
      FillConserves(target, TakePreferred(r, i), group + [r.preferred[i]], draws);
    } else {
      var i := draws(|group|, |r.nonPreferred|);
      TakingConserves(r, group, i);
      FillConserves(target, TakeNonPreferred(r, i), group + [r.nonPreferred[i]], draws);
    }
  }

  /** A selected group and what is left are together exactly what was available; preferred nodes are taken first; the
      group has the target size or takes everything. */
  lemma SelectionConserves(c: Config, r: Rounds, joined: seq<string>, draws: Draws)
    ensures var sel, from := SelectGroup(c, r, joined, draws), Available(c, r, joined);
            && multiset(sel.group) + multiset(Left(sel.rounds)) == multiset(Left(from))
            && (|sel.group| as real == Target(c, joined) || Left(sel.rounds) == [])
            && (sel.rounds.preferred != [] ==> sel.rounds.nonPreferred == from.nonPreferred)
  {
    FillConserves(Target(c, joined), Available(c, r, joined), [], draws);
  }

  /** A group is empty exactly when its target is zero or there is nothing to take. */
  lemma EmptyGroupIff(c: Config, r: Rounds, joined: seq<string>, draws: Draws)
    ensures SelectGroup(c, r, joined, draws).group == [] <==>
            Target(c, joined) == 0.0 || Left(Available(c, r, joined)) == []
  {
    var from := Available(c, r, joined);
    var sel := SelectGroup(c, r, joined, draws);
    SelectionConserves(c, r, joined, draws);
    assert |multiset(sel.group)| + |multiset(Left(sel.rounds))| == |multiset(Left(from))|;
  }
}
