/** The table of changes to gossip, gossip/dissemination.js, over every sequence of records, issues and replies. */
module Dissemination {
  import opened Basics
  import StateTransitions

  /** A membership change; changes taken from a full sync carry no id. */
  datatype Change = Change(id: Option<string>, update: StateTransitions.Update, source: Option<string>,
                           sourceInc: Option<int>)

  /** A table entry: the recorded change and how often it was piggybacked. */
  datatype Entry = Entry(change: Change, piggybackCount: nat)

  /** `changes` is the object indexed by address, in insertion order. `outstanding` holds the lists issued as sender
      whose reply has not come, `exhausted` counts the `changesExhausted` events. */
  datatype State = State(changes: seq<Entry>, maxPiggybackCount: nat, outstanding: map<nat, seq<Change>>,
                         nextToken: nat, exhausted: nat)

  /** `IssueAsReceiver` carries the sender of the ping, whether the two checksums agree, and the membership as
      changes. */
  datatype Event =
    | Record(change: Change)
    | IssueAsSender
    | SenderReply(token: nat, ok: bool)
    | IssueAsReceiver(senderAddr: Option<string>, senderInc: Option<int>, sameChecksum: bool, members: seq<Change>)
    | AdjustMax(serverCount: nat)
    | ResetMax
    | Clear

  const PIGGYBACK_FACTOR := 15
  const FRESH := State([], 1, map[], 0, 0)

  // -------- the table --------

  function Address(e: Entry): string {
    e.change.update.address
  }

  ghost predicate OneEntryPerAddress(t: seq<Entry>) {
    forall i, j :: 0 <= i < j < |t| ==> Address(t[i]) != Address(t[j])
  }

  /** Assignment to the object: an existing address keeps its place. */
  function PutEntry(t: seq<Entry>, e: Entry): (r: seq<Entry>)
    ensures forall x :: x in r <==> x == e || (x in t && x in r)
  {
    if t == [] then [e]
    else if Address(t[0]) == Address(e) then [e] + t[1..]
    else [t[0]] + PutEntry(t[1..], e)
  }

  function Kept(t: seq<Entry>, max: nat, skip: Change -> bool): seq<Entry> {
    Filter(t, (e: Entry) => skip(e.change) || e.piggybackCount < max)
  }

  function Issued(t: seq<Entry>, max: nat, skip: Change -> bool): seq<Change> {
    if t == [] then []
    else
      var last := t[|t| - 1];
      Issued(t[..|t| - 1], max, skip) +
      (if !skip(last.change) && last.piggybackCount < max then [last.change] else [])
  }

  /** One issued change raises the counter at its address if the entry there still has its id. */
  function BumpOne(t: seq<Entry>, c: Change): (r: seq<Entry>)
    ensures |r| == |t|
    ensures forall i :: 0 <= i < |t| ==> r[i] == Raised(t[i], c)
  {
    seq(|t|, i requires 0 <= i < |t| => Raised(t[i], c))
  }

  function Raised(e: Entry, c: Change): Entry {
    if Address(e) == c.update.address && e.change.id == c.id then e.(piggybackCount := e.piggybackCount + 1) else e
  }

  function Bump(t: seq<Entry>, issued: seq<Change>): (r: seq<Entry>)
    ensures |r| == |t|
    ensures forall i :: 0 <= i < |t| ==> r[i].change == t[i].change
  {
    if issued == [] then t else BumpOne(Bump(t, issued[..|issued| - 1]), issued[|issued| - 1])
  }

  // -------- the steps --------

  /** The source's truthiness tests on the sender and on the source of a change. */
  predicate FromSender(senderAddr: Option<string>, senderInc: Option<int>, c: Change) {
    && senderAddr.Some? && senderAddr.value != ""
    && senderInc.Some? && senderInc.value != 0
    && c.source == senderAddr && c.sourceInc == senderInc
  }

  predicate NoFilter(c: Change) { false }

  function SkipFor(e: Event): Change -> bool {
    if e.IssueAsReceiver? then (c: Change) => FromSender(e.senderAddr, e.senderInc, c) else NoFilter
  }

  /** `_issueAs`: drops the exhausted entries, and says so when none is left. */
  function AfterIssue(s: State, skip: Change -> bool): State {
    var kept := Kept(s.changes, s.maxPiggybackCount, skip);
    s.(changes := kept, exhausted := s.exhausted + if s.changes != [] && kept == [] then 1 else 0)
  }

  /** What a receiver sends back: the issued changes, or the whole membership when there are none and checksums
      differ. */
  function Returned(s: State, e: Event): seq<Change>
    requires e.IssueAsReceiver?
  {
    var issued := Issued(s.changes, s.maxPiggybackCount, SkipFor(e));
    if issued == [] && !e.sameChecksum then e.members else issued
  }

  /** The least k with m <= 10^k. */
  function CeilLog10(m: nat): nat {
    if m <= 1 then 0 else 1 + CeilLog10((m + 9) / 10)
  }

  function Step(s: State, e: Event): State {
    match e
    case Record(c) => s.(changes := PutEntry(s.changes, Entry(c, 0)))
    case IssueAsSender =>
      var issued := Issued(s.changes, s.maxPiggybackCount, SkipFor(e));
      AfterIssue(s, SkipFor(e)).(outstanding := s.outstanding[s.nextToken := issued], nextToken := s.nextToken + 1)
    case SenderReply(token, ok) =>
      if token !in s.outstanding then s
      else
        s.(changes := if ok then Bump(s.changes, s.outstanding[token]) else s.changes,
           outstanding := s.outstanding - {token})
    case IssueAsReceiver(_, _, _, _) =>
      var t := AfterIssue(s, SkipFor(e));
      t.(changes := Bump(t.changes, Returned(s, e)))
    case AdjustMax(n) => s.(maxPiggybackCount := PIGGYBACK_FACTOR * CeilLog10(n + 1))
    case ResetMax => s.(maxPiggybackCount := 1)
    case Clear => s.(changes := [])
  }

  function Run(es: seq<Event>): State {
    if es == [] then FRESH else Step(Run(es[..|es| - 1]), es[|es| - 1])
  }

  /** The changes recorded in a run, in order. */
  function Recorded(es: seq<Event>): seq<Change> {
    if es == [] then []
    else Recorded(es[..|es| - 1]) + (if es[|es| - 1].Record? then [es[|es| - 1].change] else [])
  }

  /** Every recorded change has an id of its own, a full sync lists changes without ids. */
  ghost predicate Legal(es: seq<Event>) {
    && (forall i :: 0 <= i < |Recorded(es)| ==> Recorded(es)[i].id.Some?)
    && (forall i, j :: 0 <= i < j < |Recorded(es)| ==> Recorded(es)[i].id != Recorded(es)[j].id)
    && (forall i :: 0 <= i < |es| && es[i].IssueAsReceiver? ==> NoIds(es[i].members))
  }

  ghost predicate NoIds(members: seq<Change>) {
    forall c :: c in members ==> c.id == None
  }

  // -------- what the counters mean, read off the run alone --------

  /** How many lists returned as receiver held the change. */
  function ReceiverIssues(es: seq<Event>, c: Change): nat {
    if es == [] then 0
    else
      var init, e := es[..|es| - 1], es[|es| - 1];
      ReceiverIssues(init, c) + if e.IssueAsReceiver? && c in Returned(Run(init), e) then 1 else 0
  }

  /** How many lists issued as sender that held the change were acknowledged. */
  function AckedSenderIssues(es: seq<Event>, c: Change): nat {
    if es == [] then 0
    else
      var init, e := es[..|es| - 1], es[|es| - 1];
      AckedSenderIssues(init, c) +
      if e.SenderReply? && e.ok && e.token in Run(init).outstanding && c in Run(init).outstanding[e.token] then 1 else 0
  }

  function Issues(es: seq<Event>, c: Change): nat {
    ReceiverIssues(es, c) + AckedSenderIssues(es, c)
  }

  /** How many changes of a list are for the address of `c` and have its id, or none as it has none. */
  function Matching(issued: seq<Change>, c: Change): nat {
    if issued == [] then 0
    else
      var last := issued[|issued| - 1];
      Matching(issued[..|issued| - 1], c) + if last.update.address == c.update.address && last.id == c.id then 1 else 0
  }

  /** What one event adds to the counter of `c`: how often `c` is matched by the list that it returns or
      acknowledges. */
  function NewBumps(s: State, e: Event, c: Change): nat {
    if e.IssueAsReceiver? then Matching(Returned(s, e), c)
    else if e.SenderReply? && e.ok && e.token in s.outstanding then Matching(s.outstanding[e.token], c)
    else 0
  }

  /** How often `c` was matched since a change was last recorded for its address. */
  function Bumps(es: seq<Event>, c: Change): nat {
    if es == [] then 0
    else
      var init, e := es[..|es| - 1], es[|es| - 1];
      if e.Record? && e.change.update.address == c.update.address then 0 else Bumps(init, c) + NewBumps(Run(init), e, c)
  }

  // -------- lemmas on the table --------

  lemma {:induction false} PutMembers(t: seq<Entry>, e: Entry)
    requires OneEntryPerAddress(t)
    ensures OneEntryPerAddress(PutEntry(t, e))
    ensures forall x :: x in PutEntry(t, e) <==> x == e || (x in t && Address(x) != Address(e))
  {
    if t != [] && Address(t[0]) != Address(e) {
      PutMembers(t[1..], e);
      assert t == [t[0]] + t[1..];
      var r := PutEntry(t[1..], e);
      forall j | 0 <= j < |r| ensures Address(r[j]) != Address(t[0]) {
        assert r[j] in r;
      }
    } else if t != [] {
      assert t == [t[0]] + t[1..];
      forall j | 0 <= j < |t[1..]| ensures Address(t[1..][j]) != Address(t[0]) {
        assert t[1..][j] == t[j + 1];
      }
    }
  }

  lemma {:induction false} KeptMembers(t: seq<Entry>, max: nat, skip: Change -> bool)
    requires OneEntryPerAddress(t)
    ensures OneEntryPerAddress(Kept(t, max, skip))
    ensures forall x :: x in Kept(t, max, skip) <==> x in t && (skip(x.change) || x.piggybackCount < max)
  {
    FilterMember(t, (e: Entry) => skip(e.change) || e.piggybackCount < max);
    if t != [] {
      var init, last := t[..|t| - 1], t[|t| - 1];
      KeptMembers(init, max, skip);
      forall x | x in Kept(init, max, skip) ensures Address(x) != Address(last) {
        assert x in init;
      }
    }
  }

  lemma {:induction false} IssuedMembers(t: seq<Entry>, max: nat, skip: Change -> bool)
    requires OneEntryPerAddress(t)
    ensures forall c :: c in Issued(t, max, skip) <==>
              exists x :: x in t && x.change == c && !skip(c) && x.piggybackCount < max
    ensures NoDup(Issued(t, max, skip))
  {
    if t != [] {
      var init, last := t[..|t| - 1], t[|t| - 1];
      IssuedMembers(init, max, skip);
      assert t == init + [last];
      forall x | x in init ensures x.change != last.change {
        assert exists k :: 0 <= k < |init| && t[k] == x;
      }
      forall c
        ensures c in Issued(t, max, skip) <==>
                exists x :: x in t && x.change == c && !skip(c) && x.piggybackCount < max
      {
        assert last in t;
        assert forall x :: x in t <==> x in init || x == last;
      }
    }
  }

  /** No two of the changes share an id. */
  ghost predicate DistinctIds(u: set<Change>) {
    forall a, b :: a in u && b in u && a.id == b.id ==> a == b
  }

  /** Bumping by a list without repetition raises by one exactly the entries whose change is in it. */
  lemma {:induction false} BumpExact(t: seq<Entry>, issued: seq<Change>, u: set<Change>)
    requires DistinctIds(u) && NoDup(issued)
    requires (forall x :: x in t ==> x.change in u) && forall c :: c in issued ==> c in u
    ensures forall i :: 0 <= i < |t| ==>
              Bump(t, issued)[i].piggybackCount == t[i].piggybackCount + if t[i].change in issued then 1 else 0
  {
    if issued != [] {
      var init, last := issued[..|issued| - 1], issued[|issued| - 1];
      BumpExact(t, init, u);
      assert issued == init + [last];
      forall i | 0 <= i < |t|
        ensures Bump(t, issued)[i].piggybackCount == t[i].piggybackCount + if t[i].change in issued then 1 else 0
      {
        assert t[i] in t;
        assert t[i].change == last <==> t[i].change.id == last.id;
      }
    }
  }

  /** A full sync bumps nothing, as its changes have no ids. */
  lemma {:induction false} BumpByFullSync(t: seq<Entry>, members: seq<Change>)
    requires NoIds(members) && forall x :: x in t ==> x.change.id.Some?
    ensures Bump(t, members) == t
  {
    if members != [] {
      var init, last := members[..|members| - 1], members[|members| - 1];
      BumpByFullSync(t, init);
      assert last in members;
      forall i | 0 <= i < |t| ensures BumpOne(t, last)[i] == t[i] {
        assert t[i] in t;
      }
    }
  }

  /** Bumping by a list raises each counter by how often the list matches the change. */
  lemma {:induction false} BumpCounts(t: seq<Entry>, issued: seq<Change>, i: nat)
    requires i < |t|
    ensures Bump(t, issued)[i] == Entry(t[i].change, t[i].piggybackCount + Matching(issued, t[i].change))
  {
    if issued != [] {
      BumpCounts(t, issued[..|issued| - 1], i);
    }
  }

  /** An issued list matches a change at most once, and only if the table has an entry for its address. */
  lemma {:induction false} IssuedMatches(t: seq<Entry>, max: nat, skip: Change -> bool, c: Change)
    requires OneEntryPerAddress(t)
    ensures Matching(Issued(t, max, skip), c) <= 1
    ensures (forall i :: 0 <= i < |t| ==> Address(t[i]) != c.update.address) ==> Matching(Issued(t, max, skip), c) == 0
  {
    if t != [] {
      var init, last := t[..|t| - 1], t[|t| - 1];
      IssuedMatches(init, max, skip, c);
      MatchingSnoc(Issued(init, max, skip), last.change, c);
      assert Issued(init, max, skip) + [] == Issued(init, max, skip);
      assert forall i :: 0 <= i < |init| ==> init[i] == t[i] && Address(init[i]) != Address(last);
    }
  }

  lemma MatchingSnoc(issued: seq<Change>, d: Change, c: Change)
    ensures Matching(issued + [d], c)
            == Matching(issued, c) + if d.update.address == c.update.address && d.id == c.id then 1 else 0
  {
    assert (issued + [d])[..|issued|] == issued;
  }

  /** It matches a change of the table exactly when it holds it. */
  lemma {:induction false} IssuedMatchesEntry(t: seq<Entry>, max: nat, skip: Change -> bool, i: nat)
    requires OneEntryPerAddress(t) && i < |t|
    ensures Matching(Issued(t, max, skip), t[i].change) ==
            if !skip(t[i].change) && t[i].piggybackCount < max then 1 else 0
  {
    var init, last := t[..|t| - 1], t[|t| - 1];
    MatchingSnoc(Issued(init, max, skip), last.change, t[i].change);
    assert Issued(init, max, skip) + [] == Issued(init, max, skip);
    if i < |init| {
      assert init[i] == t[i];
      IssuedMatchesEntry(init, max, skip, i);
    } else {
      assert forall j :: 0 <= j < |init| ==> init[j] == t[j] && Address(init[j]) != Address(last);
      IssuedMatches(init, max, skip, last.change);
    }
  }

  lemma {:induction false} MatchesNobody(issued: seq<Change>, c: Change)
    ensures Matching(issued, c) == 0 <==>
            forall d :: d in issued && d.update.address == c.update.address ==> d.id != c.id
  {
    if issued != [] {
      var init, last := issued[..|issued| - 1], issued[|issued| - 1];
      MatchesNobody(init, c);
      assert issued == init + [last];
      assert forall d :: d in issued <==> d in init || d == last;
    }
  }

  // -------- every run, whatever the ids --------

  /** The table has one entry for each address, and an outstanding list matches each change at most once. */
  ghost predicate Shape(s: State) {
    && OneEntryPerAddress(s.changes)
    && (forall t, c :: t in s.outstanding ==> Matching(s.outstanding[t], c) <= 1)
  }

  lemma BumpKeepsAddresses(t: seq<Entry>, issued: seq<Change>)
    requires OneEntryPerAddress(t)
    ensures OneEntryPerAddress(Bump(t, issued))
  {
  }

  lemma StepKeepsShape(s: State, e: Event)
    requires Shape(s)
    ensures Shape(Step(s, e))
  {
    match e
    case Record(c) => PutMembers(s.changes, Entry(c, 0));
    case IssueAsSender =>
      KeptMembers(s.changes, s.maxPiggybackCount, SkipFor(e));
      forall c ensures Matching(Issued(s.changes, s.maxPiggybackCount, SkipFor(e)), c) <= 1 {
        IssuedMatches(s.changes, s.maxPiggybackCount, SkipFor(e), c);
      }
    case IssueAsReceiver(_, _, _, _) =>
      KeptMembers(s.changes, s.maxPiggybackCount, SkipFor(e));
      BumpKeepsAddresses(AfterIssue(s, SkipFor(e)).changes, Returned(s, e));
    case SenderReply(token, ok) =>
      if token in s.outstanding {
        BumpKeepsAddresses(s.changes, s.outstanding[token]);
      }
    case _ =>
  }

  lemma {:induction false} RunKeepsShape(es: seq<Event>)
    ensures Shape(Run(es))
  {
    if es != [] {
      RunKeepsShape(es[..|es| - 1]);
      StepKeepsShape(Run(es[..|es| - 1]), es[|es| - 1]);
    }
  }

  predicate Issuing(e: Event) {
    e.IssueAsSender? || e.IssueAsReceiver?
  }

  /** Where an entry of the table comes from: it was just recorded, or it was there before with another counter. */
  ghost predicate CameFromEntry(s: State, e: Event, x: Entry, y: Entry) {
    && y in s.changes && x.change == y.change
    && x.piggybackCount == y.piggybackCount + NewBumps(s, e, y.change)
    && (Issuing(e) ==> SkipFor(e)(y.change) || y.piggybackCount < s.maxPiggybackCount)
  }

  lemma BumpedFrom(t: seq<Entry>, issued: seq<Change>, x: Entry) returns (y: Entry)
    requires x in Bump(t, issued)
    ensures y in t && x == Entry(y.change, y.piggybackCount + Matching(issued, y.change))
  {
    var r := Bump(t, issued);
    var i :| 0 <= i < |r| && r[i] == x;
    BumpCounts(t, issued, i);
    y := t[i];
  }

  lemma EntryBefore(s: State, e: Event, x: Entry) returns (y: Entry)
    requires Shape(s) && x in Step(s, e).changes
    requires e.Record? ==> Address(x) != e.change.update.address
    ensures CameFromEntry(s, e, x, y)
  {
    y := x;
    match e
    case Record(c) => PutMembers(s.changes, Entry(c, 0));
    case IssueAsSender => KeptMembers(s.changes, s.maxPiggybackCount, SkipFor(e));
    case IssueAsReceiver(_, _, _, _) =>
      KeptMembers(s.changes, s.maxPiggybackCount, SkipFor(e));
      y := BumpedFrom(AfterIssue(s, SkipFor(e)).changes, Returned(s, e), x);
    case SenderReply(token, ok) =>
      if token in s.outstanding && ok {
        y := BumpedFrom(s.changes, s.outstanding[token], x);
      }
    case _ =>
  }

  /** An entry for the address just recorded is the new one. */
  lemma JustRecorded(s: State, c: Change, x: Entry)
    requires Shape(s) && x in Step(s, Record(c)).changes && Address(x) == c.update.address
    ensures x == Entry(c, 0)
  {
    PutMembers(s.changes, Entry(c, 0));
  }

  /** On every run, whatever the ids: a counter is how often its change was matched since it was recorded, by lists
      returned as receiver and by acknowledged lists issued as sender. */
  lemma {:induction false} CounterCountsMatches(es: seq<Event>, x: Entry)
    requires x in Run(es).changes
    ensures x.piggybackCount == Bumps(es, x.change)
  {
    var init, e := es[..|es| - 1], es[|es| - 1];
    RunKeepsShape(init);
    if e.Record? && e.change.update.address == Address(x) {
      JustRecorded(Run(init), e.change, x);
    } else {
      var y := EntryBefore(Run(init), e, x);
      CounterCountsMatches(init, y);
    }
  }

  // -------- every run in which recorded changes have ids of their own --------

  function RecordedSet(es: seq<Event>): set<Change> {
    set c | c in Recorded(es)
  }

  /** The counters are exact: nothing is issued that was not recorded, and each counter is the number of issues. */
  ghost predicate Inv(es: seq<Event>, s: State) {
    && OneEntryPerAddress(s.changes)
    && (forall x :: x in s.changes ==> x.change in RecordedSet(es) && x.piggybackCount == Issues(es, x.change))
    && (forall t :: t in s.outstanding ==> t < s.nextToken && NoDup(s.outstanding[t]))
    && (forall t, c :: t in s.outstanding && c in s.outstanding[t] ==> c in RecordedSet(es))
    && (forall c: Change :: c.id.Some? && c !in RecordedSet(es) ==> Issues(es, c) == 0)
  }

  /** What one event adds to the issues of a change. */
  function NewIssue(s: State, e: Event, c: Change): nat {
    if e.IssueAsReceiver? && c in Returned(s, e) then 1
    else if e.SenderReply? && e.ok && e.token in s.outstanding && c in s.outstanding[e.token] then 1
    else 0
  }

  lemma Snoc(es: seq<Event>, e: Event)
    ensures Run(es + [e]) == Step(Run(es), e)
    ensures RecordedSet(es + [e]) == RecordedSet(es) + (if e.Record? then {e.change} else {})
    ensures forall c :: Issues(es + [e], c) == Issues(es, c) + NewIssue(Run(es), e, c)
  {
    RunSnoc(es, e);
    RecordedSnoc(es, e);
    forall c ensures Issues(es + [e], c) == Issues(es, c) + NewIssue(Run(es), e, c) {
      IssuesSnoc(es, e, c);
    }
  }

  lemma RunSnoc(es: seq<Event>, e: Event)
    ensures Run(es + [e]) == Step(Run(es), e)
  {
    assert (es + [e])[..|es|] == es;
  }

  lemma IssuesSnoc(es: seq<Event>, e: Event, c: Change)
    ensures Issues(es + [e], c) == Issues(es, c) + NewIssue(Run(es), e, c)
  {
    assert (es + [e])[..|es|] == es;
  }

  lemma RecordedSnoc(es: seq<Event>, e: Event)
    ensures Recorded(es + [e]) == Recorded(es) + (if e.Record? then [e.change] else [])
    ensures RecordedSet(es + [e]) == RecordedSet(es) + (if e.Record? then {e.change} else {})
  {
    assert (es + [e])[..|es|] == es;
  }

  lemma LegalPrefix(es: seq<Event>, e: Event)
    requires Legal(es + [e])
    ensures Legal(es)
    ensures e.IssueAsReceiver? ==> NoIds(e.members)
  {
    RecordedSnoc(es, e);
    assert forall i :: 0 <= i < |Recorded(es)| ==> Recorded(es)[i] == Recorded(es + [e])[i];
    assert forall i :: 0 <= i < |es| ==> es[i] == (es + [e])[i];
    assert (es + [e])[|es|] == e;
  }

  lemma LegalIds(es: seq<Event>)
    requires Legal(es)
    ensures DistinctIds(RecordedSet(es)) && forall c :: c in RecordedSet(es) ==> c.id.Some?
  {
    forall a, b | a in RecordedSet(es) && b in RecordedSet(es) && a.id == b.id ensures a == b {
      var i :| 0 <= i < |Recorded(es)| && Recorded(es)[i] == a;
      var j :| 0 <= j < |Recorded(es)| && Recorded(es)[j] == b;
      assert i == j;
    }
  }

  lemma RecordIsNew(es: seq<Event>, c: Change)
    requires Legal(es + [Record(c)])
    ensures c.id.Some? && c !in RecordedSet(es)
  {
    var es' := es + [Record(c)];
    var rs := Recorded(es);
    RecordedSnoc(es, Record(c));
    forall i | 0 <= i < |rs| ensures rs[i] != c {
      assert Recorded(es')[i].id != Recorded(es')[|rs|].id;
    }
    assert Recorded(es')[|rs|].id.Some?;
  }

  lemma RecordKeepsInv(es: seq<Event>, c: Change)
    requires Legal(es + [Record(c)]) && Inv(es, Run(es))
    ensures Inv(es + [Record(c)], Run(es + [Record(c)]))
  {
    Snoc(es, Record(c));
    RecordIsNew(es, c);
    PutMembers(Run(es).changes, Entry(c, 0));
  }

  lemma SenderIssueKeepsInv(es: seq<Event>)
    requires Inv(es, Run(es))
    ensures Inv(es + [IssueAsSender], Run(es + [IssueAsSender]))
  {
    Snoc(es, IssueAsSender);
    var s := Run(es);
    KeptMembers(s.changes, s.maxPiggybackCount, SkipFor(IssueAsSender));
    IssuedMembers(s.changes, s.maxPiggybackCount, SkipFor(IssueAsSender));
  }

  /** The bumped table of a run: the same changes, each counter raised when its change was issued. */
  lemma BumpMembers(t: seq<Entry>, issued: seq<Change>, u: set<Change>)
    requires OneEntryPerAddress(t) && DistinctIds(u) && NoDup(issued)
    requires (forall x :: x in t ==> x.change in u) && forall c :: c in issued ==> c in u
    ensures OneEntryPerAddress(Bump(t, issued))
    ensures forall x :: x in Bump(t, issued) ==>
              exists y :: y in t && x.change == y.change &&
                x.piggybackCount == y.piggybackCount + (if y.change in issued then 1 else 0)
  {
    BumpExact(t, issued, u);
    var r := Bump(t, issued);
    forall x | x in r
      ensures exists y :: y in t && x.change == y.change &&
                x.piggybackCount == y.piggybackCount + (if y.change in issued then 1 else 0)
    {
      var i :| 0 <= i < |r| && r[i] == x;
      assert t[i] in t;
    }
  }

  lemma ReplyKeepsInv(es: seq<Event>, e: Event)
    requires e.SenderReply? && Legal(es + [e]) && Inv(es, Run(es))
    ensures Inv(es + [e], Run(es + [e]))
  {
    Snoc(es, e);
    var s := Run(es);
    LegalPrefix(es, e);
    LegalIds(es);
    if e.token in s.outstanding && e.ok {
      BumpMembers(s.changes, s.outstanding[e.token], RecordedSet(es));
    }
  }

  lemma ReceiverKeepsInv(es: seq<Event>, e: Event)
    requires e.IssueAsReceiver? && Legal(es + [e]) && Inv(es, Run(es))
    ensures Inv(es + [e], Run(es + [e]))
  {
    Snoc(es, e);
    var s := Run(es);
    LegalPrefix(es, e);
    LegalIds(es);
    KeptMembers(s.changes, s.maxPiggybackCount, SkipFor(e));
    IssuedMembers(s.changes, s.maxPiggybackCount, SkipFor(e));
    var kept := AfterIssue(s, SkipFor(e)).changes;
    if Returned(s, e) == Issued(s.changes, s.maxPiggybackCount, SkipFor(e)) {
      BumpMembers(kept, Returned(s, e), RecordedSet(es));
    } else {
      BumpByFullSync(kept, e.members);
    }
  }

  lemma {:induction false} LegalRunKeepsInv(es: seq<Event>)
    requires Legal(es)
    ensures Inv(es, Run(es))
  {
    if es != [] {
      var init, e := es[..|es| - 1], es[|es| - 1];
      assert es == init + [e];
      Snoc(init, e);
      LegalPrefix(init, e);
      LegalRunKeepsInv(init);
      match e
      case Record(c) => RecordKeepsInv(init, c);
      case IssueAsSender => SenderIssueKeepsInv(init);
      case SenderReply(_, _) => ReplyKeepsInv(init, e);
      case IssueAsReceiver(_, _, _, _) => ReceiverKeepsInv(init, e);
      case _ =>
    }
  }

  /** On every run the table and the outstanding lists keep their shape; and with distinct ids only recorded changes are
      held and every counter is the number of issues. */
  lemma RunKeepsInv(es: seq<Event>)
    ensures Shape(Run(es))
    ensures Legal(es) ==> Inv(es, Run(es))
  {
    RunKeepsShape(es);
    if Legal(es) {
      LegalRunKeepsInv(es);
    }
  }

  /** On every run, a counter is how often its change was matched since it was recorded; when recorded changes have
      ids of their own, this is the number of its receiver issues plus its acknowledged sender issues. */
  lemma CounterIsExact(es: seq<Event>, x: Entry)
    requires x in Run(es).changes
    ensures x.piggybackCount == Bumps(es, x.change)
    ensures Legal(es) ==> Bumps(es, x.change) == ReceiverIssues(es, x.change) + AckedSenderIssues(es, x.change)
  {
    RunKeepsInv(es);
    CounterCountsMatches(es, x);
  }

  /** On every run, issuing drops a change exactly when it is not filtered and was matched at least as many times as the
      maximum of that moment; every other change stays. When recorded changes have ids of their own, it was issued that
      many times. */
  lemma DroppedOnlyWhenExhausted(es: seq<Event>, e: Event, x: Entry)
    requires Issuing(e) && x in Run(es).changes
    ensures (forall y :: y in Run(es + [e]).changes ==> y.change != x.change) <==>
            !SkipFor(e)(x.change) && Bumps(es, x.change) >= Run(es).maxPiggybackCount
    ensures Legal(es) ==> Bumps(es, x.change) == Issues(es, x.change)
  {
    RunSnoc(es, e);
    CounterIsExact(es, x);
    RunKeepsShape(es);
    var s := Run(es);
    KeptMembers(s.changes, s.maxPiggybackCount, SkipFor(e));
    SurvivesIffKept(s.changes, Kept(s.changes, s.maxPiggybackCount, SkipFor(e)), Run(es + [e]).changes, x);
  }

  lemma SurvivesIffKept(t: seq<Entry>, kept: seq<Entry>, after: seq<Entry>, x: Entry)
    requires OneEntryPerAddress(t) && x in t && forall y :: y in kept ==> y in t
    requires |after| == |kept| && forall i :: 0 <= i < |kept| ==> after[i].change == kept[i].change
    ensures x in kept <==> exists y :: y in after && y.change == x.change
  {
    if x in kept {
      var i :| 0 <= i < |kept| && kept[i] == x;
      assert after[i] in after;
    }
    if y :| y in after && y.change == x.change {
      var i :| 0 <= i < |after| && after[i] == y;
      assert kept[i] in t;
      SameChangeSameEntry(t, kept[i], x);
    }
  }

  lemma SameChangeSameEntry(t: seq<Entry>, x: Entry, y: Entry)
    requires OneEntryPerAddress(t) && x in t && y in t && x.change == y.change
    ensures x == y
  {
    var i :| 0 <= i < |t| && t[i] == x;
    var j :| 0 <= j < |t| && t[j] == y;
    assert i == j;
  }

  /** On every run, an acknowledgement, however late, raises a counter by one if its list has a change for that address
      with that id, and otherwise leaves it. */
  lemma LateAckRaisesMatches(es: seq<Event>, token: nat, i: nat)
    requires token in Run(es).outstanding && i < |Run(es).changes|
    ensures var s, t := Run(es), Step(Run(es), SenderReply(token, true));
            && |t.changes| == |s.changes|
            && t.changes[i].change == s.changes[i].change
            && t.changes[i].piggybackCount
               == s.changes[i].piggybackCount + Matching(s.outstanding[token], s.changes[i].change)
            && Matching(s.outstanding[token], s.changes[i].change) <= 1
  {
    RunKeepsShape(es);
    BumpCounts(Run(es).changes, Run(es).outstanding[token], i);
  }

  ghost predicate OtherIds(issued: seq<Change>, c: Change) {
    forall d :: d in issued && d.update.address == c.update.address ==> d.id != c.id
  }

  /** A late acknowledgement spares a change that its list does not hold, such as the newer one that replaced a change
      of the list at its address, exactly when every change of the list for that address has another id. */
  lemma LateAckSparesNewerChangeIff(es: seq<Event>, token: nat, i: nat)
    requires token in Run(es).outstanding && i < |Run(es).changes|
    requires Run(es).changes[i].change !in Run(es).outstanding[token]
    ensures Step(Run(es), SenderReply(token, true)).changes[i] == Run(es).changes[i] <==>
            OtherIds(Run(es).outstanding[token], Run(es).changes[i].change)
  {
    LateAckRaisesMatches(es, token, i);
    MatchesNobody(Run(es).outstanding[token], Run(es).changes[i].change);
  }

  /** So when recorded changes have ids of their own, it raises by one each change of its list that is still in the
      table and touches no other. */
  lemma LateAckSparesNewerChange(es: seq<Event>, token: nat, i: nat)
    requires Legal(es) && token in Run(es).outstanding && i < |Run(es).changes|
    ensures var s, t := Run(es), Step(Run(es), SenderReply(token, true));
            && |t.changes| == |s.changes|
            && t.changes[i].change == s.changes[i].change
            && t.changes[i].piggybackCount ==
               s.changes[i].piggybackCount + if s.changes[i].change in s.outstanding[token] then 1 else 0
  {
    RunKeepsInv(es);
    LegalIds(es);
    BumpExact(Run(es).changes, Run(es).outstanding[token], RecordedSet(es));
  }

  /** A run in which it does not spare it: of two changes taken from full syncs, the newer is bumped by the older's
      acknowledgement. */
  lemma WithoutIdsTheNewerChangeIsBumped(older: Change, newer: Change)
    requires older.id == newer.id == None && older.update.address == newer.update.address && older != newer
    ensures var es := [Record(older)] + [IssueAsSender] + [Record(newer)] + [SenderReply(0, true)];
            Run(es).changes == [Entry(newer, 1)] && Issues(es, newer) == 0
  {
    var e3 := [Record(older)] + [IssueAsSender] + [Record(newer)];
    ReplacedWhileOutstanding(older, newer);
    RunSnoc(e3, SenderReply(0, true));
    IssuesSnoc(e3, SenderReply(0, true), newer);
    BumpOfOne(newer, older);
  }

  lemma ReplacedWhileOutstanding(older: Change, newer: Change)
    requires older.update.address == newer.update.address
    ensures var es := [Record(older)] + [IssueAsSender] + [Record(newer)];
            Run(es) == State([Entry(newer, 0)], 1, map[0 := [older]], 1, 0) && Issues(es, newer) == 0
  {
    var e1 := [Record(older)];
    var e2 := e1 + [IssueAsSender];
    assert e1 == [] + [Record(older)];
    RunSnoc([], Record(older));
    IssuesSnoc([], Record(older), newer);
    RunSnoc(e1, IssueAsSender);
    IssuesSnoc(e1, IssueAsSender, newer);
    IssueOfOne(older);
    assert Run(e2) == State([Entry(older, 0)], 1, map[0 := [older]], 1, 0);
    RunSnoc(e2, Record(newer));
    IssuesSnoc(e2, Record(newer), newer);
  }

  lemma IssueOfOne(c: Change)
    ensures Issued([Entry(c, 0)], 1, NoFilter) == [c]
    ensures Kept([Entry(c, 0)], 1, NoFilter) == [Entry(c, 0)]
  {
    var t := [Entry(c, 0)];
    assert t[..0] == [];
    KeptAll(t, 1, NoFilter);
  }

  lemma KeptAll(t: seq<Entry>, max: nat, skip: Change -> bool)
    requires forall i :: 0 <= i < |t| ==> t[i].piggybackCount < max
    ensures Kept(t, max, skip) == t
  {
    FilterAll(t, (e: Entry) => skip(e.change) || e.piggybackCount < max);
  }

  lemma BumpOfOne(c: Change, issued: Change)
    requires c.id == issued.id && c.update.address == issued.update.address
    ensures Bump([Entry(c, 0)], [issued]) == [Entry(c, 1)]
  {
    assert [issued][..0] == [];
  }

  // -------- how far a counter can go --------

  /** The issues as sender that match the change and are still to be answered. */
  function InFlight(s: State, c: Change): nat {
    |Holding(s, c)|
  }

  function Holding(s: State, c: Change): set<nat> {
    set t | t in s.outstanding && Matching(s.outstanding[t], c) > 0
  }

  predicate FullSync(s: State, e: Event) {
    e.IssueAsReceiver? && !e.sameChecksum && Issued(s.changes, s.maxPiggybackCount, SkipFor(e)) == []
  }

  /** How often a full sync matched `c` since a change was last recorded for its address. */
  function SyncBumps(es: seq<Event>, c: Change): nat {
    if es == [] then 0
    else
      var init, e := es[..|es| - 1], es[|es| - 1];
      if e.Record? && e.change.update.address == c.update.address then 0
      else SyncBumps(init, c) + if FullSync(Run(init), e) then Matching(e.members, c) else 0
  }

  /** Throughout the run the maximum is at most `max` and at most `k` issues as sender are outstanding at once. */
  ghost predicate Bounded(es: seq<Event>, max: nat, k: nat) {
    && Run(es).maxPiggybackCount <= max
    && |Run(es).outstanding| <= k
    && (es == [] || Bounded(es[..|es| - 1], max, k))
  }

  ghost predicate CounterWithin(es: seq<Event>, x: Entry, max: nat, k: nat) {
    x.piggybackCount + InFlight(Run(es), x.change) <= max + k + SyncBumps(es, x.change)
  }

  lemma InFlightBound(s: State, c: Change)
    ensures InFlight(s, c) <= |s.outstanding|
  {
    SubsetSize(Holding(s, c), s.outstanding.Keys);
    assert |s.outstanding| == |s.outstanding.Keys|;
  }

  /** An answered list is no longer in flight. */
  lemma AnswerLands(s: State, e: Event, c: Change)
    requires Shape(s) && e.SenderReply?
    ensures InFlight(Step(s, e), c) + NewBumps(s, e, c) <= InFlight(s, c)
  {
    if e.token in s.outstanding {
      assert Holding(Step(s, e), c) == Holding(s, c) - {e.token};
      if e.token in Holding(s, c) {
        assert |Holding(s, c) - {e.token}| == |Holding(s, c)| - 1;
      } else {
        assert Holding(s, c) - {e.token} == Holding(s, c);
      }
    }
  }

  /** An issue as receiver raises a counter below the maximum by at most one, and a filtered one by a full sync only. */
  lemma ReceiverBumps(s: State, e: Event, y: Entry)
    requires Shape(s) && e.IssueAsReceiver? && y in s.changes
    ensures !FullSync(s, e) ==> NewBumps(s, e, y.change)
                                == if !SkipFor(e)(y.change) && y.piggybackCount < s.maxPiggybackCount then 1 else 0
    ensures FullSync(s, e) ==> NewBumps(s, e, y.change) == Matching(e.members, y.change)
    ensures FullSync(s, e) && y.piggybackCount < s.maxPiggybackCount ==> SkipFor(e)(y.change)
  {
    var i :| 0 <= i < |s.changes| && s.changes[i] == y;
    IssuedMatchesEntry(s.changes, s.maxPiggybackCount, SkipFor(e), i);
  }

  lemma StepStaysWithin(es: seq<Event>, e: Event, y: Entry, x: Entry, max: nat, k: nat)
    requires Shape(Run(es)) && CameFromEntry(Run(es), e, x, y) && CounterWithin(es, y, max, k)
    requires e.Record? ==> e.change.update.address != Address(x)
    requires Run(es).maxPiggybackCount <= max && |Run(es + [e]).outstanding| <= k
    ensures CounterWithin(es + [e], x, max, k)
  {
    RunSnoc(es, e);
    assert (es + [e])[..|es|] == es;
    InFlightBound(Run(es + [e]), x.change);
    if e.SenderReply? {
      AnswerLands(Run(es), e, x.change);
    } else if e.IssueAsReceiver? {
      ReceiverBumps(Run(es), e, y);
    }
  }

  lemma {:induction false} RunStaysWithin(es: seq<Event>, max: nat, k: nat, x: Entry)
    requires Bounded(es, max, k) && x in Run(es).changes
    ensures CounterWithin(es, x, max, k)
  {
    var init, e := es[..|es| - 1], es[|es| - 1];
    assert es == init + [e];
    RunKeepsShape(init);
    if e.Record? && e.change.update.address == Address(x) {
      JustRecorded(Run(init), e.change, x);
      InFlightBound(Run(es), x.change);
    } else {
      var y := EntryBefore(Run(init), e, x);
      RunStaysWithin(init, max, k, y);
      StepStaysWithin(init, e, y, x, max, k);
    }
  }

  /** With the maximum never above `max` and at most `k` issues as sender outstanding at once, whatever the ids, no
      counter exceeds max+k by more than the full syncs that matched its change since it was recorded. */
  lemma CountersAreBounded(es: seq<Event>, max: nat, k: nat, x: Entry)
    requires Bounded(es, max, k) && x in Run(es).changes
    ensures x.piggybackCount <= max + k + SyncBumps(es, x.change)
  {
    RunStaysWithin(es, max, k, x);
  }

  ghost predicate SyncsHaveNoIds(es: seq<Event>) {
    forall i :: 0 <= i < |es| && es[i].IssueAsReceiver? ==> NoIds(es[i].members)
  }

  /** The members that a full sync lists have no ids, so it never matches a change with an id: such a change stays
      within max+k on every run. */
  lemma {:induction false} SyncsMatchNoId(es: seq<Event>, c: Change)
    requires SyncsHaveNoIds(es) && c.id.Some?
    ensures SyncBumps(es, c) == 0
  {
    if es != [] {
      var init, e := es[..|es| - 1], es[|es| - 1];
      assert forall i :: 0 <= i < |init| ==> init[i] == es[i];
      SyncsMatchNoId(init, c);
      if e.IssueAsReceiver? {
        MatchesNobody(e.members, c);
      }
    }
  }

  /** Whether some sender is taken for the source of the change, so that issues as its receiver filter it. */
  predicate Filterable(c: Change) {
    FromSender(c.source, c.sourceInc, c)
  }

  /** Every recorded change that can be filtered has an id. The source records none without: a change of its own has an
      id, and a member of a full sync has no source incarnation number. */
  ghost predicate FilteredHaveIds(es: seq<Event>) {
    forall i :: 0 <= i < |es| && es[i].Record? ==> es[i].change.id.Some? || !Filterable(es[i].change)
  }

  lemma {:induction false} SyncsMatchNothing(es: seq<Event>, x: Entry)
    requires SyncsHaveNoIds(es) && FilteredHaveIds(es) && x in Run(es).changes
    ensures SyncBumps(es, x.change) == 0 && (x.change.id.Some? || !Filterable(x.change))
  {
    var init, e := es[..|es| - 1], es[|es| - 1];
    assert forall i :: 0 <= i < |init| ==> init[i] == es[i];
    RunKeepsShape(init);
    if e.Record? && e.change.update.address == Address(x) {
      JustRecorded(Run(init), e.change, x);
    } else {
      var y := EntryBefore(Run(init), e, x);
      SyncsMatchNothing(init, y);
      if FullSync(Run(init), e) {
        ReceiverBumps(Run(init), e, y);
        assert SkipFor(e)(y.change);
        MatchesNobody(e.members, x.change);
      }
    }
  }

  /** So as long as every change that can be filtered has an id, no counter exceeds max+k, on any run and whatever the
      ids of the others. */
  lemma CountersStayWithin(es: seq<Event>, max: nat, k: nat, x: Entry)
    requires SyncsHaveNoIds(es) && FilteredHaveIds(es) && Bounded(es, max, k) && x in Run(es).changes
    ensures x.piggybackCount <= max + k
  {
    CountersAreBounded(es, max, k, x);
    SyncsMatchNothing(es, x);
  }

  /** An issue as receiver lifts a counter past the maximum of that moment exactly when it is a full sync, the change is
      filtered, and the listed members match it often enough. */
  lemma LiftedPastMaximumIff(s: State, e: Event, y: Entry)
    requires Shape(s) && e.IssueAsReceiver? && y in s.changes
    ensures (exists x :: x in Step(s, e).changes && x.change == y.change
                         && x.piggybackCount > y.piggybackCount && x.piggybackCount > s.maxPiggybackCount) <==>
            && FullSync(s, e) && SkipFor(e)(y.change) && Matching(e.members, y.change) > 0
            && y.piggybackCount + Matching(e.members, y.change) > s.maxPiggybackCount
  {
    ReceiverBumps(s, e, y);
    if x :| x in Step(s, e).changes && x.change == y.change
            && x.piggybackCount > y.piggybackCount && x.piggybackCount > s.maxPiggybackCount {
      var z := EntryBefore(s, e, x);
      SameChangeSameEntry(s.changes, y, z);
    }
    if SkipFor(e)(y.change) {
      var x := KeptAndBumped(s, e, y);
      assert x in Step(s, e).changes;
    }
  }

  lemma KeptAndBumped(s: State, e: Event, y: Entry) returns (x: Entry)
    requires Shape(s) && e.IssueAsReceiver? && y in s.changes && SkipFor(e)(y.change)
    ensures x in Step(s, e).changes && x.change == y.change
            && x.piggybackCount == y.piggybackCount + NewBumps(s, e, y.change)
  {
    KeptMembers(s.changes, s.maxPiggybackCount, SkipFor(e));
    var kept := AfterIssue(s, SkipFor(e)).changes;
    var i :| 0 <= i < |kept| && kept[i] == y;
    BumpCounts(kept, Returned(s, e), i);
    x := Bump(kept, Returned(s, e))[i];
  }

  function Again(e: Event, n: nat): seq<Event> {
    seq(n, _ => e)
  }

  /** And then nothing bounds it: after n full syncs to the node that a change without id came from, its counter is n,
      with the maximum at 1 and nothing issued as sender. */
  lemma {:induction false} FullSyncsRaiseWithoutBound(c: Change, n: nat)
    requires c.id == None && Filterable(c)
    ensures var es := [Record(c)] + Again(IssueAsReceiver(c.source, c.sourceInc, false, [c]), n);
            Run(es).changes == [Entry(c, n)] && Bounded(es, 1, 0)
  {
    var e := IssueAsReceiver(c.source, c.sourceInc, false, [c]);
    var es := [Record(c)] + Again(e, n);
    if n == 0 {
      FirstRecord(c);
      assert es == [Record(c)];
    } else {
      FullSyncsRaiseWithoutBound(c, n - 1);
      var before := [Record(c)] + Again(e, n - 1);
      assert es == before + [e];
      BoundedSnoc(before, e);
      OneFullSync(Run(before), c, e, n - 1);
    }
  }

  lemma FirstRecord(c: Change)
    ensures Run([Record(c)]).changes == [Entry(c, 0)] && Bounded([Record(c)], 1, 0)
  {
    assert [Record(c)][..0] == [];
  }

  lemma BoundedSnoc(es: seq<Event>, e: Event)
    requires Bounded(es, 1, 0) && e.IssueAsReceiver?
    ensures Run(es + [e]) == Step(Run(es), e) && Bounded(es + [e], 1, 0)
  {
    assert (es + [e])[..|es|] == es;
  }

  lemma OneFullSync(s: State, c: Change, e: Event, n: nat)
    requires s.changes == [Entry(c, n)] && e == IssueAsReceiver(c.source, c.sourceInc, false, [c]) && SkipFor(e)(c)
    ensures Step(s, e).changes == [Entry(c, n + 1)]
  {
    assert s.changes[..0] == [] && [c][..0] == [];
    assert Issued(s.changes, s.maxPiggybackCount, SkipFor(e)) == [];
    FilterAll(s.changes, (x: Entry) => SkipFor(e)(x.change) || x.piggybackCount < s.maxPiggybackCount);
    BumpCounts(s.changes, [c], 0);
  }

  // -------- exhaustion --------

  /** Receiver issues that filter none of the changes in `t`. */
  ghost predicate Unfiltered(rs: seq<Event>, t: seq<Entry>) {
    forall i, x :: 0 <= i < |rs| && x in t ==> rs[i].IssueAsReceiver? && !SkipFor(rs[i])(x.change)
  }

  ghost predicate CameFrom(start: seq<Entry>, x: Entry) {
    exists y :: y in start && y.change == x.change
  }

  /** After n issues as receiver, every entry left of `start` has been counted up at least n times, but not past the
      maximum. */
  ghost predicate Aged(start: seq<Entry>, t: seq<Entry>, n: nat, max: nat) {
    forall x :: x in t ==> x.piggybackCount >= n && CameFrom(start, x) && (n > 0 ==> x.piggybackCount <= max)
  }

  /** From s to t, n issues as receiver that filter nothing. */
  ghost predicate Exhausting(s: State, t: State, n: nat) {
    && t.maxPiggybackCount == s.maxPiggybackCount
    && t.exhausted == s.exhausted + (if s.changes != [] && t.changes == [] then 1 else 0)
    && (s.changes == [] ==> t.changes == [])
    && Aged(s.changes, t.changes, n, s.maxPiggybackCount)
  }

  lemma OneIssueExhausts(s: State, before: seq<Event>, e: Event, n: nat)
    requires e.IssueAsReceiver? && forall y :: y in s.changes ==> !SkipFor(e)(y.change)
    requires Exhausting(s, Run(before), n)
    ensures Exhausting(s, Run(before + [e]), n + 1)
  {
    RunSnoc(before, e);
    ReceiverStepExhausts(Run(before), e);
    RunKeepsShape(before);
    OneIssueAges(Run(before), e, s.changes, n);
  }

  lemma AgedAtStart(s: State)
    ensures Exhausting(s, s, 0)
  {
    assert forall x :: x in s.changes ==> CameFrom(s.changes, x);
  }

  lemma {:induction false} IssuesExhaust(es: seq<Event>, rs: seq<Event>)
    requires Unfiltered(rs, Run(es).changes)
    requires forall i :: 0 <= i < |rs| ==> rs[i].IssueAsReceiver?
    ensures Exhausting(Run(es), Run(es + rs), |rs|)
  {
    if rs == [] {
      assert es + rs == es;
      AgedAtStart(Run(es));
    } else {
      var init, e := rs[..|rs| - 1], rs[|rs| - 1];
      assert es + rs == es + init + [e];
      IssuesExhaust(es, init);
      OneIssueExhausts(Run(es), es + init, e, |init|);
    }
  }

  /** On every run, whatever the ids: with nothing new recorded and no filtered sender, issuing as receiver more than
      `maxPiggybackCount` times empties the table; `changesExhausted` is emitted once if the table had entries and is
      now empty, and otherwise not. */
  lemma ReceiverIssuesExhaust(es: seq<Event>, rs: seq<Event>)
    requires Unfiltered(rs, Run(es).changes)
    requires forall i :: 0 <= i < |rs| ==> rs[i].IssueAsReceiver?
    ensures var s, t := Run(es), Run(es + rs);
            && (|rs| > s.maxPiggybackCount ==> t.changes == [])
            && t.exhausted == s.exhausted + (if s.changes != [] && t.changes == [] then 1 else 0)
            && (forall x :: x in t.changes ==>
                |rs| <= x.piggybackCount && (rs != [] ==> x.piggybackCount <= s.maxPiggybackCount))
  {
    IssuesExhaust(es, rs);
    FirstIsMember(Run(es + rs).changes);
  }

  lemma FirstIsMember(t: seq<Entry>)
    ensures t == [] || t[0] in t
  {
  }

  lemma ReceiverStepExhausts(s: State, e: Event)
    requires e.IssueAsReceiver?
    ensures var t := Step(s, e);
            && t.maxPiggybackCount == s.maxPiggybackCount
            && t.exhausted == s.exhausted + (if s.changes != [] && t.changes == [] then 1 else 0)
            && (s.changes == [] ==> t.changes == [])
  {
  }

  lemma OneIssueAges(s: State, e: Event, start: seq<Entry>, n: nat)
    requires Shape(s) && e.IssueAsReceiver? && forall y :: y in start ==> !SkipFor(e)(y.change)
    requires Aged(start, s.changes, n, s.maxPiggybackCount)
    ensures Aged(start, Step(s, e).changes, n + 1, s.maxPiggybackCount)
  {
    forall x | x in Step(s, e).changes
      ensures x.piggybackCount >= n + 1 && x.piggybackCount <= s.maxPiggybackCount && CameFrom(start, x)
    {
      var y := EntryBefore(s, e, x);
      ReceiverBumps(s, e, y);
      assert CameFrom(start, y);
      var z :| z in start && z.change == y.change;
    }
  }

  // -------- the adjusted maximum --------

  function DecimalDigits(n: nat): nat {
    if n == 0 then 0 else 1 + DecimalDigits(n / 10)
  }

  /** The maximum is fifteen for every decimal digit of the number of servers. */
  lemma {:induction false} LogCountsDigits(n: nat)
    ensures CeilLog10(n + 1) == DecimalDigits(n)
  {
    if n > 0 {
      LogCountsDigits(n / 10);
      assert (n + 1 + 9) / 10 == n / 10 + 1;
    }
  }

  lemma MaximumIsPerDigit(s: State, n: nat)
    ensures Step(s, AdjustMax(n)).maxPiggybackCount == 15 * DecimalDigits(n)
  {
    LogCountsDigits(n);
  }

  // -------- the table and what is issued, read off the events --------

  /** The maximum that the last adjustment or reset left. */
  function MaximumAfter(es: seq<Event>): nat {
    if es == [] then 1
    else
      match es[|es| - 1]
      case AdjustMax(n) => 15 * DecimalDigits(n)
      case ResetMax => 1
      case _ => MaximumAfter(es[..|es| - 1])
  }

  lemma {:induction false} MaximumFollowsEvents(es: seq<Event>)
    ensures Run(es).maxPiggybackCount == MaximumAfter(es)
  {
    if es != [] {
      var init, e := es[..|es| - 1], es[|es| - 1];
      MaximumFollowsEvents(init);
      if e.AdjustMax? {
        MaximumIsPerDigit(Run(init), e.serverCount);
      }
    }
  }

  /** A receiver does not send a change back to the node it came from, as both its address and its incarnation number
      tell, when they are known. */
  predicate Filtered(e: Event, c: Change) {
    && e.IssueAsReceiver?
    && e.senderAddr.Some? && e.senderAddr.value != "" && e.senderInc.Some? && e.senderInc.value != 0
    && c.source == e.senderAddr && c.sourceInc == e.senderInc
  }

  /** The change that the table holds for an address: the last one recorded, unless the table was cleared since, or an
      issue that did not filter it found it matched as often as the maximum. */
  function ChangeAfter(es: seq<Event>, addr: string): Option<Change> {
    if es == [] then None
    else
      var init, e := es[..|es| - 1], es[|es| - 1];
      var before := ChangeAfter(init, addr);
      if e.Record? && e.change.update.address == addr then Some(e.change)
      else if e.Clear? then None
      else if Issuing(e) && before.Some? && !Filtered(e, before.value)
              && Bumps(init, before.value) >= MaximumAfter(init) then None
      else before
  }

  ghost predicate InTable(t: seq<Entry>, c: Change) {
    exists x :: x in t && x.change == c
  }

  lemma BumpKeepsChanges(t: seq<Entry>, issued: seq<Change>, c: Change)
    ensures InTable(Bump(t, issued), c) <==> InTable(t, c)
  {
    var r := Bump(t, issued);
    if x :| x in t && x.change == c {
      var i :| 0 <= i < |t| && t[i] == x;
      assert r[i] in r;
    }
    if x :| x in r && x.change == c {
      var i :| 0 <= i < |r| && r[i] == x;
      assert t[i] in t;
    }
  }

  lemma RecordInTable(s: State, d: Change, c: Change)
    requires Shape(s)
    ensures InTable(Step(s, Record(d)).changes, c) <==>
            c == d || (InTable(s.changes, c) && c.update.address != d.update.address)
  {
    PutMembers(s.changes, Entry(d, 0));
    assert Entry(d, 0) in PutEntry(s.changes, Entry(d, 0));
  }

  lemma IssueInTable(es: seq<Event>, e: Event, c: Change)
    requires Issuing(e)
    ensures InTable(Run(es + [e]).changes, c) <==>
            InTable(Run(es).changes, c) && (Filtered(e, c) || Bumps(es, c) < MaximumAfter(es))
  {
    var s := Run(es);
    RunSnoc(es, e);
    RunKeepsShape(es);
    MaximumFollowsEvents(es);
    KeptMembers(s.changes, s.maxPiggybackCount, SkipFor(e));
    assert SkipFor(e)(c) <==> Filtered(e, c);
    if x :| x in s.changes && x.change == c {
      CounterCountsMatches(es, x);
    }
    var kept := AfterIssue(s, SkipFor(e)).changes;
    assert InTable(kept, c) <==> InTable(s.changes, c) && (Filtered(e, c) || Bumps(es, c) < MaximumAfter(es)) by {
      if x :| x in s.changes && x.change == c {
        forall y | y in s.changes && y.change == c ensures y == x {
          SameChangeSameEntry(s.changes, x, y);
        }
      }
    }
    if e.IssueAsReceiver? {
      BumpKeepsChanges(kept, Returned(s, e), c);
    }
  }

  /** On every run the table holds exactly the changes that the events say. */
  lemma {:induction false} TableFollowsEvents(es: seq<Event>, c: Change)
    ensures InTable(Run(es).changes, c) <==> ChangeAfter(es, c.update.address) == Some(c)
  {
    if es != [] {
      var init, e := es[..|es| - 1], es[|es| - 1];
      assert es == init + [e];
      TableFollowsEvents(init, c);
      RunKeepsShape(init);
      match e
      case Record(d) => RecordInTable(Run(init), d, c);
      case SenderReply(token, ok) =>
        if token in Run(init).outstanding {
          BumpKeepsChanges(Run(init).changes, Run(init).outstanding[token], c);
        }
      case Clear =>
      case AdjustMax(_) =>
      case ResetMax =>
      case _ => IssueInTable(init, e, c);
    }
  }

  /** What an issue is to carry: the changes of the table that it does not filter and that were matched less often than
      the maximum. */
  predicate Due(es: seq<Event>, e: Event, c: Change) {
    && ChangeAfter(es, c.update.address) == Some(c)
    && !Filtered(e, c) && Bumps(es, c) < MaximumAfter(es)
  }

  lemma IssuedAreDue(es: seq<Event>, e: Event)
    requires Issuing(e)
    ensures var issued := Issued(Run(es).changes, Run(es).maxPiggybackCount, SkipFor(e));
            NoDup(issued) && forall c :: c in issued <==> Due(es, e, c)
  {
    var s := Run(es);
    var issued := Issued(s.changes, s.maxPiggybackCount, SkipFor(e));
    RunKeepsShape(es);
    MaximumFollowsEvents(es);
    IssuedMembers(s.changes, s.maxPiggybackCount, SkipFor(e));
    forall c ensures c in issued <==> Due(es, e, c) {
      TableFollowsEvents(es, c);
      if x :| x in s.changes && x.change == c {
        CounterCountsMatches(es, x);
        forall y | y in s.changes && y.change == c ensures y == x {
          SameChangeSameEntry(s.changes, x, y);
        }
      }
    }
  }

  /** On every run: an issue as sender keeps outstanding exactly the changes that are due, each once; an issue as
      receiver returns exactly these, or when there are none and the checksums differ the whole membership. */
  lemma WhatIsIssued(es: seq<Event>, e: Event)
    requires Issuing(e)
    ensures e.IssueAsSender? ==>
              && Run(es + [e]).outstanding.Keys == Run(es).outstanding.Keys + {Run(es).nextToken}
              && var issued := Run(es + [e]).outstanding[Run(es).nextToken];
                 NoDup(issued) && forall c :: c in issued <==> Due(es, e, c)
    ensures e.IssueAsReceiver? ==>
              var returned := Returned(Run(es), e);
              if exists c :: Due(es, e, c) then NoDup(returned) && forall c :: c in returned <==> Due(es, e, c)
              else returned == if e.sameChecksum then [] else e.members
  {
    RunSnoc(es, e);
    IssuedAreDue(es, e);
    var issued := Issued(Run(es).changes, Run(es).maxPiggybackCount, SkipFor(e));
    assert issued != [] ==> issued[0] in issued;
  }

  // -------- the class --------

  class Disseminator {
    var changes: seq<Entry>
    var maxPiggybackCount: nat
    var exhausted: nat
    ghost var outstanding: map<nat, seq<Change>>
    var nextToken: nat

    ghost function Abstract(): State
      reads this
    {
      State(changes, maxPiggybackCount, outstanding, nextToken, exhausted)
    }

    constructor ()
      ensures Abstract() == FRESH
    {
      changes, maxPiggybackCount, exhausted := [], 1, 0;
      outstanding, nextToken := map[], 0;
    }

    method RecordChange(change: Change)
      modifies this`changes
      ensures Abstract() == Step(old(Abstract()), Record(change))
    {
      changes := PutEntry(changes, Entry(change, 0));
    }

    /** Looks at the k-th entry: skips it, deletes it when exhausted, or issues it. */
    method IssueOne(k: nat, skip: Change -> bool, ghost was: seq<Entry>, ghost i: nat)
      returns (next: nat, issued: seq<Change>)
      requires i < |was| && k == |Kept(was[..i], maxPiggybackCount, skip)|
      requires changes == Kept(was[..i], maxPiggybackCount, skip) + was[i..]
      modifies this`changes, this`exhausted
      ensures next == |Kept(was[..i + 1], maxPiggybackCount, skip)|
      ensures changes == Kept(was[..i + 1], maxPiggybackCount, skip) + was[i + 1..]
      ensures Issued(was[..i], maxPiggybackCount, skip) + issued == Issued(was[..i + 1], maxPiggybackCount, skip)
      ensures exhausted == old(exhausted) + if changes == [] then 1 else 0
    {
      WalkStep(was, i, maxPiggybackCount, skip);
      NextEntry(Kept(was[..i], maxPiggybackCount, skip), was, i);
      var change := changes[k];
      next, issued := k + 1, [];
      if skip(change.change) {
        return;
      }
      if change.piggybackCount >= maxPiggybackCount {
        changes := changes[..k] + changes[k + 1..];
        if |changes| == 0 {
          exhausted := exhausted + 1;
        }
        return k, [];
      }
      issued := [change.change];
    }

    /** Walks the addresses of the table as it was, deleting exhausted entries on the way. */
    method IssueAs(skip: Change -> bool) returns (changesToDisseminate: seq<Change>)
      modifies this`changes, this`exhausted
      ensures Abstract() == AfterIssue(old(Abstract()), skip)
      ensures changesToDisseminate == Issued(old(changes), maxPiggybackCount, skip)
    {
      changesToDisseminate := [];
      ghost var was := changes;
      var numAddresses, k := |changes|, 0;
      for i := 0 to numAddresses
        invariant numAddresses == |was| && k == |Kept(was[..i], maxPiggybackCount, skip)|
        invariant changes == Kept(was[..i], maxPiggybackCount, skip) + was[i..]
        invariant changesToDisseminate == Issued(was[..i], maxPiggybackCount, skip)
        invariant exhausted == old(exhausted) + if i > 0 && changes == [] then 1 else 0
      {
        var issued;
        k, issued := IssueOne(k, skip, was, i);
        changesToDisseminate := changesToDisseminate + issued;
      }
      assert was[..|was|] == was;
    }

    /** Raises the counters of the issued changes that are still in the table. */
    method RaiseCounters(issued: seq<Change>)
      modifies this`changes
      ensures changes == Bump(old(changes), issued)
    {
      for i := 0 to |issued|
        invariant changes == Bump(old(changes), issued[..i])
      {
        assert issued[..i + 1][..i] == issued[..i];
        changes := BumpOne(changes, issued[i]);
      }
      assert issued[..|issued|] == issued;
    }

    method IssueAsSender() returns (issued: seq<Change>, token: nat)
      modifies this
      ensures Abstract() == Step(old(Abstract()), Event.IssueAsSender)
      ensures issued == Issued(old(changes), old(maxPiggybackCount), NoFilter) && token == old(nextToken)
    {
      issued := IssueAs(NoFilter);
      token := nextToken;
      outstanding := outstanding[token := issued];
      nextToken := nextToken + 1;
    }

    /** The reply to an issue as sender; `issued` is the list that its closure holds. */
    method OnIssue(token: nat, issued: seq<Change>, ok: bool)
      requires token in outstanding && outstanding[token] == issued
      modifies this
      ensures Abstract() == Step(old(Abstract()), SenderReply(token, ok))
    {
      outstanding := outstanding - {token};
      if !ok {
        return;
      }
      RaiseCounters(issued);
    }

    method IssueAsReceiver(senderAddr: Option<string>, senderInc: Option<int>, sameChecksum: bool, members: seq<Change>)
      returns (membershipChanges: seq<Change>, fullSync: bool)
      modifies this
      ensures var e := Event.IssueAsReceiver(senderAddr, senderInc, sameChecksum, members);
              && Abstract() == Step(old(Abstract()), e)
              && membershipChanges == Returned(old(Abstract()), e)
              && (fullSync <==> !sameChecksum && Issued(old(changes), old(maxPiggybackCount), SkipFor(e)) == [])
    {
      ghost var e := Event.IssueAsReceiver(senderAddr, senderInc, sameChecksum, members);
      membershipChanges := IssueAs(SkipFor(Event.IssueAsReceiver(senderAddr, senderInc, sameChecksum, members)));
      fullSync := false;
      if |membershipChanges| == 0 && !sameChecksum {
        fullSync := true;
        membershipChanges := members;
      }
      RaiseCounters(membershipChanges);
    }

    method AdjustMaxPiggybackCount(serverCount: nat)
      modifies this`maxPiggybackCount
      ensures Abstract() == Step(old(Abstract()), AdjustMax(serverCount))
    {
      maxPiggybackCount := PIGGYBACK_FACTOR * CeilLog10(serverCount + 1);
    }
  }

  /** The entry that follows the kept ones can be dropped from the table or joined to them. */
  lemma NextEntry(kept: seq<Entry>, was: seq<Entry>, i: nat)
    requires i < |was|
    ensures var all, k := kept + was[i..], |kept|;
            && all[k] == was[i] && all[..k] + all[k + 1..] == kept + was[i + 1..]
            && all == kept + [was[i]] + was[i + 1..]
  {
  }

  /** One entry of the walk is kept or dropped, and issued or not. */
  lemma WalkStep(t: seq<Entry>, i: nat, max: nat, skip: Change -> bool)
    requires i < |t|
    ensures Kept(t[..i + 1], max, skip) ==
            Kept(t[..i], max, skip) + (if skip(t[i].change) || t[i].piggybackCount < max then [t[i]] else [])
    ensures Issued(t[..i + 1], max, skip) ==
            Issued(t[..i], max, skip) + (if !skip(t[i].change) && t[i].piggybackCount < max then [t[i].change] else [])
  {
    assert t[..i + 1][..i] == t[..i];
  }
}
