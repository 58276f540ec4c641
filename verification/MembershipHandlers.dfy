/** The handlers of on_membership_event.js: how state transitions, gossip and the ring follow the same updates. */
module MembershipHandlers {
  import opened Basics
  import ST = StateTransitions
  import D = Dissemination

  datatype State = State(transitions: ST.State, gossip: D.State, ring: set<string>)

  /** `Updated` and `Set` carry a batch of the membership's updates; the others are events of one consumer alone. */
  datatype Event =
    | Updated(batch: seq<D.Change>)
    | Set(batch: seq<D.Change>)
    | Transition(e: ST.Event)
    | Gossip(g: D.Event)

  const FRESH := State(ST.FRESH, D.FRESH, {})

  predicate OnRing(s: ST.Status) { s.Alive? || s.Suspect? }
  predicate OffRing(s: ST.Status) { s.Faulty? || s.Leave? || s.Tombstone? }

  /** The addresses a batch adds to the ring, and those it removes. */
  function Adds(batch: seq<D.Change>): set<string> {
    set c | c in batch && OnRing(c.update.status) :: c.update.address
  }

  function Removes(batch: seq<D.Change>): set<string> {
    set c | c in batch && OffRing(c.update.status) :: c.update.address
  }

  function HandleAll(batch: seq<D.Change>): seq<ST.Event> {
    seq(|batch|, i requires 0 <= i < |batch| => ST.Handle(batch[i].update))
  }

  function RecordAll(batch: seq<D.Change>): seq<D.Event> {
    seq(|batch|, i requires 0 <= i < |batch| => D.Record(batch[i]))
  }

  /** The events that each consumer sees in a run. */
  function TransitionTrace(es: seq<Event>): seq<ST.Event> {
    if es == [] then []
    else
      TransitionTrace(es[..|es| - 1]) +
      match es[|es| - 1]
      case Updated(batch) => HandleAll(batch)
      case Set(batch) => HandleAll(batch)
      case Transition(e) => [e]
      case Gossip(_) => []
  }

  function GossipTrace(es: seq<Event>): seq<D.Event> {
    if es == [] then []
    else
      GossipTrace(es[..|es| - 1]) +
      match es[|es| - 1]
      case Updated(batch) => RecordAll(batch)
      case Gossip(g) => [g]
      case _ => []
  }

  /** The ring adds before it removes. */
  function RingStep(ring: set<string>, e: Event): set<string> {
    match e
    case Updated(batch) => ring + Adds(batch) - Removes(batch)
    case Set(batch) => ring + Adds(batch)
    case _ => ring
  }

  function Ring(es: seq<Event>): set<string> {
    if es == [] then {} else RingStep(Ring(es[..|es| - 1]), es[|es| - 1])
  }

  function Run(c: ST.Config, es: seq<Event>): State {
    State(ST.Run(c, TransitionTrace(es)), D.Run(GossipTrace(es)), Ring(es))
  }

  /** The last update for `addr` in a batch, and the last one with a listed status. */
  function LastIn(batch: seq<D.Change>, addr: string): Option<D.Change> {
    if batch == [] then None
    else if batch[|batch| - 1].update.address == addr then Some(batch[|batch| - 1])
    else LastIn(batch[..|batch| - 1], addr)
  }

  function LastListedIn(batch: seq<D.Change>, addr: string): Option<ST.Status> {
    if batch == [] then None
    else
      var u := batch[|batch| - 1].update;
      if u.address == addr && !u.status.Other? then Some(u.status) else LastListedIn(batch[..|batch| - 1], addr)
  }

  function Batch(e: Event): seq<D.Change> {
    match e
    case Updated(batch) => batch
    case Set(batch) => batch
    case _ => []
  }

  /** The last listed status that any batch of the run gave `addr`. */
  function LastStatus(es: seq<Event>, addr: string): Option<ST.Status> {
    if es == [] then None
    else
      var here := LastListedIn(Batch(es[|es| - 1]), addr);
      if here.Some? then here else LastStatus(es[..|es| - 1], addr)
  }

  /** The last update of any batch of the run for `addr`. */
  function LastUpdate(es: seq<Event>, addr: string): Option<D.Change> {
    if es == [] then None
    else
      var here := LastIn(Batch(es[|es| - 1]), addr);
      if here.Some? then here else LastUpdate(es[..|es| - 1], addr)
  }

  // -------- the ring --------

  ghost predicate RingAgrees(es: seq<Event>, ring: set<string>) {
    forall a :: a in ring <==> LastStatus(es, a).Some? && OnRing(LastStatus(es, a).value)
  }

  /** No update of the batch takes off the ring an address that its last update puts on it. */
  ghost predicate RemovalsAreFinal(batch: seq<D.Change>) {
    forall a :: LastListedIn(batch, a).Some? && OnRing(LastListedIn(batch, a).value) ==> a !in Removes(batch)
  }

  /** No address that the batch's last update takes off the ring is on it, before the batch or by it. */
  ghost predicate NothingToRemove(batch: seq<D.Change>, ring: set<string>) {
    forall a :: LastListedIn(batch, a).Some? && OffRing(LastListedIn(batch, a).value) ==> a !in ring + Adds(batch)
  }

  lemma {:induction false} LastListedFacts(batch: seq<D.Change>, addr: string)
    ensures LastListedIn(batch, addr).Some? <==> addr in Adds(batch) + Removes(batch)
    ensures LastListedIn(batch, addr).Some? ==>
              OnRing(LastListedIn(batch, addr).value) != OffRing(LastListedIn(batch, addr).value)
    ensures LastListedIn(batch, addr).Some? && OnRing(LastListedIn(batch, addr).value) ==> addr in Adds(batch)
    ensures LastListedIn(batch, addr).Some? && OffRing(LastListedIn(batch, addr).value) ==> addr in Removes(batch)
  {
    if batch != [] {
      var init, last := batch[..|batch| - 1], batch[|batch| - 1];
      LastListedFacts(init, addr);
      assert batch == init + [last];
      assert Adds(batch) == Adds(init) + (if OnRing(last.update.status) then {last.update.address} else {});
      assert Removes(batch) == Removes(init) + (if OffRing(last.update.status) then {last.update.address} else {});
    }
  }

  /** If the ring holds exactly the addresses last seen alive or suspect, it still does after a batch of updates exactly
      when the batch's removals are final. */
  lemma RingFollowsUpdatedIff(es: seq<Event>, batch: seq<D.Change>)
    requires RingAgrees(es, Ring(es))
    ensures RingAgrees(es + [Updated(batch)], Ring(es + [Updated(batch)])) <==> RemovalsAreFinal(batch)
  {
    var es' := es + [Updated(batch)];
    assert es'[..|es|] == es;
    forall a
      ensures (a in Ring(es') <==> LastStatus(es', a).Some? && OnRing(LastStatus(es', a).value)) <==>
              (LastListedIn(batch, a).Some? && OnRing(LastListedIn(batch, a).value) ==> a !in Removes(batch))
    {
      LastListedFacts(batch, a);
    }
  }

  /** And after a batch of initial members exactly when that leaves nothing to remove, as this handler never removes. */
  lemma RingFollowsSetIff(es: seq<Event>, batch: seq<D.Change>)
    requires RingAgrees(es, Ring(es))
    ensures RingAgrees(es + [Set(batch)], Ring(es + [Set(batch)])) <==> NothingToRemove(batch, Ring(es))
  {
    var es' := es + [Set(batch)];
    assert es'[..|es|] == es;
    forall a
      ensures (a in Ring(es') <==> LastStatus(es', a).Some? && OnRing(LastStatus(es', a).value)) <==>
              (LastListedIn(batch, a).Some? && OffRing(LastListedIn(batch, a).value) ==> a !in Ring(es) + Adds(batch))
    {
      LastListedFacts(batch, a);
    }
  }

  /** Batches with at most one update for each address have final removals. */
  lemma OneUpdateEachIsFinal(batch: seq<D.Change>)
    requires forall i, j :: 0 <= i < j < |batch| ==> batch[i].update.address != batch[j].update.address
    ensures RemovalsAreFinal(batch)
    ensures Adds(batch) !! Removes(batch)
  {
    forall a | a in Adds(batch) ensures a !in Removes(batch) {
      var i :| 0 <= i < |batch| && OnRing(batch[i].update.status) && batch[i].update.address == a;
      forall d | d in batch && d.update.address == a ensures d == batch[i] {
        var j :| 0 <= j < |batch| && batch[j] == d;
      }
    }
    forall a | LastListedIn(batch, a).Some? && OnRing(LastListedIn(batch, a).value)
      ensures a !in Removes(batch)
    {
      LastListedFacts(batch, a);
    }
  }

  /** The run that shows it: a member that one batch reports faulty and then alive again, with a higher incarnation
      number each time, is taken off the ring although its last status is alive. */
  lemma RevivedMemberIsOffTheRing(a: D.Change, b: D.Change, c: D.Change)
    requires a.update.address == b.update.address == c.update.address
    requires a.update.incarnationNumber < b.update.incarnationNumber < c.update.incarnationNumber
    requires a.update.status.Alive? && b.update.status.Faulty? && c.update.status.Alive?
    ensures var es := [Updated([a])]; var es' := es + [Updated([b, c])];
            && RingAgrees(es, Ring(es)) && Ring(es) == {a.update.address}
            && Ring(es') == {} && LastStatus(es', a.update.address) == Some(ST.Alive)
  {
    var es := [Updated([a])];
    var es' := es + [Updated([b, c])];
    assert es == [] + [Updated([a])] && es[..0] == [] && es'[..1] == es;
    AddsOfOne(a);
    assert Removes([a]) == {};
    assert c in [b, c] && b in [b, c];
    assert Adds([b, c]) == {a.update.address} && Removes([b, c]) == {a.update.address};
    assert forall x :: LastListedIn([a], x) == if x == a.update.address then Some(ST.Alive) else None by {
      assert [a][..0] == [];
    }
  }

  lemma AddsOfOne(a: D.Change)
    requires OnRing(a.update.status)
    ensures Adds([a]) == {a.update.address}
  {
    assert a in [a];
  }

  /** The batch of initial members is merged beforehand into one update for each address, and none for this node, which
      is then alone on the ring: so there is nothing to remove. */
  lemma MergedMembersHaveNothingToRemove(batch: seq<D.Change>, ring: set<string>)
    requires forall i, j :: 0 <= i < j < |batch| ==> batch[i].update.address != batch[j].update.address
    requires forall c :: c in batch ==> c.update.address !in ring
    ensures NothingToRemove(batch, ring)
  {
    OneUpdateEachIsFinal(batch);
    forall a | LastListedIn(batch, a).Some? && OffRing(LastListedIn(batch, a).value) ensures a !in ring + Adds(batch) {
      LastListedFacts(batch, a);
    }
  }

  // -------- the runs in which the consumers agree --------

  /** Every batch of updates has final removals, an initial batch only names new addresses and has nothing to remove,
      and transitions are never disabled. */
  ghost predicate Legal(es: seq<Event>) {
    es == [] ||
    (Legal(es[..|es| - 1]) &&
     match es[|es| - 1]
     case Updated(batch) => RemovalsAreFinal(batch)
     case Set(batch) =>
       NothingToRemove(batch, Ring(es[..|es| - 1])) &&
       forall c :: c in batch ==> LastUpdate(es[..|es| - 1], c.update.address) == None
     case Transition(e) => !e.Handle? && !e.Disable?
     case Gossip(g) => !g.Record?)
  }

  lemma {:induction false} RingRun(es: seq<Event>)
    requires Legal(es)
    ensures RingAgrees(es, Ring(es))
  {
    if es != [] {
      var init, e := es[..|es| - 1], es[|es| - 1];
      RingRun(init);
      assert es == init + [e];
      match e
      case Updated(batch) => RingFollowsUpdatedIff(init, batch);
      case Set(batch) => RingFollowsSetIff(init, batch);
      case _ =>
    }
  }

  lemma {:induction false} HandledBatch(tr: seq<ST.Event>, batch: seq<D.Change>, addr: string)
    requires ST.EnabledAfter(tr)
    ensures ST.EnabledAfter(tr + HandleAll(batch))
    ensures ST.LastHandled(tr + HandleAll(batch), addr) ==
            if LastListedIn(batch, addr).Some? then LastListedIn(batch, addr) else ST.LastHandled(tr, addr)
  {
    if batch == [] {
      assert tr + HandleAll(batch) == tr;
    } else {
      var init := batch[..|batch| - 1];
      var all := tr + HandleAll(batch);
      HandledBatch(tr, init, addr);
      assert all[..|all| - 1] == tr + HandleAll(init);
    }
  }

  lemma {:induction false} TransitionsSeeLastStatus(es: seq<Event>, addr: string)
    requires Legal(es)
    ensures ST.EnabledAfter(TransitionTrace(es))
    ensures ST.LastHandled(TransitionTrace(es), addr) == LastStatus(es, addr)
  {
    if es != [] {
      var init, e := es[..|es| - 1], es[|es| - 1];
      TransitionsSeeLastStatus(init, addr);
      match e
      case Updated(batch) => HandledBatch(TransitionTrace(init), batch, addr);
      case Set(batch) => HandledBatch(TransitionTrace(init), batch, addr);
      case Transition(t) =>
        assert TransitionTrace(es)[..|TransitionTrace(init)|] == TransitionTrace(init);
      case Gossip(_) =>
        assert TransitionTrace(es) == TransitionTrace(init);
    }
  }

  /** The last change recorded for `addr` in a run of the dissemination. */
  function LastRecord(tr: seq<D.Event>, addr: string): Option<D.Change> {
    if tr == [] then None
    else if tr[|tr| - 1].Record? && tr[|tr| - 1].change.update.address == addr then Some(tr[|tr| - 1].change)
    else LastRecord(tr[..|tr| - 1], addr)
  }

  ghost predicate TableIsLastRecord(tr: seq<D.Event>, t: seq<D.Entry>) {
    D.OneEntryPerAddress(t) && forall i :: 0 <= i < |t| ==> LastRecord(tr, D.Address(t[i])) == Some(t[i].change)
  }

  /** Whatever the ids, an entry of the change table is the last change recorded for its address. */
  lemma {:induction false} EntryIsLastRecord(tr: seq<D.Event>)
    ensures TableIsLastRecord(tr, D.Run(tr).changes)
  {
    if tr != [] {
      var init, e := tr[..|tr| - 1], tr[|tr| - 1];
      EntryIsLastRecord(init);
      var s := D.Run(init);
      match e {
        case Record(c) =>
          D.PutMembers(s.changes, D.Entry(c, 0));
          MembersAreLastRecord(tr, D.Run(tr).changes);
        case IssueAsSender =>
          D.KeptMembers(s.changes, s.maxPiggybackCount, D.SkipFor(e));
          MembersAreLastRecord(tr, D.Run(tr).changes);
        case IssueAsReceiver(_, _, _, _) =>
          var kept := D.AfterIssue(s, D.SkipFor(e)).changes;
          D.KeptMembers(s.changes, s.maxPiggybackCount, D.SkipFor(e));
          MembersAreLastRecord(tr, kept);
        case _ =>
      }
    }
  }

  lemma MembersAreLastRecord(tr: seq<D.Event>, t: seq<D.Entry>)
    requires D.OneEntryPerAddress(t)
    requires forall x :: x in t ==> LastRecord(tr, D.Address(x)) == Some(x.change)
    ensures TableIsLastRecord(tr, t)
  {
  }

  lemma {:induction false} RecordedBatch(tr: seq<D.Event>, batch: seq<D.Change>, addr: string)
    ensures LastRecord(tr + RecordAll(batch), addr) ==
            if LastIn(batch, addr).Some? then LastIn(batch, addr) else LastRecord(tr, addr)
  {
    if batch == [] {
      assert tr + RecordAll(batch) == tr;
    } else {
      var all := tr + RecordAll(batch);
      RecordedBatch(tr, batch[..|batch| - 1], addr);
      assert all[..|all| - 1] == tr + RecordAll(batch[..|batch| - 1]);
    }
  }

  lemma {:induction false} LastInMember(batch: seq<D.Change>, addr: string)
    ensures LastIn(batch, addr).Some? ==>
              LastIn(batch, addr).value in batch && LastIn(batch, addr).value.update.address == addr
  {
    if batch != [] {
      LastInMember(batch[..|batch| - 1], addr);
    }
  }

  lemma {:induction false} RecordsAreUpdates(es: seq<Event>, addr: string)
    requires Legal(es)
    ensures LastRecord(GossipTrace(es), addr).Some? ==> LastRecord(GossipTrace(es), addr) == LastUpdate(es, addr)
  {
    if es != [] {
      var init, e := es[..|es| - 1], es[|es| - 1];
      RecordsAreUpdates(init, addr);
      match e
      case Updated(batch) => RecordedBatch(GossipTrace(init), batch, addr);
      case Set(batch) =>
        assert GossipTrace(es) == GossipTrace(init);
        LastInMember(batch, addr);
      case Transition(_) =>
        assert GossipTrace(es) == GossipTrace(init);
      case Gossip(_) =>
        assert GossipTrace(es)[..|GossipTrace(init)|] == GossipTrace(init);
    }
  }

  /** On every such run the three consumers agree. An address is on the ring exactly if its last status is alive or
      suspect. A non-local address has a timer exactly if its last status is suspect, faulty or tombstone, and for that
      status. An entry of the change table is the last update for its address. So no address that waits to be
      tombstoned or evicted is on the ring. */
  lemma ConsumersAgree(c: ST.Config, es: seq<Event>, addr: string)
    requires Legal(es)
    ensures var s, last := Run(c, es), LastStatus(es, addr);
            && (addr in s.ring <==> last.Some? && OnRing(last.value))
            && (addr != c.local ==> (addr in s.transitions.timers <==> last.Some? && ST.Timed(last.value)))
            && (addr in s.transitions.timers ==> Some(s.transitions.timers[addr].state) == last)
            && (forall x :: x in s.gossip.changes && D.Address(x) == addr ==> Some(x.change) == LastUpdate(es, addr))
            && (addr in s.transitions.timers && !s.transitions.timers[addr].state.Suspect? ==> addr !in s.ring)
  {
    RingRun(es);
    TransitionsSeeLastStatus(es, addr);
    ST.TableFollowsLastStatus(c, TransitionTrace(es), addr);
    EntryIsLastRecord(GossipTrace(es));
    RecordsAreUpdates(es, addr);
    var t := D.Run(GossipTrace(es)).changes;
    forall x | x in t && D.Address(x) == addr ensures Some(x.change) == LastUpdate(es, addr) {
      var i :| 0 <= i < |t| && t[i] == x;
    }
  }

  // -------- the handlers --------

  class HashRing {
    var servers: set<string>

    constructor ()
      ensures servers == {}
    {
      servers := {};
    }

    method AddRemoveServers(serversToAdd: seq<string>, serversToRemove: seq<string>)
      modifies this
      ensures servers == old(servers) + ToSet(serversToAdd) - ToSet(serversToRemove)
    {
      for i := 0 to |serversToAdd|
        invariant servers == old(servers) + ToSet(serversToAdd[..i])
      {
        assert serversToAdd[..i + 1] == serversToAdd[..i] + [serversToAdd[i]];
        PushedSet(serversToAdd[..i], serversToAdd[i]);
        servers := servers + {serversToAdd[i]};
      }
      assert serversToAdd[..|serversToAdd|] == serversToAdd;
      for j := 0 to |serversToRemove|
        invariant servers == old(servers) + ToSet(serversToAdd) - ToSet(serversToRemove[..j])
      {
        assert serversToRemove[..j + 1] == serversToRemove[..j] + [serversToRemove[j]];
        PushedSet(serversToRemove[..j], serversToRemove[j]);
        servers := servers - {serversToRemove[j]};
      }
      assert serversToRemove[..|serversToRemove|] == serversToRemove;
    }
  }

  class Handlers {
    const transitions: ST.Transitions
    const dissemination: D.Disseminator
    const ring: HashRing

    constructor (config: ST.Config)
      ensures fresh(transitions) && fresh(dissemination) && fresh(ring)
      ensures transitions.config == config
      ensures transitions.Abstract() == ST.FRESH && dissemination.Abstract() == D.FRESH && ring.servers == {}
    {
      transitions := new ST.Transitions(config);
      dissemination := new D.Disseminator();
      ring := new HashRing();
    }

    method OnUpdatedForGossip(updates: seq<D.Change>, ghost transitionTrace: seq<ST.Event>,
                              ghost gossipTrace: seq<D.Event>)
      requires transitions.Abstract() == ST.Run(transitions.config, transitionTrace)
      requires dissemination.Abstract() == D.Run(gossipTrace)
      modifies transitions, dissemination
      ensures transitions.Abstract() == ST.Run(transitions.config, transitionTrace + HandleAll(updates))
      ensures dissemination.Abstract() == D.Run(gossipTrace + RecordAll(updates))
    {
      assert transitionTrace + HandleAll(updates[..0]) == transitionTrace
          && gossipTrace + RecordAll(updates[..0]) == gossipTrace;
      for i := 0 to |updates|
        invariant transitions.Abstract() == ST.Run(transitions.config, transitionTrace + HandleAll(updates[..i]))
        invariant dissemination.Abstract() == D.Run(gossipTrace + RecordAll(updates[..i]))
      {
        transitions.HandleUpdate(updates[i].update);
        dissemination.RecordChange(updates[i]);
        OneMoreHandled(transitions.config, transitionTrace, updates, i);
        OneMoreRecorded(gossipTrace, updates, i);
      }
      assert updates[..|updates|] == updates;
    }

    method OnUpdatedForRing(updates: seq<D.Change>)
      modifies ring
      ensures ring.servers == RingStep(old(ring.servers), Updated(updates))
    {
      var serversToAdd, serversToRemove := [], [];
      for i := 0 to |updates|
        invariant ToSet(serversToAdd) == Adds(updates[..i])
        invariant ToSet(serversToRemove) == Removes(updates[..i])
        invariant ring.servers == old(ring.servers)
      {
        var update := updates[i].update;
        AddsSnoc(updates, i);
        if update.status.Alive? || update.status.Suspect? {
          PushedSet(serversToAdd, update.address);
          serversToAdd := serversToAdd + [update.address];
        } else if update.status.Faulty? || update.status.Leave? || update.status.Tombstone? {
          PushedSet(serversToRemove, update.address);
          serversToRemove := serversToRemove + [update.address];
        }
      }
      assert updates[..|updates|] == updates;
      assert Adds(updates) == ToSet(serversToAdd) && Removes(updates) == ToSet(serversToRemove);
      if |serversToAdd| > 0 || |serversToRemove| > 0 {
        ring.AddRemoveServers(serversToAdd, serversToRemove);
      }
    }

    method OnMembershipSet(updates: seq<D.Change>, ghost transitionTrace: seq<ST.Event>)
      requires transitions.Abstract() == ST.Run(transitions.config, transitionTrace)
      modifies transitions, ring
      ensures transitions.Abstract() == ST.Run(transitions.config, transitionTrace + HandleAll(updates))
      ensures ring.servers == RingStep(old(ring.servers), Set(updates))
    {
      var serversToAdd := [];
      assert transitionTrace + HandleAll(updates[..0]) == transitionTrace;
      for i := 0 to |updates|
        invariant transitions.Abstract() == ST.Run(transitions.config, transitionTrace + HandleAll(updates[..i]))
        invariant ToSet(serversToAdd) == Adds(updates[..i])
        invariant ring.servers == old(ring.servers)
      {
        var update := updates[i].update;
        transitions.HandleUpdate(update);
        OneMoreHandled(transitions.config, transitionTrace, updates, i);
        AddsSnoc(updates, i);
        if update.status.Alive? {
          PushedSet(serversToAdd, update.address);
          serversToAdd := serversToAdd + [update.address];
        } else if update.status.Suspect? {
          PushedSet(serversToAdd, update.address);
          serversToAdd := serversToAdd + [update.address];
        }
      }
      assert updates[..|updates|] == updates;
      if |serversToAdd| > 0 {
        ring.AddRemoveServers(serversToAdd, []);
      }
    }
  }

  lemma OneMoreHandled(c: ST.Config, tr: seq<ST.Event>, updates: seq<D.Change>, i: nat)
    requires i < |updates|
    ensures ST.Run(c, tr + HandleAll(updates[..i + 1]))
            == ST.Step(c, ST.Run(c, tr + HandleAll(updates[..i])), ST.Handle(updates[i].update))
  {
    var all := tr + HandleAll(updates[..i + 1]);
    assert all[..|all| - 1] == tr + HandleAll(updates[..i]);
  }

  lemma OneMoreRecorded(tr: seq<D.Event>, updates: seq<D.Change>, i: nat)
    requires i < |updates|
    ensures D.Run(tr + RecordAll(updates[..i + 1])) == D.Step(D.Run(tr + RecordAll(updates[..i])), D.Record(updates[i]))
  {
    var all := tr + RecordAll(updates[..i + 1]);
    assert all[..|all| - 1] == tr + RecordAll(updates[..i]);
  }

  lemma AddsSnoc(updates: seq<D.Change>, i: nat)
    requires i < |updates|
    ensures Adds(updates[..i + 1]) ==
            Adds(updates[..i]) + (if OnRing(updates[i].update.status) then {updates[i].update.address} else {})
    ensures Removes(updates[..i + 1]) ==
            Removes(updates[..i]) + (if OffRing(updates[i].update.status) then {updates[i].update.address} else {})
  {
    assert updates[..i + 1] == updates[..i] + [updates[i]];
  }

  function ToSet(s: seq<string>): set<string> {
    set x | x in s
  }

  lemma PushedSet(s: seq<string>, x: string)
    ensures ToSet(s + [x]) == ToSet(s) + {x}
  {
  }
}
