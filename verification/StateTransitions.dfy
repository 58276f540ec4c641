/** The per-address timers of gossip/state_transitions.js, over every sequence of updates, timeouts, disables and
    enables. */
module StateTransitions {
  import opened Basics

  /** The listed statuses; any other name is ignored by the handlers. */
  datatype Status = Alive | Leave | Suspect | Faulty | Tombstone | Other(name: string)

  datatype Update = Update(address: string, incarnationNumber: int, status: Status)

  /** A timer-table entry: the handle `setTimeout` returned, and the status it was scheduled for. */
  datatype Entry = Entry(handle: nat, state: Status)

  /** A timeout that has not fired and is not cleared, with the update its closure captured. */
  datatype Pending = Pending(update: Update, delay: nat)

  /** What a timeout does when it fires. */
  datatype Action = MakeFaulty(addr: string, inc: int) | MakeTombstone(addr: string, inc: int) | Evict(addr: string)

  datatype Periods = Periods(suspect: nat, faulty: nat, tombstone: nat)

  /** `live` is the runtime's set of pending timeouts. */
  datatype State = State(enabled: bool, timers: map<string, Entry>, live: map<nat, Pending>, nextHandle: nat)

  datatype Event = Handle(update: Update) | Fire(handle: nat) | Disable | Enable

  datatype Config = Config(local: string, periods: Periods)

  const FRESH := State(true, map[], map[], 0)

  predicate Timed(s: Status) {
    s.Suspect? || s.Faulty? || s.Tombstone?
  }

  function Period(p: Periods, s: Status): nat
    requires Timed(s)
  {
    match s
    case Suspect => p.suspect
    case Faulty => p.faulty
    case Tombstone => p.tombstone
  }

  function ActionOf(u: Update): Action
    requires Timed(u.status)
  {
    match u.status
    case Suspect => MakeFaulty(u.address, u.incarnationNumber)
    case Faulty => MakeTombstone(u.address, u.incarnationNumber)
    case Tombstone => Evict(u.address)
  }

  function Cancel(s: State, addr: string): State {
    if addr in s.timers then s.(timers := s.timers - {addr}, live := s.live - {s.timers[addr].handle}) else s
  }

  function Schedule(c: Config, s: State, u: Update): State
    requires Timed(u.status)
  {
    if !s.enabled || u.address == c.local then s
    else if u.address in s.timers && s.timers[u.address].state == u.status then s
    else
      var t := Cancel(s, u.address);
      t.(timers := t.timers[u.address := Entry(t.nextHandle, u.status)],
         live := t.live[t.nextHandle := Pending(u, Period(c.periods, u.status))],
         nextHandle := t.nextHandle + 1)
  }

  function Step(c: Config, s: State, e: Event): State {
    match e
    case Handle(u) =>
      if u.status.Alive? || u.status.Leave? then Cancel(s, u.address)
      else if Timed(u.status) then Schedule(c, s, u)
      else s
    case Fire(h) => s.(live := s.live - {h})
    case Disable =>
      s.(enabled := false, timers := map[],
         live := s.live - (set a | a in s.timers :: s.timers[a].handle))
    case Enable => s.(enabled := true)
  }

  function Run(c: Config, es: seq<Event>): State {
    if es == [] then FRESH else Step(c, Run(c, es[..|es| - 1]), es[|es| - 1])
  }

  // -------- what the table should hold, read off the events alone --------

  function EnabledAfter(es: seq<Event>): bool {
    if es == [] then true
    else
      match es[|es| - 1]
      case Enable => true
      case Disable => false
      case _ => EnabledAfter(es[..|es| - 1])
  }

  /** The last update handled for `addr` with a listed status since the transitions were last enabled. */
  function LastHandled(es: seq<Event>, addr: string): Option<Status> {
    if es == [] then None
    else
      var before := LastHandled(es[..|es| - 1], addr);
      match es[|es| - 1]
      case Disable => None
      case Handle(u) =>
        if u.address == addr && !u.status.Other? && EnabledAfter(es[..|es| - 1]) then Some(u.status) else before
      case _ => before
  }

  /** The update that began the unbroken row of updates with the last status of `addr`. */
  function RowStart(es: seq<Event>, addr: string): Option<Update> {
    if es == [] then None
    else
      var init := es[..|es| - 1];
      match es[|es| - 1]
      case Disable => None
      case Handle(u) =>
        if u.address == addr && !u.status.Other? && EnabledAfter(init) && LastHandled(init, addr) != Some(u.status)
        then Some(u) else RowStart(init, addr)
      case _ => RowStart(init, addr)
  }

  /** The table agrees with the last handled statuses. */
  ghost predicate TableInv(c: Config, es: seq<Event>, s: State) {
    && s.enabled == EnabledAfter(es)
    && (!s.enabled ==> s.timers == map[] && forall a :: LastHandled(es, a) == None)
    && (s.enabled ==> forall a :: a in s.timers <==>
          a != c.local && LastHandled(es, a).Some? && Timed(LastHandled(es, a).value))
    && (forall a :: a in s.timers ==>
        Some(s.timers[a].state) == LastHandled(es, a) && s.timers[a].handle < s.nextHandle)
  }

  /** Every live timeout is the one its address's entry holds. */
  ghost predicate LiveInv(c: Config, es: seq<Event>, s: State) {
    forall h :: h in s.live ==> HeldByEntry(c, es, s, h)
  }

  /** It also captured the update that began the current row. */
  ghost predicate HeldByEntry(c: Config, es: seq<Event>, s: State, h: nat)
    requires h in s.live
  {
    var u := s.live[h].update;
    && u.address in s.timers && s.timers[u.address] == Entry(h, u.status)
    && RowStart(es, u.address) == Some(u)
    && Timed(u.status) && s.live[h].delay == Period(c.periods, u.status)
  }

  ghost predicate Inv(c: Config, es: seq<Event>, s: State) {
    && TableInv(c, es, s)
    && LiveInv(c, es, s)
    && (forall a, b :: a in s.timers && b in s.timers && a != b ==> s.timers[a].handle != s.timers[b].handle)
  }

  lemma SnocFacts(es: seq<Event>, e: Event)
    ensures (es + [e])[..|es|] == es && (es + [e])[|es|] == e
  {
  }

  /** How one handled update changes the history of each address. */
  lemma HandleHistory(es: seq<Event>, u: Update)
    ensures var es' := es + [Handle(u)];
            var counts := !u.status.Other? && EnabledAfter(es);
            && EnabledAfter(es') == EnabledAfter(es)
            && (forall a ::
                  LastHandled(es', a) == if counts && a == u.address then Some(u.status) else LastHandled(es, a))
            && (forall a :: RowStart(es', a) ==
                  if counts && a == u.address && LastHandled(es, a) != Some(u.status) then Some(u) else RowStart(es, a))
  {
    SnocFacts(es, Handle(u));
  }

  lemma HandleKeepsTable(c: Config, es: seq<Event>, s: State, u: Update)
    requires TableInv(c, es, s)
    ensures TableInv(c, es + [Handle(u)], Step(c, s, Handle(u)))
  {
    HandleHistory(es, u);
  }

  lemma HandleKeepsInv(c: Config, es: seq<Event>, s: State, u: Update)
    requires Inv(c, es, s)
    ensures Inv(c, es + [Handle(u)], Step(c, s, Handle(u)))
  {
    HandleKeepsTable(c, es, s, u);
    var t := Step(c, s, Handle(u));
    forall h | h in t.live
      ensures HeldByEntry(c, es + [Handle(u)], t, h)
    {
      LiveAfterHandle(c, es, s, u, h);
    }
  }

  lemma LiveAfterHandle(c: Config, es: seq<Event>, s: State, u: Update, h: nat)
    requires Inv(c, es, s) && h in Step(c, s, Handle(u)).live
    ensures HeldByEntry(c, es + [Handle(u)], Step(c, s, Handle(u)), h)
  {
    HandleHistory(es, u);
    if h in s.live {
      assert HeldByEntry(c, es, s, h);
    }
  }

  lemma OtherKeepsInv(c: Config, es: seq<Event>, s: State, e: Event)
    requires Inv(c, es, s) && !e.Handle?
    ensures Inv(c, es + [e], Step(c, s, e))
  {
    SnocFacts(es, e);
    var t := Step(c, s, e);
    assert TableInv(c, es + [e], t);
    forall h | h in t.live
      ensures HeldByEntry(c, es + [e], t, h)
    {
      assert HeldByEntry(c, es, s, h);
    }
  }

  lemma {:induction false} RunKeepsInv(c: Config, es: seq<Event>)
    ensures Inv(c, es, Run(c, es))
  {
    if es != [] {
      var init, e := es[..|es| - 1], es[|es| - 1];
      RunKeepsInv(c, init);
      assert es == init + [e];
      if e.Handle? {
        HandleKeepsInv(c, init, Run(c, init), e.update);
      } else {
        OtherKeepsInv(c, init, Run(c, init), e);
      }
    }
  }

  /** After any run, while enabled, the table holds for every non-local address exactly the last handled status if that
      is suspect, faulty or tombstone, and nothing otherwise; while disabled no timeout is live and the table is
      empty. */
  lemma TableFollowsLastStatus(c: Config, es: seq<Event>, addr: string)
    ensures EnabledAfter(es) && addr != c.local ==>
              (addr in Run(c, es).timers <==> LastHandled(es, addr).Some? && Timed(LastHandled(es, addr).value))
    ensures addr in Run(c, es).timers ==> Some(Run(c, es).timers[addr].state) == LastHandled(es, addr)
    ensures addr in Run(c, es).timers ==> addr != c.local && EnabledAfter(es)
    ensures !EnabledAfter(es) ==> Run(c, es).live == map[]
  {
    RunKeepsInv(c, es);
    var s := Run(c, es);
    assert forall h :: h in s.live ==> s.live[h].update.address in s.timers;
    if !EnabledAfter(es) {
      assert s.live.Keys == {};
    }
  }

  /** No stale transition fires: whenever a timeout is live, transitions are enabled, its address is not the local one,
      the status it acts on is still the last one handled, and the incarnation number it carries is that of the first
      update in the unbroken row of updates with that status. Two live timeouts never concern the same address. */
  lemma NoStaleTransition(c: Config, es: seq<Event>, h: nat, h': nat)
    requires h in Run(c, es).live && h' in Run(c, es).live
    ensures var u := Run(c, es).live[h].update;
            && EnabledAfter(es) && u.address != c.local
            && LastHandled(es, u.address) == Some(u.status)
            && RowStart(es, u.address) == Some(u)
            && Timed(u.status) && Run(c, es).live[h].delay == Period(c.periods, u.status)
            && (Run(c, es).live[h'].update.address == u.address ==> h' == h)
  {
    RunKeepsInv(c, es);
    assert HeldByEntry(c, es, Run(c, es), h);
    assert HeldByEntry(c, es, Run(c, es), h');
  }

  /** The run that shows it: of two updates in a row with one status, the timeout carries the first. */
  lemma FirstOfTheRowIsCarried(c: Config, first: Update, second: Update)
    requires first.address == second.address != c.local && first.status == second.status && Timed(first.status)
    requires first.incarnationNumber < second.incarnationNumber
    ensures var s := Run(c, [Handle(first)] + [Handle(second)]);
            && s.live == map[0 := Pending(first, Period(c.periods, first.status))]
            && (first.status.Tombstone? || ActionOf(s.live[0].update) != ActionOf(second))
  {
    var es := [Handle(first)];
    assert es[..0] == [] && (es + [Handle(second)])[..1] == es;
    assert Run(c, es).live == map[0 := Pending(first, Period(c.periods, first.status))];
  }

  /** What a live timeout will do, and when, read off the last handled status and the first update of its row. */
  lemma TimeoutActs(c: Config, es: seq<Event>, h: nat)
    requires h in Run(c, es).live
    ensures var p := Run(c, es).live[h]; var addr := p.update.address;
            && Timed(p.update.status) && LastHandled(es, addr).Some? && RowStart(es, addr).Some?
            && var inc := RowStart(es, addr).value.incarnationNumber;
            && (LastHandled(es, addr).value.Suspect? ==>
                  ActionOf(p.update) == MakeFaulty(addr, inc) && p.delay == c.periods.suspect)
            && (LastHandled(es, addr).value.Faulty? ==>
                  ActionOf(p.update) == MakeTombstone(addr, inc) && p.delay == c.periods.faulty)
            && (LastHandled(es, addr).value.Tombstone? ==>
                  ActionOf(p.update) == Evict(addr) && p.delay == c.periods.tombstone)
  {
    NoStaleTransition(c, es, h, h);
  }

  // -------- from suspect to evicted --------

  /** The update that membership hands back for an action; an eviction only removes the member. */
  function FedBack(a: Action): Option<Update> {
    match a
    case MakeFaulty(addr, inc) => Some(Update(addr, inc, Faulty))
    case MakeTombstone(addr, inc) => Some(Update(addr, inc, Tombstone))
    case Evict(_) => None
  }

  /** Nothing contradicts the status of `addr`, nothing disables the transitions, and its timeout does not fire. */
  predicate Uncontradicted(more: seq<Event>, addr: string, status: Status, h: nat) {
    forall i :: 0 <= i < |more| ==>
      match more[i]
      case Handle(u) => u.address != addr || u.status == status || u.status.Other?
      case Fire(k) => k != h
      case Disable => false
      case Enable => true
  }

  /** The timeout of `addr` is live and held by its entry. */
  predicate Waits(s: State, h: nat, u: Update, delay: nat) {
    && s.enabled && h < s.nextHandle
    && h in s.live && s.live[h] == Pending(u, delay)
    && u.address in s.timers && s.timers[u.address] == Entry(h, u.status)
  }

  /** No other entry holds that handle. */
  ghost predicate Alone(s: State, h: nat, addr: string) {
    forall a :: a in s.timers && s.timers[a].handle == h ==> a == addr
  }

  lemma StepWaits(c: Config, s: State, e: Event, h: nat, u: Update, delay: nat)
    requires Waits(s, h, u, delay) && Alone(s, h, u.address) && Timed(u.status)
    requires Uncontradicted([e], u.address, u.status, h)
    ensures Waits(Step(c, s, e), h, u, delay) && Alone(Step(c, s, e), h, u.address)
  {
    assert [e][0] == e;
  }

  lemma {:induction false} StaysWaiting(c: Config, es: seq<Event>, more: seq<Event>, h: nat, u: Update, delay: nat)
    requires Waits(Run(c, es), h, u, delay) && Alone(Run(c, es), h, u.address) && Timed(u.status)
    requires Uncontradicted(more, u.address, u.status, h)
    ensures Waits(Run(c, es + more), h, u, delay) && Alone(Run(c, es + more), h, u.address)
  {
    if more == [] {
      assert es + more == es;
    } else {
      var init, e := more[..|more| - 1], more[|more| - 1];
      assert forall i :: 0 <= i < |init| ==> init[i] == more[i];
      StaysWaiting(c, es, init, h, u, delay);
      assert es + more == es + init + [e];
      SnocFacts(es + init, e);
      StepWaits(c, Run(c, es + init), e, h, u, delay);
    }
  }

  /** An update with a new timed status of another member starts its timeout. */
  lemma Starts(c: Config, es: seq<Event>, u: Update)
    requires Run(c, es).enabled && u.address != c.local && Timed(u.status)
    requires u.address in Run(c, es).timers ==> Run(c, es).timers[u.address].state != u.status
    ensures var h := Run(c, es).nextHandle; var t := Run(c, es + [Handle(u)]);
            && Waits(t, h, u, Period(c.periods, u.status)) && Alone(t, h, u.address)
  {
    SnocFacts(es, Handle(u));
    RunKeepsInv(c, es);
  }

  /** The timeout of one stage fires and its action comes back as an update, which starts the next stage. */
  lemma NextStage(c: Config, es: seq<Event>, h: nat, u: Update, v: Update)
    requires Timed(u.status) && Timed(v.status) && v.address == u.address && v.status != u.status
    requires u.address != c.local && Waits(Run(c, es), h, u, Period(c.periods, u.status))
    ensures var t := Run(c, es + [Fire(h)] + [Handle(v)]);
            && Waits(t, Run(c, es).nextHandle, v, Period(c.periods, v.status))
            && Alone(t, Run(c, es).nextHandle, v.address)
  {
    SnocFacts(es, Fire(h));
    Starts(c, es + [Fire(h)], v);
  }

  /** A suspect that nothing contradicts is made faulty, then a tombstone, and then evicted, with its own incarnation
      number and each after its period, whatever else happens meanwhile; and then nothing waits for it any more. */
  lemma SuspectIsEvictedInTheEnd(c: Config, es: seq<Event>, u: Update, m1: seq<Event>, m2: seq<Event>, m3: seq<Event>)
    requires Run(c, es).enabled && u.address != c.local && u.status == Suspect
    requires LastHandled(es, u.address) != Some(Suspect)
    requires Uncontradicted(m1, u.address, Suspect, Run(c, es).nextHandle)
    requires var e1 := es + [Handle(u)] + m1; Uncontradicted(m2, u.address, Faulty, Run(c, e1).nextHandle)
    requires var e1 := es + [Handle(u)] + m1;
             var e2 := e1 + [Fire(Run(c, es).nextHandle)] + [Handle(u.(status := Faulty))] + m2;
             Uncontradicted(m3, u.address, Tombstone, Run(c, e2).nextHandle)
    ensures var h1, e1 := Run(c, es).nextHandle, es + [Handle(u)] + m1;
            var h2, e2 := Run(c, e1).nextHandle, e1 + [Fire(h1)] + [Handle(u.(status := Faulty))] + m2;
            var h3, e3 := Run(c, e2).nextHandle, e2 + [Fire(h2)] + [Handle(u.(status := Tombstone))] + m3;
            && Acts(Run(c, e1), h1, MakeFaulty(u.address, u.incarnationNumber), c.periods.suspect)
            && FedBack(MakeFaulty(u.address, u.incarnationNumber)) == Some(u.(status := Faulty))
            && Acts(Run(c, e2), h2, MakeTombstone(u.address, u.incarnationNumber), c.periods.faulty)
            && FedBack(MakeTombstone(u.address, u.incarnationNumber)) == Some(u.(status := Tombstone))
            && Acts(Run(c, e3), h3, Evict(u.address), c.periods.tombstone)
            && FedBack(Evict(u.address)) == None
            && (forall h :: h in Run(c, e3 + [Fire(h3)]).live ==>
                  Run(c, e3 + [Fire(h3)]).live[h].update.address != u.address)
  {
    var h1, e1, faulty := Run(c, es).nextHandle, es + [Handle(u)] + m1, u.(status := Faulty);
    var h2, e2, tombstone := Run(c, e1).nextHandle, e1 + [Fire(h1)] + [Handle(faulty)] + m2, u.(status := Tombstone);
    var h3, e3 := Run(c, e2).nextHandle, e2 + [Fire(h2)] + [Handle(tombstone)] + m3;
    RunKeepsInv(c, es);
    Starts(c, es, u);
    StaysWaiting(c, es + [Handle(u)], m1, h1, u, c.periods.suspect);
    NextStage(c, e1, h1, u, faulty);
    StaysWaiting(c, e1 + [Fire(h1)] + [Handle(faulty)], m2, h2, faulty, c.periods.faulty);
    NextStage(c, e2, h2, faulty, tombstone);
    StaysWaiting(c, e2 + [Fire(h2)] + [Handle(tombstone)], m3, h3, tombstone, c.periods.tombstone);
    LastOneFires(c, e3, h3, tombstone);
  }

  /** A live timeout that does this when it fires. */
  predicate Acts(s: State, h: nat, action: Action, delay: nat) {
    h in s.live && Timed(s.live[h].update.status) && ActionOf(s.live[h].update) == action && s.live[h].delay == delay
  }

  lemma LastOneFires(c: Config, es: seq<Event>, h: nat, u: Update)
    requires h in Run(c, es).live && Run(c, es).live[h].update == u
    ensures forall k :: k in Run(c, es + [Fire(h)]).live ==> Run(c, es + [Fire(h)]).live[k].update.address != u.address
  {
    SnocFacts(es, Fire(h));
    forall k | k in Run(c, es).live && k != h ensures Run(c, es).live[k].update.address != u.address {
      NoStaleTransition(c, es, h, k);
    }
  }

  // -------- the class --------

  ghost predicate LeftOf(was: map<string, Entry>, left: map<string, Entry>) {
    forall a :: a in left ==> a in was && left[a] == was[a]
  }

  /** The handles of the entries that are no longer in the table. */
  ghost function Cleared(was: map<string, Entry>, left: map<string, Entry>): set<nat> {
    set a | a in was && a !in left :: was[a].handle
  }

  function Minus(live: map<nat, Pending>, handles: set<nat>): map<nat, Pending> {
    live - handles
  }

  lemma MinusOne(live: map<nat, Pending>, handles: set<nat>, h: nat)
    ensures Minus(live, handles) - {h} == Minus(live, handles + {h})
  {
  }

  lemma NoneCleared(was: map<string, Entry>, live: map<nat, Pending>)
    ensures LeftOf(was, was) && Minus(live, Cleared(was, was)) == live
  {
    assert Cleared(was, was) == {};
  }

  lemma ClearedOne(was: map<string, Entry>, left: map<string, Entry>, key: string)
    requires LeftOf(was, left) && key in left
    ensures LeftOf(was, left - {key})
    ensures Cleared(was, left - {key}) == Cleared(was, left) + {left[key].handle}
  {
    assert forall a :: a in was && a !in left - {key} <==> (a in was && a !in left) || a == key;
  }

  class Transitions {
    const config: Config
    var enabled: bool
    var timers: map<string, Entry>
    var nextHandle: nat
    var live: map<nat, Pending>

    ghost function Abstract(): State
      reads this
    {
      State(enabled, timers, live, nextHandle)
    }

    constructor (config: Config)
      ensures Abstract() == FRESH && this.config == config
    {
      this.config := config;
      enabled, timers, nextHandle, live := true, map[], 0, map[];
    }

    method SetTimeout(update: Update, delay: nat) returns (handle: nat)
      modifies this`nextHandle, this`live
      ensures handle == old(nextHandle) && nextHandle == old(nextHandle) + 1
      ensures live == old(live)[handle := Pending(update, delay)]
    {
      handle := nextHandle;
      nextHandle := nextHandle + 1;
      live := live[handle := Pending(update, delay)];
    }

    method ClearTimeout(handle: nat)
      modifies this`live
      ensures live == old(live) - {handle}
    {
      live := live - {handle};
    }

    method HandleUpdate(update: Update)
      modifies this
      ensures Abstract() == Step(config, old(Abstract()), Event.Handle(update))
    {
      match update.status {
        case Alive => CancelTimer(update.address);
        case Leave => CancelTimer(update.address);
        case Suspect => ScheduleTransition(update, config.periods.suspect);
        case Faulty => ScheduleTransition(update, config.periods.faulty);
        case Tombstone => ScheduleTransition(update, config.periods.tombstone);
        case Other(_) =>
      }
    }

    method ScheduleTransition(update: Update, timeout: nat)
      requires Timed(update.status) && timeout == Period(config.periods, update.status)
      modifies this
      ensures Abstract() == Schedule(config, old(Abstract()), update)
    {
      if !enabled || update.address == config.local {
        return;
      }
      if update.address in timers {
        if timers[update.address].state == update.status {
          return;
        }
        CancelTimer(update.address);
      }
      var handle := SetTimeout(update, timeout);
      timers := timers[update.address := Entry(handle, update.status)];
    }

    method CancelTimer(addr: string)
      modifies this
      ensures Abstract() == Cancel(old(Abstract()), addr)
    {
      if addr !in timers {
        return;
      }
      ClearTimeout(timers[addr].handle);
      timers := timers - {addr};
    }

    /** The runtime fires a pending timeout; the table entry stays. */
    method OnTimeout(handle: nat) returns (action: Action)
      requires handle in live && Timed(live[handle].update.status)
      modifies this`live
      ensures Abstract() == Step(config, old(Abstract()), Event.Fire(handle))
      ensures action == ActionOf(old(live)[handle].update)
      ensures var u := old(live)[handle].update;
              && (u.status.Suspect? ==> action == MakeFaulty(u.address, u.incarnationNumber))
              && (u.status.Faulty? ==> action == MakeTombstone(u.address, u.incarnationNumber))
              && (u.status.Tombstone? ==> action == Evict(u.address))
    {
      var update := live[handle].update;
      live := live - {handle};
      match update.status
      case Suspect =>
        return MakeFaulty(update.address, update.incarnationNumber);
      case Faulty =>
        return MakeTombstone(update.address, update.incarnationNumber);
      case Tombstone =>
        return Evict(update.address);
    }

    /** Clears one timeout and its entry. */
    method ClearTimer(key: string, ghost was: map<string, Entry>, ghost liveWas: map<nat, Pending>)
      requires key in timers && LeftOf(was, timers) && live == Minus(liveWas, Cleared(was, timers))
      modifies this`timers, this`live
      ensures timers == old(timers) - {key}
      ensures LeftOf(was, timers) && live == Minus(liveWas, Cleared(was, timers))
    {
      ClearedOne(was, timers, key);
      MinusOne(liveWas, Cleared(was, timers), timers[key].handle);
      ClearTimeout(timers[key].handle);
      timers := timers - {key};
    }

    method ClearTimers()
      modifies this`timers, this`live
      ensures timers == map[] && live == Minus(old(live), Cleared(old(timers), map[]))
    {
      ghost var was, liveWas := timers, live;
      NoneCleared(was, liveWas);
      var timerKeys := timers.Keys;
      while timerKeys != {}
        invariant timerKeys == timers.Keys
        invariant LeftOf(was, timers) && live == Minus(liveWas, Cleared(was, timers))
        decreases timerKeys
      {
        var key :| key in timerKeys;
        ClearTimer(key, was, liveWas);
        timerKeys := timerKeys - {key};
      }
      assert timers == map[];
    }

    method Disable()
      modifies this
      ensures Abstract() == Step(config, old(Abstract()), Event.Disable)
    {
      enabled := false;
      ghost var was := timers;
      ClearTimers();
      assert Cleared(was, map[]) == set a | a in was :: was[a].handle;
    }

    method Enable()
      modifies this
      ensures Abstract() == Step(config, old(Abstract()), Event.Enable)
    {
      if enabled {
        return;
      }
      enabled := true;
    }
  }
}
