/** The durable timers of skyring/lib/timer.js: an in-memory map, a first-in first-out store and the live timeouts. */
module SkyringTimer {
  import opened Basics

  /** The body of a request; `created` is 0 when it is not given. */
  datatype Payload = Payload(timeout: nat, created: nat, transport: string, data: string)

  /** A map entry, with the handle of its timeout. */
  datatype Record = Record(id: string, created: nat, payload: Payload, timer: nat)

  /** The same without the handle, as the store keeps it. */
  datatype Stored = Stored(created: nat, payload: Payload)

  /** A storage operation that has not completed, with what its callback closed over. */
  datatype Op =
    | Put(id: string, value: Stored, delay: nat)
    | Del(id: string, update: Option<Payload>)
    | BatchDel(ids: seq<string>)

  /** A timeout that has not fired and is not cleared; `payload` is what it executes. */
  datatype Timeout = Timeout(id: string, fireAt: nat, payload: Payload)

  /** What `create` makes of a payload. */
  datatype Admission = UnknownTransport | AlreadyExists | Stale | Queued(value: Stored, delay: nat)

  /** `records` is the map in insertion order. `continuations` are updates whose removal is done, `snapshot` is what the
      recovery stream has still to deliver, `executed` and `handedOut` are what left this node, and `leaving` are the
      ids that a shutdown deletes from the store once the other nodes have taken them over. */
  datatype State = State(transports: set<string>, records: seq<Record>, store: map<string, Stored>, queue: seq<Op>,
                         live: map<nat, Timeout>, nextHandle: nat, continuations: seq<(string, Payload)>,
                         snapshot: map<string, Stored>, executed: seq<(string, Payload)>,
                         handedOut: seq<(string, Payload)>, leaving: seq<string>, clock: nat)

  datatype Event =
    | Create(id: string, payload: Payload, now: nat)
    | Remove(id: string)
    | Update(id: string, payload: Payload)
    | Continue(now: nat)
    | Complete(ok: bool, now: nat)
    | Rebalance(owned: set<string>)
    | RecoverStart
    | RecoverData(id: string, now: nat)
    | Fire(handle: nat, now: nat)
    | Shutdown
    | HandedOver

  function Fresh(transports: set<string>, store: map<string, Stored>, now: nat): State {
    State(transports, [], store, [], map[], 0, [], map[], [], [], [], now)
  }

  function Ids(records: seq<Record>): set<string> {
    set r | r in records :: r.id
  }

  function Created(p: Payload, now: nat): nat {
    if p.created == 0 then now else p.created
  }

  /** Staleness and the remaining delay, from the payload and the time alone. */
  function Admit(p: Payload, now: nat): Admission {
    var created := Created(p, now);
    if now > created + p.timeout then Stale else Queued(Stored(created, p), p.timeout + created - now)
  }

  function Judge(s: State, id: string, p: Payload, now: nat): Admission {
    if p.transport !in s.transports then UnknownTransport
    else if id in Ids(s.records) then AlreadyExists
    else Admit(p, now)
  }

  function AfterCreate(s: State, id: string, p: Payload, now: nat): State {
    match Judge(s, id, p, now)
    case Stale => s.(executed := s.executed + [(id, p)])
    case Queued(value, delay) => s.(queue := s.queue + [Put(id, value, delay)])
    case _ => s
  }

  /** The payload that rebalance, shutdown and recovery pass on. */
  function HandOver(v: Stored): Payload {
    v.payload.(created := v.created)
  }

  /** `Map.set`: an existing id keeps its place. */
  function SetRecord(records: seq<Record>, r: Record): seq<Record> {
    if records == [] then [r]
    else if records[0].id == r.id then [r] + records[1..]
    else [records[0]] + SetRecord(records[1..], r)
  }

  function WithoutId(records: seq<Record>, id: string): seq<Record> {
    Filter(records, (r: Record) => r.id != id)
  }

  function Owned(records: seq<Record>, owned: set<string>): seq<Record> {
    Filter(records, (r: Record) => r.id in owned)
  }

  function NotOwned(records: seq<Record>, owned: set<string>): seq<Record> {
    Filter(records, (r: Record) => r.id !in owned)
  }

  function Timers(records: seq<Record>): set<nat> {
    set r | r in records :: r.timer
  }

  function IdList(records: seq<Record>): seq<string> {
    seq(|records|, i requires 0 <= i < |records| => records[i].id)
  }

  function Outgoing(records: seq<Record>): seq<(string, Payload)> {
    seq(|records|, i requires 0 <= i < |records| =>
        (records[i].id, HandOver(Stored(records[i].created, records[i].payload))))
  }

  function AfterPut(s: State, op: Op, ok: bool, now: nat): State
    requires op.Put?
  {
    if !ok then s
    else
      s.(store := s.store[op.id := op.value],
         live := s.live[s.nextHandle := Timeout(op.id, now + op.delay, op.value.payload)],
         records := SetRecord(s.records, Record(op.id, op.value.created, op.value.payload, s.nextHandle)),
         nextHandle := s.nextHandle + 1)
  }

  function TimersOf(records: seq<Record>, id: string): set<nat> {
    set r | r in records && r.id == id :: r.timer
  }

  function AfterDel(s: State, op: Op, ok: bool): State
    requires op.Del?
  {
    if !ok then s
    else
      var t := s.(store := s.store - {op.id});
      if op.id !in Ids(s.records) then t
      else
        t.(live := s.live - TimersOf(s.records, op.id), records := WithoutId(s.records, op.id),
           continuations := if op.update.Some? then s.continuations + [(op.id, op.update.value)] else s.continuations)
  }

  /** The callback of a storage operation. */
  function Completed(s: State, op: Op, ok: bool, now: nat): State {
    match op
    case Put(_, _, _) => AfterPut(s, op, ok, now)
    case Del(_, _) => AfterDel(s, op, ok)
    case BatchDel(ids) => if ok then s.(store := s.store - set i | i in ids) else s
  }

  function Step(s: State, e: Event): State {
    match e
    case Create(id, p, now) => AfterCreate(s, id, p, now).(clock := now)
    case Remove(id) => s.(queue := s.queue + [Del(id, None)])
    case Update(id, p) => s.(queue := s.queue + [Del(id, Some(p))])
    case Continue(now) =>
      if s.continuations == [] then s
      else
        var (id, p) := s.continuations[0];
        AfterCreate(s.(continuations := s.continuations[1..]), id, p, now).(clock := now)
    case Complete(ok, now) =>
      if s.queue == [] then s
      else
        Completed(s.(queue := s.queue[1..], clock := now), s.queue[0], ok, now)
    case Rebalance(owned) =>
      if s.records == [] then s
      else
        var gone := NotOwned(s.records, owned);
        s.(records := Owned(s.records, owned), live := s.live - Timers(gone),
           queue := s.queue + [BatchDel(IdList(gone))], handedOut := s.handedOut + Outgoing(gone))
    case RecoverStart => s.(snapshot := s.store)
    case RecoverData(id, now) =>
      if id !in s.snapshot then s
      else AfterCreate(s.(snapshot := s.snapshot - {id}), id, HandOver(s.snapshot[id]), now).(clock := now)
    case Fire(h, now) =>
      if h !in s.live then s
      else s.(live := s.live - {h}, executed := s.executed + [(s.live[h].id, s.live[h].payload)], clock := now)
    case Shutdown =>
      s.(records := [], live := s.live - Timers(s.records), handedOut := s.handedOut + Outgoing(s.records),
         leaving := IdList(s.records))
    case HandedOver => s.(queue := s.queue + [BatchDel(s.leaving)], leaving := [])
  }

  // -------- legal runs --------

  predicate PutPending(s: State, id: string) {
    exists i :: 0 <= i < |s.queue| && s.queue[i].Put? && s.queue[i].id == id
  }

  /** Time does not run back, a timeout fires when it is due, and nothing is created while its put is still pending, or
      while a shutdown hands it over. */
  predicate Enabled(s: State, e: Event) {
    match e
    case Create(id, _, now) => s.clock <= now && Free(s, id)
    case Continue(now) => s.clock <= now && s.continuations != [] && Free(s, s.continuations[0].0)
    case Complete(_, now) => s.clock <= now && s.queue != []
    case RecoverData(id, now) => s.clock <= now && id in s.snapshot && Free(s, id)
    case Fire(h, now) => s.clock <= now && h in s.live && s.live[h].fireAt <= now
    case Shutdown => s.leaving == []
    case HandedOver => s.leaving != []
    case _ => true
  }

  predicate Free(s: State, id: string) {
    !PutPending(s, id) && id !in s.leaving
  }

  ghost predicate Legal(init: State, es: seq<Event>) {
    es == [] || (Legal(init, es[..|es| - 1]) && Enabled(Run(init, es[..|es| - 1]), es[|es| - 1]))
  }

  ghost function Run(init: State, es: seq<Event>): State {
    if es == [] then init else Step(Run(init, es[..|es| - 1]), es[|es| - 1])
  }

  // -------- agreement of map, store and timeouts --------

  ghost predicate DistinctIds(records: seq<Record>) {
    forall i, j :: 0 <= i < j < |records| ==> records[i].id != records[j].id
  }

  /** Every map entry is in the store with the same contents, and every live timeout is held by its id's entry. */
  ghost predicate Agreement(s: State) {
    && DistinctIds(s.records)
    && (forall r :: r in s.records ==> r.id in s.store && s.store[r.id] == Stored(r.created, r.payload))
    && (forall h :: h in s.live ==> Held(s.records, h, s.live[h]))
  }

  ghost predicate Held(records: seq<Record>, h: nat, t: Timeout) {
    exists r :: r in records && r.id == t.id && r.timer == h && r.payload == t.payload
  }

  /** Handles are not reused. */
  ghost predicate HandlesFresh(s: State) {
    && (forall r :: r in s.records ==> r.timer < s.nextHandle)
    && (forall h :: h in s.live ==> h < s.nextHandle)
    && (forall r, q :: r in s.records && q in s.records && r.timer == q.timer ==> r == q)
  }

  /** The pending operations: a put concerns an id that is not in the map, that no other put and no later batch
      concerns; a batch concerns no id of the map. */
  ghost predicate QueueInv(s: State) {
    && (forall i :: 0 <= i < |s.queue| && s.queue[i].Put? ==> s.queue[i].id !in Ids(s.records))
    && (forall i :: 0 <= i < |s.queue| && s.queue[i].BatchDel? ==>
          forall id :: id in s.queue[i].ids ==> id !in Ids(s.records))
    && (forall i, j :: 0 <= i < j < |s.queue| && s.queue[i].Put? ==> !Concerns(s.queue[j], s.queue[i].id))
  }

  predicate Concerns(op: Op, id: string) {
    (op.Put? && op.id == id) || (op.BatchDel? && id in op.ids)
  }

  /** No timeout fires before its deadline. */
  ghost predicate NeverEarly(s: State) {
    && (forall i :: 0 <= i < |s.queue| && s.queue[i].Put? ==>
          s.clock + s.queue[i].delay >= s.queue[i].value.created + s.queue[i].value.payload.timeout)
    && (forall h, r :: h in s.live && r in s.records && r.timer == h ==>
          s.live[h].fireAt >= r.created + r.payload.timeout)
  }

  /** What a shutdown hands over is neither in the map nor about to be. */
  ghost predicate LeavingInv(s: State) {
    && (forall r :: r in s.records ==> r.id !in s.leaving)
    && (forall i :: 0 <= i < |s.queue| && s.queue[i].Put? ==> s.queue[i].id !in s.leaving)
  }

  ghost predicate Inv(s: State) {
    Agreement(s) && HandlesFresh(s) && QueueInv(s) && NeverEarly(s) && LeavingInv(s)
  }

  // -------- lemmas on the map --------

  lemma {:induction false} SetMembers(records: seq<Record>, r: Record)
    requires DistinctIds(records)
    ensures DistinctIds(SetRecord(records, r))
    ensures forall x :: x in SetRecord(records, r) <==> x == r || (x in records && x.id != r.id)
  {
    if records != [] {
      var rest := records[1..];
      assert records == [records[0]] + rest;
      forall j | 0 <= j < |rest| ensures rest[j].id != records[0].id {
        assert rest[j] == records[j + 1];
      }
      if records[0].id != r.id {
        SetMembers(rest, r);
        var after := SetRecord(rest, r);
        forall j | 0 <= j < |after| ensures after[j].id != records[0].id {
          assert after[j] in after;
        }
      }
    }
  }

  lemma {:induction false} FilterDistinct(records: seq<Record>, p: Record -> bool)
    requires DistinctIds(records)
    ensures DistinctIds(Filter(records, p))
    ensures forall x :: x in Filter(records, p) <==> x in records && p(x)
  {
    FilterMember(records, p);
    if records != [] {
      var init, last := records[..|records| - 1], records[|records| - 1];
      FilterDistinct(init, p);
      forall x | x in Filter(init, p) ensures x.id != last.id {
        assert x in init;
      }
    }
  }

  // -------- every step keeps the invariant --------

  lemma EnqueueKeepsInv(s: State, op: Op)
    requires Inv(s)
    requires op.Put? ==>
               op.id !in Ids(s.records) && op.id !in s.leaving
               && s.clock + op.delay >= op.value.created + op.value.payload.timeout
    requires op.BatchDel? ==> forall id :: id in op.ids ==> id !in Ids(s.records)
    requires forall i :: 0 <= i < |s.queue| && s.queue[i].Put? ==> !Concerns(op, s.queue[i].id)
    ensures Inv(s.(queue := s.queue + [op]))
  {
  }

  /** Only time and what left the node change. */
  lemma TickKeepsInv(s: State, now: nat, executed: seq<(string, Payload)>)
    requires Inv(s) && s.clock <= now
    ensures Inv(s.(clock := now, executed := executed))
  {
  }

  lemma CreateKeepsInv(s: State, id: string, p: Payload, now: nat)
    requires Inv(s) && s.clock <= now && Free(s, id)
    ensures Inv(AfterCreate(s, id, p, now).(clock := now))
  {
    var verdict := Judge(s, id, p, now);
    TickKeepsInv(s, now, s.executed);
    if verdict.Queued? {
      EnqueueKeepsInv(s.(clock := now), Put(id, verdict.value, verdict.delay));
    } else if verdict.Stale? {
      TickKeepsInv(s, now, s.executed + [(id, p)]);
    }
  }

  /** Taking the first operation off the queue leaves the others to complete. */
  lemma PopKeepsInv(s: State, now: nat)
    requires Inv(s) && s.queue != [] && s.clock <= now
    ensures Inv(s.(queue := s.queue[1..], clock := now))
    ensures s.queue[0].Put? ==> s.queue[0].id !in s.leaving
    ensures s.queue[0].Put? ==> forall i :: 0 <= i < |s.queue| - 1 ==> !Concerns(s.queue[1..][i], s.queue[0].id)
  {
    assert forall i :: 0 <= i < |s.queue[1..]| ==> s.queue[1..][i] == s.queue[i + 1];
  }

  /** What a completed put enters. */
  function Entered(s: State, op: Op): Record
    requires op.Put?
  {
    Record(op.id, op.value.created, op.value.payload, s.nextHandle)
  }

  lemma PutKeepsInv(s: State, op: Op, now: nat)
    requires Inv(s) && op.Put? && s.clock == now && op.id !in Ids(s.records) && op.id !in s.leaving
    requires now + op.delay >= op.value.created + op.value.payload.timeout
    requires forall i :: 0 <= i < |s.queue| ==> !Concerns(s.queue[i], op.id)
    ensures Inv(AfterPut(s, op, true, now))
  {
    SetMembers(s.records, Entered(s, op));
    PutKeepsAgreement(s, op, now);
    PutKeepsQueue(s, op, now);
  }

  lemma PutKeepsAgreement(s: State, op: Op, now: nat)
    requires Agreement(s) && HandlesFresh(s) && op.Put? && op.id !in Ids(s.records)
    ensures Agreement(AfterPut(s, op, true, now)) && HandlesFresh(AfterPut(s, op, true, now))
  {
    var t, r := AfterPut(s, op, true, now), Entered(s, op);
    SetMembers(s.records, r);
    forall h | h in t.live ensures Held(t.records, h, t.live[h]) {
      if h in s.live {
        assert Held(s.records, h, s.live[h]);
      } else {
        assert r in t.records;
      }
    }
  }

  lemma PutKeepsQueue(s: State, op: Op, now: nat)
    requires DistinctIds(s.records) && QueueInv(s) && op.Put?
    requires forall i :: 0 <= i < |s.queue| ==> !Concerns(s.queue[i], op.id)
    ensures QueueInv(AfterPut(s, op, true, now))
  {
    SetMembers(s.records, Entered(s, op));
    assert forall id :: id in Ids(AfterPut(s, op, true, now).records) ==> id == op.id || id in Ids(s.records);
  }

  lemma DelKeepsInv(s: State, op: Op)
    requires Inv(s) && op.Del?
    ensures Inv(AfterDel(s, op, true))
  {
    var t := AfterDel(s, op, true);
    FilterDistinct(s.records, (r: Record) => r.id != op.id);
    if op.id in Ids(s.records) {
      DelKeepsAgreement(s, op);
      assert Ids(t.records) <= Ids(s.records);
    }
  }

  lemma DelKeepsAgreement(s: State, op: Op)
    requires Agreement(s) && op.Del? && op.id in Ids(s.records)
    ensures Agreement(AfterDel(s, op, true))
  {
    var t := AfterDel(s, op, true);
    FilterDistinct(s.records, (r: Record) => r.id != op.id);
    forall h | h in t.live ensures Held(t.records, h, t.live[h]) {
      assert Held(s.records, h, s.live[h]);
    }
  }

  lemma BatchKeepsInv(s: State, ids: seq<string>)
    requires Inv(s) && forall id :: id in ids ==> id !in Ids(s.records)
    ensures Inv(s.(store := s.store - set i | i in ids))
  {
  }

  lemma CompleteKeepsInv(s: State, ok: bool, now: nat)
    requires Inv(s) && s.queue != [] && s.clock <= now
    ensures Inv(Step(s, Complete(ok, now)))
  {
    var t := s.(queue := s.queue[1..], clock := now);
    PopKeepsInv(s, now);
    if ok {
      match s.queue[0]
      case Put(_, _, _) => PutKeepsInv(t, s.queue[0], now);
      case Del(_, _) => DelKeepsInv(t, s.queue[0]);
      case BatchDel(ids) => BatchKeepsInv(t, ids);
    }
  }

  /** The map's part of a rebalance. */
  function Evicted(s: State, owned: set<string>): State {
    s.(records := Owned(s.records, owned), live := s.live - Timers(NotOwned(s.records, owned)),
       handedOut := s.handedOut + Outgoing(NotOwned(s.records, owned)))
  }

  lemma EvictionKeepsInv(s: State, owned: set<string>)
    requires Inv(s)
    ensures Inv(Evicted(s, owned))
  {
    var t := Evicted(s, owned);
    FilterDistinct(s.records, (r: Record) => r.id in owned);
    FilterDistinct(s.records, (r: Record) => r.id !in owned);
    assert Ids(t.records) <= Ids(s.records);
    forall h | h in t.live ensures Held(t.records, h, t.live[h]) {
      assert Held(s.records, h, s.live[h]);
    }
  }

  lemma RebalanceKeepsInv(s: State, owned: set<string>)
    requires Inv(s)
    ensures Inv(Step(s, Rebalance(owned)))
  {
    var gone := NotOwned(s.records, owned);
    EvictionKeepsInv(s, owned);
    FilterDistinct(s.records, (r: Record) => r.id in owned);
    GoneIds(s.records, owned);
    if s.records != [] {
      EnqueueKeepsInv(Evicted(s, owned), BatchDel(IdList(gone)));
    }
  }

  lemma GoneIds(records: seq<Record>, owned: set<string>)
    requires DistinctIds(records)
    ensures forall id :: id in IdList(NotOwned(records, owned)) ==> id in Ids(records) && id !in owned
  {
    var gone := NotOwned(records, owned);
    FilterDistinct(records, (r: Record) => r.id !in owned);
    forall id | id in IdList(gone) ensures id in Ids(records) && id !in owned {
      var i :| 0 <= i < |gone| && gone[i].id == id;
      assert gone[i] in gone;
    }
  }

  lemma {:induction false} NobodyOwns(records: seq<Record>)
    ensures Owned(records, {}) == [] && NotOwned(records, {}) == records
  {
    if records != [] {
      NobodyOwns(records[..|records| - 1]);
    }
  }

  lemma ShutdownKeepsInv(s: State)
    requires Inv(s)
    ensures Inv(Step(s, Shutdown))
  {
    EvictionKeepsInv(s, {});
    ShutdownEvicts(s);
    NothingIsLeaving(Evicted(s, {}), IdList(s.records));
  }

  /** A shutdown is the eviction of everything. */
  lemma ShutdownEvicts(s: State)
    requires Inv(s)
    ensures Step(s, Shutdown) == Evicted(s, {}).(leaving := IdList(s.records)) && Evicted(s, {}).records == []
    ensures forall i :: 0 <= i < |s.queue| && s.queue[i].Put? ==> s.queue[i].id !in IdList(s.records)
  {
    NobodyOwns(s.records);
    forall id | id in IdList(s.records) ensures id in Ids(s.records) {
      var i :| 0 <= i < |s.records| && s.records[i].id == id;
      assert s.records[i] in s.records;
    }
  }

  lemma NothingIsLeaving(s: State, ids: seq<string>)
    requires Inv(s) && s.records == [] && forall i :: 0 <= i < |s.queue| && s.queue[i].Put? ==> s.queue[i].id !in ids
    ensures Inv(s.(leaving := ids))
  {
  }

  lemma HandedOverKeepsInv(s: State)
    requires Inv(s)
    ensures Inv(Step(s, HandedOver))
  {
    EnqueueKeepsInv(s, BatchDel(s.leaving));
  }

  lemma ContinueKeepsInv(s: State, now: nat)
    requires Inv(s) && Enabled(s, Continue(now))
    ensures Inv(Step(s, Continue(now)))
  {
    CreateKeepsInv(s.(continuations := s.continuations[1..]), s.continuations[0].0, s.continuations[0].1, now);
  }

  lemma RecoverKeepsInv(s: State, id: string, now: nat)
    requires Inv(s) && Enabled(s, RecoverData(id, now))
    ensures Inv(Step(s, RecoverData(id, now)))
  {
    CreateKeepsInv(s.(snapshot := s.snapshot - {id}), id, HandOver(s.snapshot[id]), now);
  }

  lemma StepKeepsInv(s: State, e: Event)
    requires Inv(s) && Enabled(s, e)
    ensures Inv(Step(s, e))
  {
    match e
    case Create(id, p, now) => CreateKeepsInv(s, id, p, now);
    case Continue(now) => ContinueKeepsInv(s, now);
    case RecoverData(id, now) => RecoverKeepsInv(s, id, now);
    case Complete(ok, now) => CompleteKeepsInv(s, ok, now);
    case Rebalance(owned) => RebalanceKeepsInv(s, owned);
    case Fire(h, now) => FireKeepsInv(s, h, now);
    case Shutdown => ShutdownKeepsInv(s);
    case HandedOver => HandedOverKeepsInv(s);
    case _ => RequestKeepsInv(s, e);
  }

  lemma RequestKeepsInv(s: State, e: Event)
    requires Inv(s) && (e.Remove? || e.Update? || e.RecoverStart?)
    ensures Inv(Step(s, e))
  {
    match e
    case Remove(id) => EnqueueKeepsInv(s, Del(id, None));
    case Update(id, p) => EnqueueKeepsInv(s, Del(id, Some(p)));
    case _ =>
  }

  lemma FireKeepsInv(s: State, h: nat, now: nat)
    requires Inv(s) && h in s.live && s.clock <= now
    ensures Inv(Step(s, Fire(h, now)))
  {
    var t := Step(s, Fire(h, now));
    forall k | k in t.live ensures Held(t.records, k, t.live[k]) {
      assert Held(s.records, k, s.live[k]);
    }
  }

  lemma {:induction false} RunKeepsInv(init: State, es: seq<Event>)
    requires Inv(init) && Legal(init, es)
    ensures Inv(Run(init, es))
  {
    if es != [] {
      RunKeepsInv(init, es[..|es| - 1]);
      StepKeepsInv(Run(init, es[..|es| - 1]), es[|es| - 1]);
    }
  }

  ghost predicate HeldAndDue(records: seq<Record>, h: nat, t: Timeout) {
    exists r :: r in records && r.id == t.id && r.timer == h && r.payload == t.payload
                && t.fireAt >= r.created + r.payload.timeout
  }

  /** On every legal run from an empty map, whatever the store held: every id in the map is in the store with the same
      contents, every live timeout is the one its id's only map entry holds, no id has two, and none is due before the
      deadline. */
  lemma MapStoreAndTimeoutsAgree(transports: set<string>, store: map<string, Stored>, now: nat, es: seq<Event>)
    requires Legal(Fresh(transports, store, now), es)
    ensures var s := Run(Fresh(transports, store, now), es);
            && DistinctIds(s.records)
            && (forall r :: r in s.records ==> r.id in s.store && s.store[r.id] == Stored(r.created, r.payload))
            && (forall h :: h in s.live ==> HeldAndDue(s.records, h, s.live[h]))
            && (forall h, k :: h in s.live && k in s.live && s.live[h].id == s.live[k].id ==> h == k)
  {
    RunKeepsInv(Fresh(transports, store, now), es);
    var s := Run(Fresh(transports, store, now), es);
    forall h | h in s.live
      ensures HeldAndDue(s.records, h, s.live[h])
    {
      assert Held(s.records, h, s.live[h]);
      var r :| r in s.records && r.id == s.live[h].id && r.timer == h && r.payload == s.live[h].payload;
    }
    forall h, k | h in s.live && k in s.live && s.live[h].id == s.live[k].id ensures h == k {
      assert Held(s.records, h, s.live[h]);
      assert Held(s.records, k, s.live[k]);
      var r :| r in s.records && r.id == s.live[h].id && r.timer == h && r.payload == s.live[h].payload;
      var q :| q in s.records && q.id == s.live[k].id && q.timer == k;
      SameIdSameRecord(s.records, r, q);
    }
  }

  lemma SameIdSameRecord(records: seq<Record>, r: Record, q: Record)
    requires DistinctIds(records) && r in records && q in records && r.id == q.id
    ensures r == q
  {
    var i :| 0 <= i < |records| && records[i] == r;
    var j :| 0 <= j < |records| && records[j] == q;
    assert i == j;
  }

  /** Exactly one thing breaks the agreement when a put completes: the id already has an entry whose timeout is live,
      which the new entry then no longer holds. */
  lemma SecondPutLeaksIff(s: State, now: nat)
    requires Agreement(s) && HandlesFresh(s) && s.queue != [] && s.queue[0].Put?
    ensures Agreement(Step(s, Complete(true, now))) <==>
            forall r :: r in s.records && r.id == s.queue[0].id ==> r.timer !in s.live
  {
    var op := s.queue[0];
    var t := Step(s, Complete(true, now));
    var r := Record(op.id, op.value.created, op.value.payload, s.nextHandle);
    SetMembers(s.records, r);
    if q :| q in s.records && q.id == op.id && q.timer in s.live {
      assert Held(s.records, q.timer, s.live[q.timer]);
      assert !Held(t.records, q.timer, s.live[q.timer]);
      assert q.timer in t.live;
    } else {
      forall h | h in t.live ensures Held(t.records, h, t.live[h]) {
        if h in s.live {
          assert Held(s.records, h, s.live[h]);
        } else {
          assert r in t.records;
        }
      }
    }
  }

  lemma RunSnoc(init: State, es: seq<Event>, e: Event)
    ensures Run(init, es + [e]) == Step(Run(init, es), e)
  {
    assert (es + [e])[..|es|] == es;
  }

  /** Two creates of one id before the first put completes leave it with two live timeouts. */
  lemma TwoPendingPutsLeak(p: Payload)
    requires p.created == 0
    ensures var s := Run(Fresh({p.transport}, map[], 1),
                         [Create("a", p, 1)] + [Create("a", p, 1)] + [Complete(true, 1)] + [Complete(true, 1)]);
            s.live == map[0 := Timeout("a", 1 + p.timeout, p), 1 := Timeout("a", 1 + p.timeout, p)]
  {
    var init := Fresh({p.transport}, map[], 1);
    var put := Put("a", Stored(1, p), p.timeout);
    var e1 := [Create("a", p, 1)];
    assert e1 == [] + [Create("a", p, 1)];
    RunSnoc(init, [], Create("a", p, 1));
    assert Run(init, e1).queue == [put];
    RunSnoc(init, e1, Create("a", p, 1));
    assert Run(init, e1 + [Create("a", p, 1)]).queue == [put, put];
    RunSnoc(init, e1 + [Create("a", p, 1)], Complete(true, 1));
    RunSnoc(init, e1 + [Create("a", p, 1)] + [Complete(true, 1)], Complete(true, 1));
  }

  lemma SplitByOwner(records: seq<Record>, owned: set<string>)
    requires DistinctIds(records)
    ensures multiset(Owned(records, owned)) + multiset(NotOwned(records, owned)) == multiset(records)
    ensures forall r :: r in Owned(records, owned) <==> r in records && r.id in owned
    ensures forall r :: r in NotOwned(records, owned) <==> r in records && r.id !in owned
    ensures DistinctIds(NotOwned(records, owned))
  {
    FilterDistinct(records, (r: Record) => r.id in owned);
    FilterDistinct(records, (r: Record) => r.id !in owned);
    FilterPartition(records, (r: Record) => r.id in owned, (r: Record) => r.id !in owned);
  }

  lemma ListedIds(records: seq<Record>)
    ensures forall id :: id in IdList(records) <==> id in Ids(records)
    ensures DistinctIds(records) ==> NoDup(IdList(records))
  {
    forall id | id in Ids(records) ensures id in IdList(records) {
      var i :| 0 <= i < |records| && records[i].id == id;
      assert IdList(records)[i] == id;
    }
  }

  /** A rebalance conserves timers: the map is exactly the owned records, and the records that are not owned are handed
      out once each, put in the delete batch, and left without a live timeout. */
  lemma RebalanceConserves(s: State, owned: set<string>)
    requires Inv(s) && s.records != []
    ensures var t, gone := Step(s, Rebalance(owned)), NotOwned(s.records, owned);
            && multiset(t.records) + multiset(gone) == multiset(s.records)
            && (forall r :: r in t.records <==> r in s.records && r.id in owned)
            && t.handedOut == s.handedOut + Outgoing(gone)
            && t.queue == s.queue + [BatchDel(IdList(gone))]
            && NoDup(IdList(gone)) && (forall id :: id in IdList(gone) <==> id in Ids(gone))
            && (forall r :: r in gone ==> r.timer !in t.live)
            && (forall r :: r in t.records && r.timer in s.live ==> r.timer in t.live)
  {
    SplitByOwner(s.records, owned);
    ListedIds(NotOwned(s.records, owned));
  }

  // -------- no timer is lost, over whole runs --------

  /** This node holds the timer: in its map, or as a put that has not completed. */
  predicate Holds(s: State, id: string) {
    id in Ids(s.records) || PutPending(s, id)
  }

  /** What becomes of the id when `e` asks for it: by a create, the second half of an update, or the recovery. */
  function Verdict(s: State, e: Event, id: string): Option<Admission> {
    match e
    case Create(i, p, now) => if i == id then Some(Judge(s, id, p, now)) else None
    case Continue(now) =>
      if s.continuations == [] || s.continuations[0].0 != id then None
      else Some(Judge(s, id, s.continuations[0].1, now))
    case RecoverData(i, now) =>
      if i == id && i in s.snapshot then Some(Judge(s, id, HandOver(s.snapshot[i]), now)) else None
    case _ => None
  }

  predicate Enters(s: State, e: Event, id: string) {
    Verdict(s, e, id).Some? && Verdict(s, e, id).value.Queued?
  }

  predicate Late(s: State, e: Event, id: string) {
    Verdict(s, e, id) == Some(Stale)
  }

  /** A failed put, a removal that finds the entry, or a rebalance or shutdown that hands it out. */
  predicate Leaves(s: State, e: Event, id: string) {
    match e
    case Complete(ok, _) =>
      && s.queue != [] && !s.queue[0].BatchDel? && s.queue[0].id == id
      && (if s.queue[0].Put? then !ok else ok && id in Ids(s.records))
    case Rebalance(owned) => id in Ids(s.records) && id !in owned
    case Shutdown => id in Ids(s.records)
    case _ => false
  }

  /** The id entered, and has not left since. */
  ghost predicate Stays(init: State, es: seq<Event>, id: string) {
    if es == [] then Holds(init, id)
    else
      var before, e := es[..|es| - 1], es[|es| - 1];
      Enters(Run(init, before), e, id) || (Stays(init, before, id) && !Leaves(Run(init, before), e, id))
  }

  /** An entry's id, in a list and in what is left of it. */
  lemma IdsFirst(records: seq<Record>)
    requires records != []
    ensures Ids(records) == {records[0].id} + Ids(records[1..])
  {
    forall id | id in Ids(records) ensures id == records[0].id || id in Ids(records[1..]) {
      var r :| r in records && r.id == id;
      assert records == [records[0]] + records[1..];
    }
    forall r | r in records[1..] ensures r.id in Ids(records) {
    }
  }

  lemma {:induction false} SetKeepsIds(records: seq<Record>, r: Record)
    ensures Ids(SetRecord(records, r)) == Ids(records) + {r.id}
  {
    var after := SetRecord(records, r);
    IdsFirst(after);
    if records == [] {
      assert after[1..] == [];
    } else {
      IdsFirst(records);
      if records[0].id == r.id {
        assert after[1..] == records[1..];
      } else {
        SetKeepsIds(records[1..], r);
        assert after[1..] == SetRecord(records[1..], r);
      }
    }
  }

  lemma FilterIds(records: seq<Record>, p: Record -> bool, id: string)
    ensures id in Ids(Filter(records, p)) <==> exists r :: r in records && r.id == id && p(r)
  {
    FilterMember(records, p);
    if r :| r in records && r.id == id && p(r) {
      assert r in Filter(records, p);
    }
  }

  lemma PendingLonger(s: State, op: Op, id: string)
    ensures PutPending(s.(queue := s.queue + [op]), id) <==> PutPending(s, id) || (op.Put? && op.id == id)
  {
    var q := s.queue + [op];
    if i :| 0 <= i < |s.queue| && s.queue[i].Put? && s.queue[i].id == id {
      assert q[i] == s.queue[i];
    }
    assert q[|s.queue|] == op;
  }

  lemma PendingShorter(s: State, id: string)
    requires s.queue != []
    ensures PutPending(s, id) <==>
            (s.queue[0].Put? && s.queue[0].id == id) || PutPending(s.(queue := s.queue[1..]), id)
  {
    if i :| 0 < i < |s.queue| && s.queue[i].Put? && s.queue[i].id == id {
      assert s.queue[1..][i - 1] == s.queue[i];
    }
  }

  lemma CreateHolds(s: State, i: string, p: Payload, now: nat, id: string)
    ensures Holds(AfterCreate(s, i, p, now).(clock := now), id) <==>
            Holds(s, id) || (i == id && Judge(s, i, p, now).Queued?)
  {
    var verdict := Judge(s, i, p, now);
    if verdict.Queued? {
      PendingLonger(s, Put(i, verdict.value, verdict.delay), id);
    }
  }

  lemma CompleteHolds(s: State, ok: bool, now: nat, id: string)
    requires Inv(s) && s.queue != []
    ensures Holds(Step(s, Complete(ok, now)), id) <==> Holds(s, id) && !Leaves(s, Complete(ok, now), id)
  {
    var op := s.queue[0];
    PendingShorter(s, id);
    if ok {
      match op
      case Put(_, value, _) => SetKeepsIds(s.records, Record(op.id, value.created, value.payload, s.nextHandle));
      case Del(_, _) => FilterIds(s.records, (r: Record) => r.id != op.id, id);
      case _ =>
    }
  }

  lemma RebalanceHolds(s: State, owned: set<string>, id: string)
    requires Inv(s)
    ensures Holds(Step(s, Rebalance(owned)), id) <==> Holds(s, id) && !Leaves(s, Rebalance(owned), id)
  {
    if s.records != [] {
      FilterIds(s.records, (r: Record) => r.id in owned, id);
      PendingLonger(s, BatchDel(IdList(NotOwned(s.records, owned))), id);
    }
  }

  lemma ShutdownHolds(s: State, id: string)
    requires Inv(s)
    ensures Holds(Step(s, Shutdown), id) <==> Holds(s, id) && !Leaves(s, Shutdown, id)
    ensures Holds(Step(s, Shutdown), id) <==> PutPending(s, id)
  {
  }

  lemma ContinueHolds(s: State, now: nat, id: string)
    requires s.continuations != []
    ensures Holds(Step(s, Continue(now)), id) <==> Holds(s, id) || Enters(s, Continue(now), id)
  {
    CreateHolds(s.(continuations := s.continuations[1..]), s.continuations[0].0, s.continuations[0].1, now, id);
  }

  /** One step: what enters is held, and what was held still is unless it leaves. */
  lemma StepHolds(s: State, e: Event, id: string)
    requires Inv(s) && Enabled(s, e)
    ensures Holds(Step(s, e), id) <==> Enters(s, e, id) || (Holds(s, id) && !Leaves(s, e, id))
  {
    match e
    case Create(i, p, now) => CreateHolds(s, i, p, now, id);
    case Continue(now) => ContinueHolds(s, now, id);
    case RecoverData(i, now) => CreateHolds(s.(snapshot := s.snapshot - {i}), i, HandOver(s.snapshot[i]), now, id);
    case Remove(i) => PendingLonger(s, Del(i, None), id);
    case Update(i, p) => PendingLonger(s, Del(i, Some(p)), id);
    case Complete(ok, now) => CompleteHolds(s, ok, now, id);
    case Rebalance(owned) => RebalanceHolds(s, owned, id);
    case Shutdown => ShutdownHolds(s, id);
    case HandedOver => PendingLonger(s, BatchDel(s.leaving), id);
    case Fire(h, now) =>
    case RecoverStart =>
  }

  /** No timer is lost and none appears, on any legal run: this node holds an id if and only if it entered and has not
      left since, by a failed put, a removal, a rebalance or a shutdown. */
  lemma {:induction false} NoTimerIsLost(init: State, es: seq<Event>, id: string)
    requires Inv(init) && Legal(init, es)
    ensures Holds(Run(init, es), id) <==> Stays(init, es, id)
  {
    if es != [] {
      var before := es[..|es| - 1];
      NoTimerIsLost(init, before, id);
      RunKeepsInv(init, before);
      StepHolds(Run(init, before), es[|es| - 1], id);
    }
  }

  /** Asked for with a transport this node knows, an id is held afterwards or was executed at once as stale. */
  lemma AskedIsHeldOrExecuted(s: State, e: Event, id: string)
    requires Inv(s) && Enabled(s, e) && Verdict(s, e, id).Some? && Verdict(s, e, id) != Some(UnknownTransport)
    ensures Holds(Step(s, e), id) || Late(s, e, id)
    ensures Late(s, e, id) ==>
              |Step(s, e).executed| == |s.executed| + 1 && Step(s, e).executed[|s.executed|].0 == id
  {
    StepHolds(s, e, id);
  }

  // -------- what an event asks for, and what comes of it --------

  /** The timer that `e` asks this node to create, and when: a create, the second half of an update, or the recovery of
      a stored timer with the time it was created at. */
  function AskedFor(s: State, e: Event): Option<(string, Payload, nat)> {
    match e
    case Create(id, p, now) => Some((id, p, now))
    case Continue(now) =>
      if s.continuations == [] then None else Some((s.continuations[0].0, s.continuations[0].1, now))
    case RecoverData(id, now) =>
      if id !in s.snapshot then None
      else
        var p := s.snapshot[id].payload;
        Some((id, Payload(p.timeout, s.snapshot[id].created, p.transport, p.data), now))
    case _ => None
  }

  function CreatedAt(p: Payload, now: nat): nat {
    if p.created != 0 then p.created else now
  }

  /** The transport is known, the id is new, and its time is not over. */
  predicate Admitted(s: State, id: string, p: Payload, now: nat) {
    p.transport in s.transports && id !in Ids(s.records) && now <= CreatedAt(p, now) + p.timeout
  }

  /** A timer that is asked for is queued with the time that is left if it is admitted; if only its time is over it is
      executed at once, with its payload; otherwise, and when nothing is asked for, neither happens. */
  lemma AskingDecides(s: State, e: Event)
    ensures match AskedFor(s, e)
            case Some((id, p, now)) =>
              var created := CreatedAt(p, now);
              && Step(s, e).records == s.records && Step(s, e).store == s.store && Step(s, e).live == s.live
              && Step(s, e).clock == now
              && (if Admitted(s, id, p, now)
                  then Step(s, e).queue == s.queue + [Put(id, Stored(created, p), created + p.timeout - now)]
                  else Step(s, e).queue == s.queue)
              && (if p.transport in s.transports && id !in Ids(s.records) && now > created + p.timeout
                  then Step(s, e).executed == s.executed + [(id, p)]
                  else Step(s, e).executed == s.executed)
            case None =>
              && (e.Create? || e.Continue? || e.RecoverData? ==> Step(s, e) == s)
              && (!e.Fire? ==> Step(s, e).executed == s.executed)
  {
  }

  /** A timeout that fires is executed once with the payload it was set for, and is live no more. */
  lemma FiringExecutes(s: State, h: nat, now: nat)
    requires Inv(s) && h in s.live
    ensures exists r :: r in s.records && r.timer == h
                        && Step(s, Fire(h, now)).executed == s.executed + [(r.id, r.payload)]
    ensures h !in Step(s, Fire(h, now)).live && Step(s, Fire(h, now)).records == s.records
  {
    assert Held(s.records, h, s.live[h]);
  }

  lemma StepKeepsFired(s: State, e: Event, h: nat)
    requires Inv(s) && h < s.nextHandle && h !in s.live
    ensures h < Step(s, e).nextHandle && h !in Step(s, e).live
  {
    if e.Complete? {
      CompletionKeepsFired(s, e, h);
    } else {
      AskingDecides(s, e);
    }
  }

  lemma CompletionKeepsFired(s: State, e: Event, h: nat)
    requires h < s.nextHandle && h !in s.live && e.Complete?
    ensures h < Step(s, e).nextHandle && h !in Step(s, e).live
  {
  }

  lemma FiringEnds(s: State, h: nat, now: nat)
    requires Inv(s) && Enabled(s, Fire(h, now))
    ensures h < Step(s, Fire(h, now)).nextHandle && h !in Step(s, Fire(h, now)).live
  {
  }

  /** And it never fires again. */
  lemma FiresOnce(init: State, es: seq<Event>, i: nat, j: nat)
    requires Inv(init) && Legal(init, es) && i < j < |es| && es[i].Fire? && es[j].Fire?
    ensures es[i].handle != es[j].handle
  {
    LegalPrefix(init, es, i);
    LegalPrefix(init, es, j);
    RunKeepsInv(init, es[..i]);
    FiringEnds(Run(init, es[..i]), es[i].handle, es[i].now);
    assert es[..j][..i + 1] == es[..i] + [es[i]];
    RunSnoc(init, es[..i], es[i]);
    StaysFired(init, es[..j], i + 1, es[i].handle);
  }

  lemma {:induction false} LegalPrefix(init: State, es: seq<Event>, k: nat)
    requires Legal(init, es) && k <= |es|
    ensures Legal(init, es[..k])
    ensures k < |es| ==> Enabled(Run(init, es[..k]), es[k])
    decreases |es|
  {
    if k == |es| {
      assert es[..k] == es;
    } else {
      assert es[..|es| - 1][..k] == es[..k];
      if k < |es| - 1 {
        LegalPrefix(init, es[..|es| - 1], k);
      }
    }
  }

  lemma {:induction false} StaysFired(init: State, es: seq<Event>, k: nat, h: nat)
    requires Inv(init) && Legal(init, es) && k <= |es|
    requires h < Run(init, es[..k]).nextHandle && h !in Run(init, es[..k]).live
    ensures h !in Run(init, es).live && h < Run(init, es).nextHandle
    decreases |es|
  {
    if k == |es| {
      assert es[..k] == es;
    } else {
      var before := es[..|es| - 1];
      assert before[..k] == es[..k];
      StaysFired(init, before, k, h);
      RunKeepsInv(init, before);
      StepKeepsFired(Run(init, before), es[|es| - 1], h);
    }
  }

  // -------- the queue and the store, read off the events --------

  /** The storage operations that an event asks for: the put of an admitted timer, a removal, the batch of what a
      rebalance does not own, or of what a shutdown has handed over. */
  function OpsOf(s: State, e: Event): seq<Op> {
    match AskedFor(s, e)
    case Some((id, p, now)) =>
      if Admitted(s, id, p, now)
      then [Put(id, Stored(CreatedAt(p, now), p), CreatedAt(p, now) + p.timeout - now)] else []
    case None =>
      match e
      case Remove(id) => [Del(id, None)]
      case Update(id, p) => [Del(id, Some(p))]
      case Rebalance(owned) =>
        if s.records == [] then [] else [BatchDel(IdList(Filter(s.records, (r: Record) => r.id !in owned)))]
      case HandedOver => [BatchDel(s.leaving)]
      case _ => []
  }

  ghost function OpsAsked(init: State, es: seq<Event>): seq<Op> {
    if es == [] then init.queue
    else OpsAsked(init, es[..|es| - 1]) + OpsOf(Run(init, es[..|es| - 1]), es[|es| - 1])
  }

  function Completions(es: seq<Event>): nat {
    if es == [] then 0 else Completions(es[..|es| - 1]) + if es[|es| - 1].Complete? then 1 else 0
  }

  lemma StepQueue(s: State, e: Event)
    requires e.Complete? ==> s.queue != []
    ensures Step(s, e).queue == (if e.Complete? then s.queue[1..] else s.queue + OpsOf(s, e))
  {
    AskingDecides(s, e);
    assert s.queue + [] == s.queue;
  }

  /** Storage operations wait in the order they were asked for, and complete in it. */
  lemma {:induction false} QueueIsFifo(init: State, es: seq<Event>)
    requires Legal(init, es)
    ensures Completions(es) <= |OpsAsked(init, es)|
    ensures Run(init, es).queue == OpsAsked(init, es)[Completions(es)..]
  {
    if es != [] {
      var before, e := es[..|es| - 1], es[|es| - 1];
      QueueIsFifo(init, before);
      StepQueue(Run(init, before), e);
    }
  }

  /** What the store holds under an id: what the last operation on it that completed without an error left. */
  ghost function StoredAfter(init: State, es: seq<Event>, id: string): Option<Stored> {
    if es == [] then (if id in init.store then Some(init.store[id]) else None)
    else
      var before, e := es[..|es| - 1], es[|es| - 1];
      var queue := Run(init, before).queue;
      if !e.Complete? || !e.ok || queue == [] then StoredAfter(init, before, id)
      else
        match queue[0]
        case Put(i, v, _) => if i == id then Some(v) else StoredAfter(init, before, id)
        case Del(i, _) => if i == id then None else StoredAfter(init, before, id)
        case BatchDel(ids) => if id in ids then None else StoredAfter(init, before, id)
  }

  lemma StepStore(s: State, e: Event, id: string)
    ensures var was := if id in s.store then Some(s.store[id]) else None;
            (if id in Step(s, e).store then Some(Step(s, e).store[id]) else None) ==
            if !e.Complete? || !e.ok || s.queue == [] then was
            else
              match s.queue[0]
              case Put(i, v, _) => if i == id then Some(v) else was
              case Del(i, _) => if i == id then None else was
              case BatchDel(ids) => if id in ids then None else was
  {
  }

  lemma {:induction false} StoreFollowsCompletions(init: State, es: seq<Event>, id: string)
    ensures var s := Run(init, es);
            StoredAfter(init, es, id) == if id in s.store then Some(s.store[id]) else None
  {
    if es != [] {
      var before := es[..|es| - 1];
      StoreFollowsCompletions(init, before, id);
      StepStore(Run(init, before), es[|es| - 1], id);
    }
  }

  // -------- an update creates the timer anew --------

  /** The removal of the update is pending. */
  predicate Removing(s: State, id: string, p: Payload) {
    exists i :: 0 <= i < |s.queue| && s.queue[i] == Del(id, Some(p))
  }

  /** It is done, and the new timer is still to be created. */
  predicate Renewing(s: State, id: string, p: Payload) {
    (id, p) in s.continuations
  }

  /** With the payload, and created when it says, or not before the given time if it says nothing. */
  predicate Right(v: Stored, p: Payload, since: nat) {
    v.payload == p && (if p.created != 0 then v.created == p.created else since <= v.created)
  }

  predicate PutRight(s: State, id: string, p: Payload, since: nat) {
    exists i :: 0 <= i < |s.queue| && s.queue[i].Put? && s.queue[i].id == id && Right(s.queue[i].value, p, since)
  }

  predicate InMap(s: State, id: string, p: Payload, since: nat) {
    exists r :: r in s.records && r.id == id && Right(Stored(r.created, r.payload), p, since)
  }

  /** It is created, in the map or as a pending put. */
  predicate Renewed(s: State, id: string, p: Payload, since: nat) {
    PutRight(s, id, p, since) || InMap(s, id, p, since)
  }

  predicate UnderWay(s: State, id: string, p: Payload, since: nat) {
    Removing(s, id, p) || Renewing(s, id, p) || Renewed(s, id, p, since)
  }

  /** What ends an update: its removal fails or finds no entry; the new timer is not admitted; or, once it is created,
      its put fails or it leaves. */
  predicate EndsUpdate(s: State, e: Event, id: string, p: Payload, since: nat) {
    || (e.Complete? && s.queue != [] && s.queue[0] == Del(id, Some(p)) && (!e.ok || id !in Ids(s.records)))
    || (e.Continue? && s.continuations != [] && s.continuations[0] == (id, p) && !Admitted(s, id, p, e.now))
    || (Renewed(s, id, p, since) && !Removing(s, id, p) && !Renewing(s, id, p) && Leaves(s, e, id))
  }

  ghost predicate UpdateEnded(s: State, more: seq<Event>, id: string, p: Payload, since: nat) {
    more != [] &&
    var before := more[..|more| - 1];
    UpdateEnded(s, before, id, p, since) || EndsUpdate(Run(s, before), more[|more| - 1], id, p, since)
  }

  /** A removal asks for a new timer if and only if it is that of an update, succeeds, and finds the entry. */
  lemma RemovalAsksIff(s: State, ok: bool, now: nat)
    requires s.queue != [] && s.queue[0].Del?
    ensures var op, t := s.queue[0], Step(s, Complete(ok, now));
            && t.queue == s.queue[1..] && t.executed == s.executed
            && (ok && op.id in Ids(s.records) && op.update.Some? ==>
                  t.continuations == s.continuations + [(op.id, op.update.value)])
            && (!(ok && op.id in Ids(s.records) && op.update.Some?) ==> t.continuations == s.continuations)
  {
  }

  lemma RemovingStep(s: State, e: Event, id: string, p: Payload, since: nat)
    requires Inv(s) && Enabled(s, e) && Removing(s, id, p)
    ensures Removing(Step(s, e), id, p) || Renewing(Step(s, e), id, p) || EndsUpdate(s, e, id, p, since)
  {
    var t := Step(s, e);
    var i :| 0 <= i < |s.queue| && s.queue[i] == Del(id, Some(p));
    if e.Complete? {
      if i == 0 {
        RemovalAsksIff(s, e.ok, e.now);
      } else {
        assert t.queue[i - 1] == s.queue[i];
      }
    } else {
      QueueGrows(s, e);
      assert t.queue[i] == s.queue[i];
    }
  }

  lemma QueueGrows(s: State, e: Event)
    requires !e.Complete?
    ensures s.queue <= Step(s, e).queue
  {
  }

  lemma RenewingStep(s: State, e: Event, id: string, p: Payload, since: nat)
    requires Inv(s) && Enabled(s, e) && Renewing(s, id, p) && since <= s.clock
    ensures var t := Step(s, e);
            Renewing(t, id, p) || Renewed(t, id, p, since) || EndsUpdate(s, e, id, p, since)
  {
    var t := Step(s, e);
    if e.Continue? && s.continuations[0] == (id, p) {
      AskingDecides(s, e);
      if Admitted(s, id, p, e.now) {
        assert t.queue[|s.queue|].Put? && t.queue[|s.queue|].id == id;
      }
    } else if e.Continue? {
      assert s.continuations == [s.continuations[0]] + s.continuations[1..];
    } else {
      ContinuationsGrow(s, e);
      var i :| 0 <= i < |s.continuations| && s.continuations[i] == (id, p);
      assert t.continuations[i] == (id, p);
    }
  }

  lemma ContinuationsGrow(s: State, e: Event)
    requires !e.Continue?
    ensures s.continuations <= Step(s, e).continuations
  {
  }

  lemma PutStep(s: State, e: Event, id: string, p: Payload, since: nat)
    requires Inv(s) && Enabled(s, e) && PutRight(s, id, p, since)
    ensures Renewed(Step(s, e), id, p, since) || Leaves(s, e, id)
  {
    var t := Step(s, e);
    var i :| 0 <= i < |s.queue| && s.queue[i].Put? && s.queue[i].id == id && Right(s.queue[i].value, p, since);
    if !e.Complete? {
      QueueGrows(s, e);
      assert t.queue[i] == s.queue[i];
    } else if i > 0 {
      assert t.queue[i - 1] == s.queue[i];
    } else if e.ok {
      var r := Entered(s, s.queue[0]);
      SetMembers(s.records, r);
      assert r in t.records;
    }
  }

  lemma InMapStep(s: State, e: Event, id: string, p: Payload, since: nat)
    requires Inv(s) && Enabled(s, e) && InMap(s, id, p, since)
    ensures InMap(Step(s, e), id, p, since) || Leaves(s, e, id)
  {
    var t := Step(s, e);
    var r :| r in s.records && r.id == id && Right(Stored(r.created, r.payload), p, since);
    match e
    case Complete(ok, _) =>
      if ok && s.queue[0].Put? {
        SetMembers(s.records, Entered(s, s.queue[0]));
      } else if ok && s.queue[0].Del? {
        FilterMember(s.records, (x: Record) => x.id != s.queue[0].id);
      }
      assert Leaves(s, e, id) || r in t.records;
    case Rebalance(owned) =>
      FilterMember(s.records, (x: Record) => x.id in owned);
      assert Leaves(s, e, id) || r in t.records;
    case Shutdown =>
      assert Leaves(s, e, id);
    case _ =>
      AskingDecides(s, e);
      assert r in t.records;
  }

  lemma ClockGrows(s: State, e: Event)
    requires Enabled(s, e)
    ensures s.clock <= Step(s, e).clock
  {
  }

  lemma UnderWayStep(s: State, e: Event, id: string, p: Payload, since: nat)
    requires Inv(s) && Enabled(s, e) && since <= s.clock && UnderWay(s, id, p, since)
    ensures UnderWay(Step(s, e), id, p, since) || EndsUpdate(s, e, id, p, since)
  {
    if Removing(s, id, p) {
      RemovingStep(s, e, id, p, since);
    } else if Renewing(s, id, p) {
      RenewingStep(s, e, id, p, since);
    } else if PutRight(s, id, p, since) {
      PutStep(s, e, id, p, since);
    } else {
      InMapStep(s, e, id, p, since);
    }
  }

  /** A timer that was admitted is the one this node holds from then on, with its payload and creation time, in the map
      or as a pending put, until it leaves. */
  lemma {:induction false} AdmittedIsKept(s: State, e: Event, more: seq<Event>, id: string, p: Payload, now: nat)
    requires Inv(s) && Enabled(s, e) && AskedFor(s, e) == Some((id, p, now)) && Admitted(s, id, p, now)
    requires Legal(Step(s, e), more)
    ensures Renewed(Run(Step(s, e), more), id, p, now) || Leaving(Step(s, e), more, id)
  {
    var s1 := Step(s, e);
    StepKeepsInv(s, e);
    if more == [] {
      AskingDecides(s, e);
      assert s1.queue[|s.queue|].Put? && s1.queue[|s.queue|].id == id;
    } else {
      var before := more[..|more| - 1];
      AdmittedIsKept(s, e, before, id, p, now);
      RunKeepsInv(s1, before);
      if PutRight(Run(s1, before), id, p, now) {
        PutStep(Run(s1, before), more[|more| - 1], id, p, now);
      } else if InMap(Run(s1, before), id, p, now) {
        InMapStep(Run(s1, before), more[|more| - 1], id, p, now);
      }
    }
  }

  lemma {:induction false} UpdateGoesOn(s: State, more: seq<Event>, id: string, p: Payload)
    requires Inv(s) && Legal(s, more) && UnderWay(s, id, p, s.clock)
    ensures s.clock <= Run(s, more).clock
    ensures UnderWay(Run(s, more), id, p, s.clock) || UpdateEnded(s, more, id, p, s.clock)
  {
    if more != [] {
      var before := more[..|more| - 1];
      UpdateGoesOn(s, before, id, p);
      RunKeepsInv(s, before);
      ClockGrows(Run(s, before), more[|more| - 1]);
      if UnderWay(Run(s, before), id, p, s.clock) {
        UnderWayStep(Run(s, before), more[|more| - 1], id, p, s.clock);
      }
    }
  }

  /** An update, once the pending storage operations and continuations are over: the id is in the map with the new
      payload, created when that says or else after the update began, and its timeout executes that payload and is not
      due before its deadline; unless one of the named events ended the update. */
  lemma UpdateCreatesAnew(s: State, more: seq<Event>, id: string, p: Payload)
    requires Inv(s) && Legal(Step(s, Update(id, p)), more)
    requires Run(Step(s, Update(id, p)), more).queue == [] && Run(Step(s, Update(id, p)), more).continuations == []
    ensures var t := Run(Step(s, Update(id, p)), more);
            || UpdateEnded(Step(s, Update(id, p)), more, id, p, s.clock)
            || (exists r :: r in t.records && r.id == id && InMapFor(t, r, p, s.clock))
  {
    var s1 := Step(s, Update(id, p));
    StepKeepsInv(s, Update(id, p));
    assert s1.queue[|s.queue|] == Del(id, Some(p));
    UpdateGoesOn(s1, more, id, p);
    RunKeepsInv(s1, more);
    if !UpdateEnded(s1, more, id, p, s.clock) {
      var t := Run(s1, more);
      var r :| r in t.records && r.id == id && Right(Stored(r.created, r.payload), p, s.clock);
      if r.timer in t.live {
        TimeoutOf(t, r);
      }
      assert InMapFor(t, r, p, s.clock);
    }
  }

  predicate InMapFor(s: State, r: Record, p: Payload, since: nat) {
    && r.payload == p && (if p.created != 0 then r.created == p.created else since <= r.created)
    && (r.timer in s.live ==> s.live[r.timer].payload == p && s.live[r.timer].fireAt >= r.created + p.timeout)
  }

  lemma TimeoutOf(s: State, r: Record)
    requires Inv(s) && r in s.records && r.timer in s.live
    ensures s.live[r.timer].payload == r.payload && s.live[r.timer].fireAt >= r.created + r.payload.timeout
  {
    assert Held(s.records, r.timer, s.live[r.timer]);
  }

  // -------- the recovery delivers what was stored --------

  /** In one of these later events the id was executed as stale, handed out, removed, or its put failed. */
  ghost predicate Gone(s: State, more: seq<Event>, id: string) {
    more != [] &&
    var before, e := more[..|more| - 1], more[|more| - 1];
    Gone(s, before, id) || Late(Run(s, before), e, id) || Leaves(Run(s, before), e, id)
  }

  /** The recovery has still to deliver the id, as it was stored. */
  predicate ToDeliver(s: State, id: string, v: Stored) {
    id in s.snapshot && s.snapshot[id] == v && v.payload.transport in s.transports
  }

  /** A delivery is neither lost nor changed before its turn. */
  lemma DeliveryKept(s: State, e: Event, id: string, v: Stored)
    requires !e.RecoverStart? && ToDeliver(s, id, v)
    ensures ToDeliver(Step(s, e), id, v) || e.RecoverData?
  {
  }

  lemma DeliveredOnce(s: State, i: string, now: nat, id: string, v: Stored)
    requires ToDeliver(s, id, v) && i != id
    ensures ToDeliver(Step(s, RecoverData(i, now)), id, v)
  {
  }

  lemma {:induction false} RecoveryAccounts(s: State, more: seq<Event>, id: string, v: Stored)
    requires Inv(s) && Legal(s, more) && ToDeliver(s, id, v)
    requires forall i :: 0 <= i < |more| ==> !more[i].RecoverStart?
    ensures ToDeliver(Run(s, more), id, v) || Holds(Run(s, more), id) || Gone(s, more, id)
  {
    if more != [] {
      var before, e := more[..|more| - 1], more[|more| - 1];
      var t := Run(s, before);
      RecoveryAccounts(s, before, id, v);
      RunKeepsInv(s, before);
      if ToDeliver(t, id, v) && e.RecoverData? && e.id == id {
        AskedIsHeldOrExecuted(t, e, id);
      } else if ToDeliver(t, id, v) {
        if e.RecoverData? {
          DeliveredOnce(t, e.id, e.now, id, v);
        } else {
          DeliveryKept(t, e, id, v);
        }
      } else if Holds(t, id) {
        StepHolds(t, e, id);
      }
    }
  }

  /** After a recovery whose stream is delivered and whose puts have completed, every timer stored when it began, with a
      transport this node knows, is in the map, unless since then it was executed as stale, handed out or removed, or
      its put failed. */
  lemma RecoveryRestoresEveryTimer(s: State, more: seq<Event>, id: string)
    requires Inv(s) && id in s.store && s.store[id].payload.transport in s.transports
    requires Legal(Step(s, RecoverStart), more) && forall i :: 0 <= i < |more| ==> !more[i].RecoverStart?
    requires var t := Run(Step(s, RecoverStart), more); id !in t.snapshot && !PutPending(t, id)
    ensures id in Ids(Run(Step(s, RecoverStart), more).records) || Gone(Step(s, RecoverStart), more, id)
  {
    StepKeepsInv(s, RecoverStart);
    RecoveryAccounts(Step(s, RecoverStart), more, id, s.store[id]);
  }

  // -------- the deadline across nodes --------

  datatype Journey = Armed(value: Stored, delay: nat) | ExecutedAt(hop: nat)

  /** A timer created at the first time and then handed over and created again at each later one: through rebalance,
      shutdown or recovery. */
  function Travel(p: Payload, nows: seq<nat>): Journey
    requires nows != []
  {
    var last := |nows| - 1;
    if last == 0 then Arrive(Admit(p, nows[0]), 0)
    else
      match Travel(p, nows[..last])
      case ExecutedAt(hop) => ExecutedAt(hop)
      case Armed(value, _) => Arrive(Admit(HandOver(value), nows[last]), last)
  }

  function Arrive(a: Admission, hop: nat): Journey {
    if a.Queued? then Armed(a.value, a.delay) else ExecutedAt(hop)
  }

  /** The deadline is the same at every node: a timer is executed at the first hop after it, and only there, and
      otherwise ends up armed for exactly the time that is left, with its creation time and timeout unchanged. */
  lemma {:induction false} DeadlineSurvives(p: Payload, nows: seq<nat>)
    requires nows != [] && forall i :: 0 <= i < |nows| ==> nows[i] > 0
    ensures var deadline, end := Created(p, nows[0]) + p.timeout, Travel(p, nows);
            && (end.Armed? <==> forall i :: 0 <= i < |nows| ==> nows[i] <= deadline)
            && (end.Armed? ==>
                  && end.value.created == Created(p, nows[0])
                  && end.value.payload.timeout == p.timeout
                  && end.value.payload.transport == p.transport && end.value.payload.data == p.data
                  && nows[|nows| - 1] + end.delay == deadline)
            && (end.ExecutedAt? ==>
                  && end.hop < |nows| && nows[end.hop] > deadline
                  && forall i :: 0 <= i < end.hop ==> nows[i] <= deadline)
  {
    if |nows| > 1 {
      DeadlineSurvives(p, nows[..|nows| - 1]);
    }
  }

  // -------- shutdown --------

  /** A shutdown in progress: what was asked of the other nodes, the ids to delete, the acknowledgements so far, and
      whether this node has disconnected. */
  datatype Closing = Closing(size: nat, requests: seq<(string, Payload, nat)>, batch: seq<string>, acks: nat,
                             writes: nat, disconnected: bool)

  function Requests(records: seq<Record>): seq<(string, Payload, nat)> {
    seq(|records|, i requires 0 <= i < |records| =>
      (records[i].id, HandOver(Stored(records[i].created, records[i].payload)), i + 1))
  }

  function Acknowledged(c: Closing): Closing {
    c.(acks := c.acks + 1, writes := c.writes + if c.acks + 1 == c.size then 1 else 0)
  }

  /** The callback of the batch. */
  function BatchWritten(c: Closing): Closing {
    c.(disconnected := true)
  }

  /** The shutdown after the requests with the given counts were acknowledged; with nothing to hand over it is over at
      once. */
  function AfterAcks(records: seq<Record>, acked: seq<nat>): Closing {
    if acked == [] then Closing(|records|, Requests(records), IdList(records), 0, 0, records == [])
    else Acknowledged(AfterAcks(records, acked[..|acked| - 1]))
  }

  lemma {:induction false} AcksCount(records: seq<Record>, acked: seq<nat>)
    requires records != []
    ensures var c := AfterAcks(records, acked);
            && c.size == |records| && c.requests == Requests(records) && c.batch == IdList(records)
            && c.acks == |acked| && !c.disconnected && c.writes == if |acked| >= |records| then 1 else 0
  {
    if acked != [] {
      AcksCount(records, acked[..|acked| - 1]);
    }
  }

  /** Each record is requested once, with counts 1 to size, and in whatever order the requests are acknowledged, each at
      most once, the delete batch of exactly the records' ids is written at most once, and exactly when all are. */
  lemma BatchWrittenOnceWhenAllAcknowledged(records: seq<Record>, acked: seq<nat>)
    requires records != [] && DistinctIds(records)
    requires NoDup(acked) && forall k :: k in acked ==> 1 <= k <= |records|
    ensures var c := AfterAcks(records, acked);
            && |c.requests| == |records|
            && (forall i :: 0 <= i < |records| ==> c.requests[i].0 == records[i].id && c.requests[i].2 == i + 1)
            && NoDup(c.batch) && (forall id :: id in c.batch <==> id in Ids(records))
            && c.writes <= 1 && !c.disconnected && BatchWritten(c).disconnected
            && (c.writes == 1 <==> forall k :: 1 <= k <= |records| ==> k in acked)
  {
    AcksCount(records, acked);
    AllOrShort(acked, |records|);
    ListedIds(records);
  }

  predicate Requested(c: Closing, id: string) {
    exists i :: 0 <= i < |c.requests| && c.requests[i].0 == id
  }

  /** A shutdown asks the other nodes to take every id that this node holds, unless its put is pending: that one it
      keeps, and no other. */
  lemma ShutdownRequestsIff(s: State, id: string)
    requires Inv(s)
    ensures Requested(AfterAcks(s.records, []), id) <==> Holds(s, id) && !PutPending(s, id)
    ensures Holds(Step(s, Shutdown), id) <==> PutPending(s, id)
  {
    ShutdownHolds(s, id);
    var requests := AfterAcks(s.records, []).requests;
    if r :| r in s.records && r.id == id {
      var i :| 0 <= i < |s.records| && s.records[i] == r;
      assert requests[i].0 == id;
    }
    if Requested(AfterAcks(s.records, []), id) {
      var i :| 0 <= i < |requests| && requests[i].0 == id;
      assert s.records[i] in s.records;
    }
  }

  ghost predicate Leaving(s: State, more: seq<Event>, id: string) {
    more != [] &&
    var before := more[..|more| - 1];
    Leaving(s, before, id) || Leaves(Run(s, before), more[|more| - 1], id)
  }

  lemma {:induction false} HeldStays(s: State, more: seq<Event>, id: string)
    requires Inv(s) && Legal(s, more) && Holds(s, id)
    ensures Holds(Run(s, more), id) || Leaving(s, more, id)
  {
    if more != [] {
      var before := more[..|more| - 1];
      HeldStays(s, before, id);
      RunKeepsInv(s, before);
      StepHolds(Run(s, before), more[|more| - 1], id);
    }
  }

  /** A put that was pending at the shutdown and has completed since is in the map of the node that leaves, unless it
      failed or the id has left again. */
  lemma LatePutStaysBehind(s: State, more: seq<Event>, id: string)
    requires Inv(s) && Enabled(s, Shutdown) && Legal(Step(s, Shutdown), more)
    requires PutPending(s, id) && !PutPending(Run(Step(s, Shutdown), more), id)
    ensures id in Ids(Run(Step(s, Shutdown), more).records) || Leaving(Step(s, Shutdown), more, id)
  {
    StepKeepsInv(s, Shutdown);
    ShutdownHolds(s, id);
    HeldStays(Step(s, Shutdown), more, id);
  }

  /** The run that shows it: a put that completes after the shutdown arms its timeout on the node that leaves, and
      nothing is handed over. */
  lemma PutAfterShutdownIsArmed(p: Payload)
    requires p.created == 0
    ensures var init := Fresh({p.transport}, map[], 1);
            var es := [Create("a", p, 1)] + [Shutdown] + [Complete(true, 1)];
            var s := Run(init, es);
            && Legal(init, es) && s.handedOut == []
            && s.records == [Record("a", 1, p, 0)] && s.live == map[0 := Timeout("a", 1 + p.timeout, p)]
  {
    var init := Fresh({p.transport}, map[], 1);
    var e1 := [Create("a", p, 1)];
    var e2 := e1 + [Shutdown];
    assert e1 == [] + [Create("a", p, 1)];
    LegalSnoc(init, [], Create("a", p, 1));
    assert Run(init, e1) == init.(queue := [Put("a", Stored(1, p), p.timeout)]);
    LegalSnoc(init, e1, Shutdown);
    assert Timers([]) == {} && Outgoing([]) == [] && IdList([]) == [];
    assert Run(init, e2) == Run(init, e1);
    LegalSnoc(init, e2, Complete(true, 1));
  }

  lemma LegalSnoc(init: State, es: seq<Event>, e: Event)
    requires Legal(init, es) && Enabled(Run(init, es), e)
    ensures Legal(init, es + [e]) && Run(init, es + [e]) == Step(Run(init, es), e)
  {
    assert (es + [e])[..|es|] == es;
  }

  lemma AllOrShort(acked: seq<nat>, n: nat)
    requires NoDup(acked) && forall k :: k in acked ==> 1 <= k <= n
    ensures |acked| >= n <==> forall k :: 1 <= k <= n ==> k in acked
  {
    if forall k :: 1 <= k <= n ==> k in acked {
      SubsetSize(UpTo(n), Elements(acked));
    } else {
      var m :| 1 <= m <= n && m !in acked;
      NoDupBound(acked, UpTo(n) - {m});
    }
  }

  ghost function UpTo(n: nat): (r: set<nat>)
    ensures |r| == n && forall k :: k in r <==> 1 <= k <= n
  {
    if n == 0 then {} else UpTo(n - 1) + {n}
  }

  ghost function Elements(s: seq<nat>): (r: set<nat>)
    ensures |r| <= |s| && forall k :: k in r <==> k in s
  {
    if s == [] then {}
    else
      assert s == s[..|s| - 1] + [s[|s| - 1]];
      Elements(s[..|s| - 1]) + {s[|s| - 1]}
  }

  // -------- the class --------

  lemma {:induction false} WithoutAt(records: seq<Record>, k: nat)
    requires DistinctIds(records) && k < |records|
    ensures WithoutId(records, records[k].id) == records[..k] + records[k + 1..]
  {
    var init, last := records[..|records| - 1], records[|records| - 1];
    if k < |init| {
      WithoutAt(init, k);
      assert init[..k] + init[k + 1..] + [last] == records[..k] + records[k + 1..];
    } else {
      FilterAll(init, (r: Record) => r.id != last.id);
    }
  }

  lemma OwnedSnoc(records: seq<Record>, owned: set<string>, i: nat)
    requires i < |records|
    ensures Owned(records[..i + 1], owned)
            == Owned(records[..i], owned) + (if records[i].id in owned then [records[i]] else [])
    ensures NotOwned(records[..i + 1], owned)
            == NotOwned(records[..i], owned) + (if records[i].id in owned then [] else [records[i]])
  {
    assert records[..i + 1][..i] == records[..i];
  }

  /** One record taken off the node. */
  function EvictedAt(s: State, k: nat): State
    requires k < |s.records|
  {
    var r := s.records[k];
    s.(records := s.records[..k] + s.records[k + 1..], live := s.live - {r.timer},
       handedOut := s.handedOut + [(r.id, HandOver(Stored(r.created, r.payload)))])
  }

  /** The walk of a rebalance after `i` records. */
  ghost function Walked(s: State, owned: set<string>, i: nat): State
    requires i <= |s.records|
  {
    var gone := NotOwned(s.records[..i], owned);
    s.(records := Owned(s.records[..i], owned) + s.records[i..], live := s.live - Timers(gone),
       handedOut := s.handedOut + Outgoing(gone))
  }

  lemma WalkEnds(s: State, owned: set<string>)
    ensures Walked(s, owned, 0) == s
    ensures Walked(s, owned, |s.records|) == Evicted(s, owned)
    ensures IdList(NotOwned(s.records[..|s.records|], owned)) == IdList(NotOwned(s.records, owned))
  {
    assert s.records[..|s.records|] == s.records;
    assert s.records[..0] == [];
  }

  lemma WalkStep(s: State, owned: set<string>, i: nat)
    requires i < |s.records|
    ensures var k, r := |Owned(s.records[..i], owned)|, s.records[i];
            && k < |Walked(s, owned, i).records| && Walked(s, owned, i).records[k] == r
            && Walked(s, owned, i + 1)
               == (if r.id in owned then Walked(s, owned, i) else EvictedAt(Walked(s, owned, i), k))
  {
    WalkRecords(s.records, owned, i);
    WalkCounts(s.records, owned, i);
    if s.records[i].id !in owned {
      WalkGone(s, owned, i);
    }
  }

  lemma WalkCounts(records: seq<Record>, owned: set<string>, i: nat)
    requires i < |records|
    ensures |Owned(records[..i + 1], owned)| == |Owned(records[..i], owned)| + (if records[i].id in owned then 1 else 0)
    ensures IdList(NotOwned(records[..i + 1], owned))
            == IdList(NotOwned(records[..i], owned)) + (if records[i].id in owned then [] else [records[i].id])
    ensures records[i].id in owned ==> NotOwned(records[..i + 1], owned) == NotOwned(records[..i], owned)
  {
    OwnedSnoc(records, owned, i);
    if records[i].id !in owned {
      GoneSnoc(NotOwned(records[..i], owned), records[i]);
    }
  }

  lemma WalkGone(s: State, owned: set<string>, i: nat)
    requires i < |s.records| && s.records[i].id !in owned
    ensures var r, before, after := s.records[i], NotOwned(s.records[..i], owned), NotOwned(s.records[..i + 1], owned);
            && s.live - Timers(after) == s.live - Timers(before) - {r.timer}
            && s.handedOut + Outgoing(after)
               == s.handedOut + Outgoing(before) + [(r.id, HandOver(Stored(r.created, r.payload)))]
  {
    OwnedSnoc(s.records, owned, i);
    GoneSnoc(NotOwned(s.records[..i], owned), s.records[i]);
  }

  lemma WalkRecords(records: seq<Record>, owned: set<string>, i: nat)
    requires i < |records|
    ensures var k, now := |Owned(records[..i], owned)|, Owned(records[..i], owned) + records[i..];
            && k < |now| && now[k] == records[i]
            && Owned(records[..i + 1], owned) + records[i + 1..]
               == (if records[i].id in owned then now else now[..k] + now[k + 1..])
  {
    OwnedSnoc(records, owned, i);
    SpliceAt(Owned(records[..i], owned), records[i], records[i + 1..]);
    assert records[i..] == [records[i]] + records[i + 1..];
  }

  lemma SpliceAt(kept: seq<Record>, r: Record, rest: seq<Record>)
    ensures (kept + [r]) + rest == kept + ([r] + rest)
    ensures (kept + ([r] + rest))[|kept|] == r
    ensures (kept + ([r] + rest))[..|kept|] + (kept + ([r] + rest))[|kept| + 1..] == kept + rest
  {
  }

  class Timer {
    const transports: set<string>
    var records: seq<Record>
    var nextHandle: nat
    ghost var store: map<string, Stored>
    ghost var queue: seq<Op>
    ghost var live: map<nat, Timeout>
    ghost var continuations: seq<(string, Payload)>
    ghost var snapshot: map<string, Stored>
    ghost var executed: seq<(string, Payload)>
    ghost var handedOut: seq<(string, Payload)>
    ghost var leaving: seq<string>
    ghost var clock: nat

    ghost function Abstract(): State
      reads this
    {
      State(transports, records, store, queue, live, nextHandle, continuations, snapshot, executed, handedOut, leaving,
            clock)
    }

    constructor (transports: set<string>, ghost store: map<string, Stored>, ghost now: nat)
      ensures Abstract() == Fresh(transports, store, now)
    {
      this.transports := transports;
      this.store := store;
      records, nextHandle, queue, live := [], 0, [], map[];
      continuations, snapshot, executed, handedOut, leaving, clock := [], map[], [], [], [], now;
    }

    /** The position of `id` in the map, or its size. */
    method Find(id: string) returns (k: nat)
      ensures k <= |records| && (k < |records| <==> id in Ids(records))
      ensures k < |records| ==> records[k].id == id
    {
      for i := 0 to |records|
        invariant forall j :: 0 <= j < i ==> records[j].id != id
      {
        if records[i].id == id {
          return i;
        }
      }
      return |records|;
    }

    /** `create` up to the storage put; `verdict` says what the caller is told. */
    method Create(id: string, payload: Payload, now: nat) returns (verdict: Admission)
      modifies this`queue, this`executed, this`clock
      ensures verdict == Judge(old(Abstract()), id, payload, now)
      ensures Abstract() == AfterCreate(old(Abstract()), id, payload, now).(clock := now)
    {
      clock := now;
      if payload.transport !in transports {
        return UnknownTransport;
      }
      var k := Find(id);
      if k < |records| {
        return AlreadyExists;
      }
      var created := if payload.created == 0 then now else payload.created;
      if now > created + payload.timeout {
        executed := executed + [(id, payload)];
        return Stale;
      }
      var elapsed: int := now - created;
      verdict := Queued(Stored(created, payload), payload.timeout - elapsed);
      queue := queue + [Put(id, verdict.value, verdict.delay)];
    }

    /** The callback of the put. */
    method OnPut(op: Op, ok: bool, now: nat)
      requires op.Put? && queue != [] && queue[0] == op
      modifies this
      ensures Abstract() == Step(old(Abstract()), Complete(ok, now))
    {
      queue, clock := queue[1..], now;
      if !ok {
        return;
      }
      store := store[op.id := op.value];
      var handle := nextHandle;
      nextHandle := nextHandle + 1;
      live := live[handle := Timeout(op.id, now + op.delay, op.value.payload)];
      records := SetRecord(records, Record(op.id, op.value.created, op.value.payload, handle));
    }

    method RemoveTimer(id: string, ghost update: Option<Payload>)
      modifies this`queue
      ensures Abstract() == old(Abstract()).(queue := old(queue) + [Del(id, update)])
    {
      queue := queue + [Del(id, update)];
    }

    /** Takes the record at position `k` off the map, and its timeout with it. */
    method Forget(k: nat)
      requires k < |records| && DistinctIds(records)
      modifies this`records, this`live
      ensures records == WithoutId(old(records), old(records)[k].id)
      ensures live == old(live) - TimersOf(old(records), old(records)[k].id)
    {
      WithoutAt(records, k);
      OnlyTimer(records, k);
      live := live - {records[k].timer};
      records := records[..k] + records[k + 1..];
    }

    /** Takes the entry of a removal off the map, if there is one, and lets an update go on. */
    method Unlist(id: string, update: Option<Payload>) returns (found: bool)
      requires DistinctIds(records)
      modifies this`records, this`live, this`continuations
      ensures found <==> id in Ids(old(records))
      ensures records == if found then WithoutId(old(records), id) else old(records)
      ensures live == if found then old(live) - TimersOf(old(records), id) else old(live)
      ensures continuations
              == old(continuations) + if found && update.Some? then [(id, update.value)] else []
    {
      var k := Find(id);
      if k == |records| {
        return false;
      }
      Forget(k);
      if update.Some? {
        continuations := continuations + [(id, update.value)];
      }
      return true;
    }

    /** The callback of the removal; `found` is false for the source's ENOENT. */
    method OnDel(op: Op, ok: bool, now: nat) returns (found: bool)
      requires op.Del? && queue != [] && queue[0] == op && DistinctIds(records)
      modifies this
      ensures Abstract() == Step(old(Abstract()), Complete(ok, now))
      ensures ok ==> (found <==> op.id in Ids(old(records)))
      ensures continuations
              == old(continuations) +
                 if ok && found && op.update.Some? then [(op.id, op.update.value)] else []
    {
      queue, clock := queue[1..], now;
      if !ok {
        return false;
      }
      store := store - {op.id};
      found := Unlist(op.id, op.update);
    }

    /** The rest of an update, after its removal is done. */
    method OnRemoved(id: string, payload: Payload, now: nat) returns (verdict: Admission)
      requires continuations != [] && continuations[0] == (id, payload)
      modifies this`queue, this`executed, this`clock, this`continuations
      ensures Abstract() == Step(old(Abstract()), Event.Continue(now))
    {
      continuations := continuations[1..];
      verdict := Create(id, payload, now);
    }

    /** One entry of the recovery stream. */
    method OnRecoverData(key: string, value: Stored, now: nat)
      requires key in snapshot && snapshot[key] == value
      modifies this`queue, this`executed, this`clock, this`snapshot
      ensures Abstract() == Step(old(Abstract()), RecoverData(key, now))
    {
      snapshot := snapshot - {key};
      var _ := Create(key, HandOver(value), now);
    }

    /** Takes the record at position `k` off this node and hands it out. */
    method Evict(k: nat)
      requires k < |records|
      modifies this`records, this`live, this`handedOut
      ensures Abstract() == EvictedAt(old(Abstract()), k)
    {
      var record := records[k];
      live := live - {record.timer};
      records := records[..k] + records[k + 1..];
      handedOut := handedOut + [(record.id, HandOver(Stored(record.created, record.payload)))];
    }

    /** Walks the map, evicting each record that the node does not own; `batch` is what is to be deleted. */
    method EvictNotOwned(owned: set<string>) returns (batch: seq<string>)
      modifies this`records, this`live, this`handedOut
      ensures Abstract() == Evicted(old(Abstract()), owned)
      ensures batch == IdList(NotOwned(old(records), owned))
    {
      ghost var was := Abstract();
      var size, k := |records|, 0;
      batch := [];
      WalkEnds(was, owned);
      for i := 0 to size
        invariant size == |was.records| && k == |Owned(was.records[..i], owned)|
        invariant Abstract() == Walked(was, owned, i)
        invariant batch == IdList(NotOwned(was.records[..i], owned))
      {
        WalkStep(was, owned, i);
        WalkCounts(was.records, owned, i);
        if records[k].id in owned {
          k := k + 1;
        } else {
          batch := batch + [records[k].id];
          Evict(k);
        }
      }
    }

    method Rebalance(owned: set<string>)
      modifies this
      ensures Abstract() == Step(old(Abstract()), Event.Rebalance(owned))
    {
      if |records| == 0 {
        return;
      }
      var batch := EvictNotOwned(owned);
      queue := queue + [BatchDel(batch)];
    }

    /** Asks the other nodes to take every record, numbering the requests, and forgets them here. */
    method Shutdown() returns (closing: Closing)
      requires leaving == []
      modifies this`records, this`live, this`handedOut, this`leaving
      ensures Abstract() == Step(old(Abstract()), Event.Shutdown)
      ensures closing == AfterAcks(old(records), []) && closing.batch == leaving
    {
      ghost var was := Abstract();
      if |records| == 0 {
        EmptyShutdown(was);
        return Closing(0, [], [], 0, 0, true);
      }
      var sent, requests, batch := 0, [], [];
      for i := 0 to |records|
        invariant sent == i && Abstract() == Asked(was, i)
        invariant requests == Requests(was.records[..i]) && batch == IdList(was.records[..i])
      {
        AskedNext(was, i);
        var record := records[i];
        batch, sent := batch + [record.id], sent + 1;
        var out := Ask(record);
        requests := requests + [(record.id, out, sent)];
      }
      assert records[..|records|] == records;
      closing := Closing(|records|, requests, batch, 0, 0, false);
      leaving := batch;
      records := [];
    }

    /** Clears the timeout of one record; `out` is what the other nodes are asked to create. */
    method Ask(record: Record) returns (out: Payload)
      modifies this`live, this`handedOut
      ensures out == HandOver(Stored(record.created, record.payload))
      ensures Abstract() == old(Abstract()).(live := old(live) - {record.timer},
                                             handedOut := old(handedOut) + [(record.id, out)])
    {
      out := HandOver(Stored(record.created, record.payload));
      live := live - {record.timer};
      handedOut := handedOut + [(record.id, out)];
    }

    /** Every request is acknowledged: the delete batch goes to the store. */
    method OnHandedOver(ids: seq<string>)
      requires ids == leaving != []
      modifies this`queue, this`leaving
      ensures Abstract() == Step(old(Abstract()), HandedOver)
    {
      queue := queue + [BatchDel(ids)];
      leaving := [];
    }
  }

  /** A shutdown that has asked for the first i records. */
  function Asked(s: State, i: nat): State
    requires i <= |s.records|
  {
    s.(live := s.live - Timers(s.records[..i]), handedOut := s.handedOut + Outgoing(s.records[..i]))
  }

  lemma AskedNext(s: State, i: nat)
    requires i < |s.records|
    ensures var r := s.records[i]; var out := HandOver(Stored(r.created, r.payload)); var t := Asked(s, i);
            && Asked(s, i + 1) == t.(live := t.live - {r.timer}, handedOut := t.handedOut + [(r.id, out)])
            && Requests(s.records[..i + 1]) == Requests(s.records[..i]) + [(r.id, out, i + 1)]
            && IdList(s.records[..i + 1]) == IdList(s.records[..i]) + [r.id]
  {
    assert s.records[..i + 1] == s.records[..i] + [s.records[i]];
    GoneSnoc(s.records[..i], s.records[i]);
  }

  lemma EmptyShutdown(s: State)
    requires s.records == [] && s.leaving == []
    ensures Step(s, Shutdown) == s && Requests(s.records) == [] && IdList(s.records) == []
  {
    assert Timers(s.records) == {};
    assert s.live - {} == s.live && Outgoing(s.records) == [];
  }

  lemma OnlyTimer(records: seq<Record>, k: nat)
    requires DistinctIds(records) && k < |records|
    ensures TimersOf(records, records[k].id) == {records[k].timer}
  {
    forall r | r in records && r.id == records[k].id ensures r == records[k] {
      SameIdSameRecord(records, r, records[k]);
    }
    assert records[k] in records;
  }

  lemma GoneSnoc(gone: seq<Record>, r: Record)
    ensures IdList(gone + [r]) == IdList(gone) + [r.id]
    ensures Outgoing(gone + [r]) == Outgoing(gone) + [(r.id, HandOver(Stored(r.created, r.payload)))]
    ensures Timers(gone + [r]) == Timers(gone) + {r.timer}
  {
  }

  /** The replies to a shutdown's requests. */
  class Handover {
    const size: nat
    var acks: nat
    ghost var closing: Closing

    ghost predicate Valid()
      reads this
    {
      closing.size == size && closing.acks == acks
    }

    constructor (closing: Closing)
      ensures Valid() && this.closing == closing
    {
      size, acks := closing.size, closing.acks;
      this.closing := closing;
    }

    /** Counts a reply; `write` says that this one writes the delete batch. */
    method OnReply() returns (write: bool)
      requires Valid()
      modifies this
      ensures Valid() && closing == Acknowledged(old(closing))
      ensures closing.writes == old(closing).writes + (if write then 1 else 0)
    {
      acks := acks + 1;
      write := acks == size;
      closing := Acknowledged(closing);
    }

    /** Once the batch is written, this node disconnects. */
    method OnBatchWritten()
      requires Valid() && closing.writes > 0
      modifies this
      ensures Valid() && closing == BatchWritten(old(closing)) && closing.disconnected
    {
      closing := BatchWritten(closing);
    }
  }
}
