/** The flapper and damped-member tables of gossip/damper.js and the background timers that follow them. */
module DamperTables {
  import opened Basics
  import DampFanout
  import opened DampSelection

  datatype Config = Config(dampedMaxPercentage: nat, suppressDuration: int, suppressLimit: int, rVal: nat)

  /** `damped` maps a damped member to the time it was damped; a timer field holds the last handle it was given. */
  datatype Tables = Tables(flappers: set<string>, damped: map<string, int>,
                         dampTimer: Option<nat>, expirationTimer: Option<nat>, nextHandle: nat)

  /** `DampMember` says whether the membership knows the member and how many members it has; `RoundOver` is the callback
      of one damping round; `ExpirationTick` is the expiration timer firing. */
  datatype Event =
    | AddFlapper(addr: string)
    | RemoveFlapper(addr: string)
    | DampMember(addr: string, known: bool, memberCount: nat, now: int)
    | Expire(now: int)
    | ExpirationTick(now: int)
    | RoundOver
    | Destroy

  const EMPTY := Tables({}, map[], None, None, 0)

  /** The percentage test, without division: false for an empty membership, as the source's NaN and Infinity are. */
  predicate BelowLimit(config: Config, damped: nat, memberCount: nat) {
    damped * 100 < config.dampedMaxPercentage * memberCount
  }

  function StartDampTimer(s: Tables): Tables {
    if s.dampTimer.Some? then s else s.(dampTimer := Some(s.nextHandle), nextHandle := s.nextHandle + 1)
  }

  function Remove(s: Tables, addr: string): Tables {
    if addr !in s.flappers then s
    else s.(flappers := s.flappers - {addr},
            dampTimer := if s.flappers == {addr} then None else s.dampTimer)
  }

  predicate Expired(config: Config, timestamp: int, now: int) {
    now - timestamp >= config.suppressDuration
  }

  function StillDamped(config: Config, damped: map<string, int>, now: int): map<string, int> {
    map a | a in damped && !Expired(config, damped[a], now) :: damped[a]
  }

  function ExpireAll(config: Config, s: Tables, now: int): Tables {
    var left := StillDamped(config, s.damped, now);
    if left == s.damped then s
    else s.(damped := left, expirationTimer := if left == map[] then None else s.expirationTimer)
  }

  function Step(config: Config, s: Tables, e: Event): Tables {
    match e
    case AddFlapper(a) =>
      if a in s.damped || a in s.flappers then s
      else
        var t := s.(flappers := s.flappers + {a});
        if s.flappers == {} then StartDampTimer(t) else t
    case RemoveFlapper(a) => Remove(s, a)
    case DampMember(a, known, memberCount, now) =>
      if !known || a !in s.flappers || !BelowLimit(config, |s.damped|, memberCount) then s
      else
        var t := Remove(s, a).(damped := s.damped[a := now]);
        if t.expirationTimer.Some? then t
        else t.(expirationTimer := Some(t.nextHandle), nextHandle := t.nextHandle + 1)
    case Expire(now) => ExpireAll(config, s, now)
    case ExpirationTick(now) =>
      var t := ExpireAll(config, s, now);
      if t.expirationTimer.Some? then t.(expirationTimer := Some(t.nextHandle), nextHandle := t.nextHandle + 1) else t
    case RoundOver =>
      if s.dampTimer.Some? then s.(dampTimer := Some(s.nextHandle), nextHandle := s.nextHandle + 1) else s
    case Destroy => s.(dampTimer := None, expirationTimer := None)
  }

  function RunFrom(config: Config, s: Tables, es: seq<Event>): Tables {
    if es == [] then s else Step(config, RunFrom(config, s, es[..|es| - 1]), es[|es| - 1])
  }

  function Run(config: Config, es: seq<Event>): Tables {
    RunFrom(config, EMPTY, es)
  }

  // -------- every run --------

  /** What holds whatever happens, with `bound` no less than any member count seen. */
  ghost predicate Always(config: Config, bound: nat, s: Tables) {
    && s.flappers !! s.damped.Keys
    && (s.dampTimer.Some? ==> s.flappers != {})
    && (s.expirationTimer.Some? ==> s.damped != map[])
    && (s.damped != map[] ==> 100 * (|s.damped| - 1) < config.dampedMaxPercentage * bound)
  }

  /** What also holds as long as the damper is not destroyed. */
  ghost predicate TimersRun(s: Tables) {
    && (s.flappers != {} ==> s.dampTimer.Some?)
    && (s.damped != map[] ==> s.expirationTimer.Some?)
  }

  lemma PercentMono(p: nat, a: nat, b: nat)
    requires a <= b
    ensures p * a <= p * b
  {
  }

  lemma ExpiryShrinks(config: Config, damped: map<string, int>, now: int)
    ensures StillDamped(config, damped, now).Keys <= damped.Keys
    ensures |StillDamped(config, damped, now)| <= |damped|
  {
    var left := StillDamped(config, damped, now);
    SubsetSize(left.Keys, damped.Keys);
    assert |left| == |left.Keys| && |damped| == |damped.Keys|;
  }

  lemma ExpiryKeeps(config: Config, bound: nat, s: Tables, now: int)
    requires Always(config, bound, s)
    ensures Always(config, bound, ExpireAll(config, s, now))
    ensures TimersRun(s) ==> TimersRun(ExpireAll(config, s, now))
  {
    ExpiryShrinks(config, s.damped, now);
  }

  /** What damping one member does to the two tables. */
  lemma DampingOne(config: Config, s: Tables, e: Event)
    requires e.DampMember? && s.flappers !! s.damped.Keys
    ensures var t := Step(config, s, e);
            if e.known && e.addr in s.flappers && BelowLimit(config, |s.damped|, e.memberCount)
            then t.flappers == s.flappers - {e.addr} && t.damped == s.damped[e.addr := e.now]
                 && t.damped.Keys == s.damped.Keys + {e.addr} && |t.damped| == |s.damped| + 1
            else t == s
  {
    var damped := s.damped[e.addr := e.now];
    assert damped.Keys == s.damped.Keys + {e.addr};
    assert |damped| == |damped.Keys| && |s.damped| == |s.damped.Keys|;
  }

  lemma DampingKeeps(config: Config, bound: nat, s: Tables, e: Event)
    requires Always(config, bound, s) && e.DampMember? && e.memberCount <= bound
    ensures Always(config, bound, Step(config, s, e))
    ensures TimersRun(s) ==> TimersRun(Step(config, s, e))
  {
    DampingOne(config, s, e);
    PercentMono(config.dampedMaxPercentage, e.memberCount, bound);
  }

  lemma StepKeeps(config: Config, bound: nat, s: Tables, e: Event)
    requires Always(config, bound, s)
    requires e.DampMember? ==> e.memberCount <= bound
    ensures Always(config, bound, Step(config, s, e))
    ensures TimersRun(s) && !e.Destroy? ==> TimersRun(Step(config, s, e))
  {
    match e
    case DampMember(_, _, _, _) => DampingKeeps(config, bound, s, e);
    case Expire(now) => ExpiryKeeps(config, bound, s, now);
    case ExpirationTick(now) => ExpiryKeeps(config, bound, s, now);
    case _ =>
  }

  /** On every run, flappers and damped members are disjoint and a timer is set only while its table is not empty. On
      every run without `destroy`, each timer is set exactly while its table is not empty. If the membership never had
      more than `bound` members, one damped member less than there are stays below the percentage limit. */
  lemma {:induction false} EveryRun(config: Config, bound: nat, es: seq<Event>)
    requires forall i :: 0 <= i < |es| && es[i].DampMember? ==> es[i].memberCount <= bound
    ensures Always(config, bound, Run(config, es))
    ensures (forall i :: 0 <= i < |es| ==> !es[i].Destroy?) ==>
              (Run(config, es).dampTimer.Some? <==> Run(config, es).flappers != {}) &&
              (Run(config, es).expirationTimer.Some? <==> Run(config, es).damped != map[])
  {
    if es != [] {
      EveryRun(config, bound, es[..|es| - 1]);
      StepKeeps(config, bound, Run(config, es[..|es| - 1]), es[|es| - 1]);
    }
  }

  lemma RunSnoc(config: Config, s: Tables, es: seq<Event>, e: Event)
    ensures RunFrom(config, s, es + [e]) == Step(config, RunFrom(config, s, es), e)
  {
    assert (es + [e])[..|es|] == es;
  }

  /** Whether `destroy` has come since there were last no flappers. */
  function DampTimerStopped(config: Config, es: seq<Event>): bool {
    es != [] && Run(config, es).flappers != {} &&
    (es[|es| - 1].Destroy? || DampTimerStopped(config, es[..|es| - 1]))
  }

  /** Whether `destroy` has come since a member was last damped, or since there were last no damped members. */
  function ExpirationStopped(config: Config, es: seq<Event>): bool {
    es != [] && Run(config, es).damped != map[] &&
    (es[|es| - 1].Destroy? ||
     (ExpirationStopped(config, es[..|es| - 1]) && |Run(config, es).damped| <= |Run(config, es[..|es| - 1]).damped|))
  }

  /** What an event that is not `destroy` does to the timer fields, given the tables before and after. */
  lemma TimersAfter(config: Config, s: Tables, e: Event)
    requires s.flappers !! s.damped.Keys && (s.dampTimer.Some? ==> s.flappers != {})
    requires (s.expirationTimer.Some? ==> s.damped != map[]) && !e.Destroy?
    ensures var t := Step(config, s, e);
            && (t.dampTimer.Some? <==> t.flappers != {} && (s.flappers == {} || s.dampTimer.Some?))
            && (t.expirationTimer.Some? <==> t.damped != map[] && (|t.damped| > |s.damped| || s.expirationTimer.Some?))
  {
    match e
    case DampMember(_, _, _, _) => TimersAfterDamping(config, s, e);
    case Expire(now) => TimersAfterExpiry(config, s, now);
    case ExpirationTick(now) => TimersAfterExpiry(config, s, now);
    case _ =>
  }

  lemma TimersAfterDamping(config: Config, s: Tables, e: Event)
    requires s.flappers !! s.damped.Keys && (s.dampTimer.Some? ==> s.flappers != {}) && e.DampMember?
    requires s.expirationTimer.Some? ==> s.damped != map[]
    ensures var t := Step(config, s, e);
            && (t.dampTimer.Some? <==> t.flappers != {} && (s.flappers == {} || s.dampTimer.Some?))
            && (t.expirationTimer.Some? <==> t.damped != map[] && (|t.damped| > |s.damped| || s.expirationTimer.Some?))
  {
    DampingOne(config, s, e);
    assert s.flappers == {e.addr} <==> e.addr in s.flappers && s.flappers - {e.addr} == {};
  }

  lemma TimersAfterExpiry(config: Config, s: Tables, now: int)
    requires s.expirationTimer.Some? ==> s.damped != map[]
    ensures var t := ExpireAll(config, s, now);
            && t.flappers == s.flappers && t.dampTimer == s.dampTimer && |t.damped| <= |s.damped|
            && (t.expirationTimer.Some? <==> t.damped != map[] && s.expirationTimer.Some?)
  {
    ExpiryShrinks(config, s.damped, now);
  }

  lemma {:induction false} RunSeparates(config: Config, es: seq<Event>)
    ensures var s := Run(config, es);
            && s.flappers !! s.damped.Keys
            && (s.dampTimer.Some? ==> s.flappers != {}) && (s.expirationTimer.Some? ==> s.damped != map[])
  {
    if es != [] {
      RunSeparates(config, es[..|es| - 1]);
      if !es[|es| - 1].Destroy? {
        TimersAfter(config, Run(config, es[..|es| - 1]), es[|es| - 1]);
        StepSeparates(config, Run(config, es[..|es| - 1]), es[|es| - 1]);
      }
    }
  }

  lemma StepSeparates(config: Config, s: Tables, e: Event)
    requires s.flappers !! s.damped.Keys
    ensures Step(config, s, e).flappers !! Step(config, s, e).damped.Keys
  {
    match e
    case DampMember(_, _, _, _) => DampingOne(config, s, e);
    case Expire(now) => ExpiryShrinks(config, s.damped, now);
    case ExpirationTick(now) => ExpiryShrinks(config, s.damped, now);
    case _ =>
  }

  /** On every run, with `destroy` wherever it comes: the damp timer is set exactly while there are flappers and none of
      the calls of `destroy` came since there last were none; the expiration timer exactly while there are damped
      members and no `destroy` came since a member was last damped or there last were none. */
  lemma {:induction false} TimersFollowTablesIff(config: Config, es: seq<Event>)
    ensures var s := Run(config, es);
            && (s.dampTimer.Some? <==> s.flappers != {} && !DampTimerStopped(config, es))
            && (s.expirationTimer.Some? <==> s.damped != map[] && !ExpirationStopped(config, es))
  {
    if es != [] {
      var init, e := es[..|es| - 1], es[|es| - 1];
      TimersFollowTablesIff(config, init);
      RunSeparates(config, init);
      if !e.Destroy? {
        TimersAfter(config, Run(config, init), e);
      }
    }
  }

  // -------- where an address stands, read off the events --------

  datatype Standing = Calm | Flapping | Damped(since: int)

  /** What the events say of one address: it flaps when it is added while calm, calms down when it is removed while it
      flaps, is damped while it flaps if the membership knows it and the damped members are below the percentage, and
      calms down once it has been damped for as long as the suppression lasts. */
  function StandingAfter(config: Config, es: seq<Event>, addr: string): Standing {
    if es == [] then Calm
    else
      var init := es[..|es| - 1];
      var before := StandingAfter(config, init, addr);
      match es[|es| - 1]
      case AddFlapper(a) => if a == addr && before.Calm? then Flapping else before
      case RemoveFlapper(a) => if a == addr && before.Flapping? then Calm else before
      case DampMember(a, known, memberCount, now) =>
        if a == addr && before.Flapping? && known
           && 100 * |Run(config, init).damped| < config.dampedMaxPercentage * memberCount
        then Damped(now) else before
      case Expire(now) => Calmed(config, before, now)
      case ExpirationTick(now) => Calmed(config, before, now)
      case RoundOver => before
      case Destroy => before
  }

  function Calmed(config: Config, standing: Standing, now: int): Standing {
    if standing.Damped? && standing.since + config.suppressDuration <= now then Calm else standing
  }

  function StandingIn(s: Tables, addr: string): Standing {
    if addr in s.flappers then Flapping else if addr in s.damped then Damped(s.damped[addr]) else Calm
  }

  lemma ExpiryCalms(config: Config, s: Tables, now: int, addr: string)
    requires s.flappers !! s.damped.Keys
    ensures StandingIn(ExpireAll(config, s, now), addr) == Calmed(config, StandingIn(s, addr), now)
  {
    var left := StillDamped(config, s.damped, now);
    assert addr in left <==> addr in s.damped && !Expired(config, s.damped[addr], now);
  }

  /** On every run, destroyed or not, the two tables say of each address exactly what its events say. */
  lemma {:induction false} TablesFollowEvents(config: Config, es: seq<Event>, addr: string)
    ensures var s, standing := Run(config, es), StandingAfter(config, es, addr);
            && (addr in s.flappers <==> standing == Flapping)
            && (addr in s.damped <==> standing.Damped?)
            && (addr in s.damped ==> s.damped[addr] == standing.since)
  {
    if es != [] {
      var init, e := es[..|es| - 1], es[|es| - 1];
      TablesFollowEvents(config, init, addr);
      RunSeparates(config, init);
      match e
      case Expire(now) => ExpiryCalms(config, Run(config, init), now, addr);
      case ExpirationTick(now) => ExpiryCalms(config, Run(config, init), now, addr);
      case _ =>
    }
  }

  /** The run that shows the difference: after `destroy`, adding to a table that is not empty starts no timer. */
  lemma DestroyLeavesTableWithoutTimer(config: Config)
    ensures var s := Run(config, [AddFlapper("a")] + [Destroy] + [AddFlapper("b")]);
            s.flappers == {"a", "b"} && s.dampTimer == None
  {
    RunSnoc(config, EMPTY, [], AddFlapper("a"));
    assert [] + [AddFlapper("a")] == [AddFlapper("a")];
    RunSnoc(config, EMPTY, [AddFlapper("a")], Destroy);
    RunSnoc(config, EMPTY, [AddFlapper("a")] + [Destroy], AddFlapper("b"));
    assert {"a"} != {};
  }

  // -------- one damping round --------

  function DampAll(batch: seq<string>, known: set<string>, memberCount: nat, now: int): (es: seq<Event>)
    ensures |es| == |batch|
    ensures forall i :: 0 <= i < |batch| ==> es[i] == DampMember(batch[i], batch[i] in known, memberCount, now)
  {
    seq(|batch|, i requires 0 <= i < |batch| => DampMember(batch[i], batch[i] in known, memberCount, now))
  }

  lemma DampAllSnoc(config: Config, s: Tables, batch: seq<string>, known: set<string>, memberCount: nat, now: int)
    requires batch != []
    ensures var init, last := batch[..|batch| - 1], batch[|batch| - 1];
            RunFrom(config, s, DampAll(batch, known, memberCount, now))
            == Step(config, RunFrom(config, s, DampAll(init, known, memberCount, now)),
                    DampMember(last, last in known, memberCount, now))
  {
    var es := DampAll(batch, known, memberCount, now);
    assert es[..|es| - 1] == DampAll(batch[..|batch| - 1], known, memberCount, now);
  }

  /** Going from s to t, only known flappers of the batch were damped, and everyone else kept their place. */
  ghost predicate DampsOnly(s: Tables, t: Tables, batch: seq<string>, known: set<string>, now: int) {
    && Moved(s.flappers, s.damped.Keys, t.flappers, t.damped.Keys) && |s.damped| <= |t.damped|
    && Entered(s.damped, t.damped, batch, known, now)
  }

  /** Some members moved from the first set to the second. */
  ghost predicate Moved(flappers: set<string>, damped: set<string>, flappers': set<string>, damped': set<string>) {
    flappers' !! damped' && flappers' + damped' == flappers + damped && damped <= damped'
  }

  lemma MovesOne(flappers: set<string>, damped: set<string>, flappers': set<string>, damped': set<string>, addr: string)
    requires Moved(flappers, damped, flappers', damped') && addr in flappers'
    ensures Moved(flappers, damped, flappers' - {addr}, damped' + {addr})
  {
    assert (flappers' - {addr}) + (damped' + {addr}) == flappers' + damped';
  }

  lemma NamesOneMore(s: Tables, t: Tables, batch: seq<string>, known: set<string>, now: int, addr: string)
    requires DampsOnly(s, t, batch, known, now)
    ensures DampsOnly(s, t, batch + [addr], known, now)
  {
  }

  lemma MovesOneMore(s: Tables, t: Tables, u: Tables, batch: seq<string>, known: set<string>, now: int, addr: string)
    requires DampsOnly(s, t, batch, known, now) && addr in batch && addr in known && addr in t.flappers
    requires u.flappers == t.flappers - {addr} && u.damped == t.damped[addr := now] && |u.damped| == |t.damped| + 1
    ensures DampsOnly(s, u, batch, known, now)
  {
    assert u.damped.Keys == t.damped.Keys + {addr};
    MovesOne(s.flappers, s.damped.Keys, t.flappers, t.damped.Keys, addr);
    EntriesOneMore(s.damped, t.damped, batch, known, now, addr);
  }

  ghost predicate Entered(damped: map<string, int>, damped': map<string, int>, batch: seq<string>, known: set<string>,
                          now: int) {
    && (forall a :: a in damped ==> a in damped' && damped'[a] == damped[a])
    && (forall a :: a in damped' && a !in damped ==> a in batch && a in known && damped'[a] == now)
  }

  lemma EntriesOneMore(damped: map<string, int>, damped': map<string, int>, batch: seq<string>, known: set<string>,
                       now: int, addr: string)
    requires Entered(damped, damped', batch, known, now) && addr in batch && addr in known && addr !in damped'
    ensures Entered(damped, damped'[addr := now], batch, known, now)
  {
  }

  lemma DampsOneMore(config: Config, s: Tables, t: Tables, batch: seq<string>, known: set<string>, memberCount: nat,
                     now: int, addr: string)
    requires DampsOnly(s, t, batch, known, now)
    ensures DampsOnly(s, Step(config, t, DampMember(addr, addr in known, memberCount, now)), batch + [addr], known, now)
  {
    var u := Step(config, t, DampMember(addr, addr in known, memberCount, now));
    DampingOne(config, t, DampMember(addr, addr in known, memberCount, now));
    NamesOneMore(s, t, batch, known, now, addr);
    if u != t {
      MovesOneMore(s, t, u, batch + [addr], known, now, addr);
    }
  }

  /** A batch damps only members it names that were flappers, and keeps everyone else where they were. */
  lemma {:induction false} BatchDamps(config: Config, s: Tables, batch: seq<string>, known: set<string>,
                                     memberCount: nat, now: int)
    requires s.flappers !! s.damped.Keys
    ensures DampsOnly(s, RunFrom(config, s, DampAll(batch, known, memberCount, now)), batch, known, now)
  {
    if batch != [] {
      var init, last := batch[..|batch| - 1], batch[|batch| - 1];
      BatchDamps(config, s, init, known, memberCount, now);
      DampAllSnoc(config, s, batch, known, memberCount, now);
      DampsOneMore(config, s, RunFrom(config, s, DampAll(init, known, memberCount, now)), init, known, memberCount,
                   now, last);
      assert batch == init + [last];
    }
  }

  /** Only the limit stops a batch: while it is not reached, every known flapper that the batch names is damped. */
  lemma {:induction false} BatchStopsOnlyAtLimit(config: Config, s: Tables, batch: seq<string>, known: set<string>,
                                                 memberCount: nat, now: int, addr: string)
    requires s.flappers !! s.damped.Keys
    requires addr in batch && addr in known && addr in s.flappers
    ensures var t := RunFrom(config, s, DampAll(batch, known, memberCount, now));
            addr in t.damped || !BelowLimit(config, |t.damped|, memberCount)
  {
    var init, last := batch[..|batch| - 1], batch[|batch| - 1];
    BatchDamps(config, s, init, known, memberCount, now);
    DampAllSnoc(config, s, batch, known, memberCount, now);
    DampingOne(config, RunFrom(config, s, DampAll(init, known, memberCount, now)),
               DampMember(last, last in known, memberCount, now));
    if addr in init {
      BatchStopsOnlyAtLimit(config, s, init, known, memberCount, now, addr);
    }
  }

  /** A whole round, from the replies to the table: whoever it damps was a flapper, and every one of the first rVal good
      replies reported that member at or over the suppress limit. */
  lemma RoundDampsOnlyReportedFlappers(config: Config, s: Tables, n: nat, rVal: nat, replies: seq<DampFanout.Reply>,
                                       batch: seq<string>, known: set<string>, memberCount: nat, now: int, addr: string)
    requires s.flappers !! s.damped.Keys
    requires 1 <= rVal <= n && |replies| <= n
    requires DampFanout.Run(n, rVal, replies).calls != [] && DampFanout.Run(n, rVal, replies).calls[0].Quorum?
    requires forall i :: 0 <= i < |replies| ==> OneScoreEach(replies[i], addr)
    requires var results := DampFanout.Run(n, rVal, replies).calls[0].results;
             forall m :: m in batch <==> ShouldDamp(results, rVal, config.suppressLimit, m)
    requires addr !in s.damped && addr in RunFrom(config, s, DampAll(batch, known, memberCount, now)).damped
    ensures addr in s.flappers
    ensures |DampFanout.Goods(replies)| >= rVal
            && EveryOneOver(DampFanout.Goods(replies)[..rVal], config.suppressLimit, addr)
  {
    BatchDamps(config, s, batch, known, memberCount, now);
    DampFanout.QuorumOutcome(n, rVal, replies);
    DampedOnlyByQuorum(n, rVal, replies, config.suppressLimit, addr);
  }

  // -------- the class --------

  /** What starting a round decides: too many damped already, nobody to ask, or ask with this r-value. */
  datatype Start = LimitReached | Unsatisfied | FanOut(rVal: nat)

  class Damper {
    const config: Config
    var flappers: set<string>
    var dampedMembers: map<string, int>
    var dampTimer: Option<nat>
    var expirationTimer: Option<nat>
    var nextHandle: nat

    ghost function Abstract(): Tables
      reads this
    {
      Tables(flappers, dampedMembers, dampTimer, expirationTimer, nextHandle)
    }

    constructor (config: Config)
      ensures Abstract() == EMPTY && this.config == config
    {
      this.config := config;
      flappers, dampedMembers := {}, map[];
      dampTimer, expirationTimer, nextHandle := None, None, 0;
    }

    method SetTimeout() returns (handle: nat)
      modifies this`nextHandle
      ensures handle == old(nextHandle) && nextHandle == old(nextHandle) + 1
    {
      handle := nextHandle;
      nextHandle := nextHandle + 1;
    }

    method AddFlapper(addr: string) returns (added: bool)
      modifies this
      ensures Abstract() == Step(config, old(Abstract()), Event.AddFlapper(addr))
      ensures added <==> addr !in old(dampedMembers) && addr !in old(flappers)
    {
      if addr in dampedMembers || addr in flappers {
        return false;
      }
      assert flappers == {} <==> flappers + {addr} == {addr};
      assert |flappers + {addr}| == |flappers| + 1;
      flappers := flappers + {addr};
      if |flappers| == 1 && dampTimer.None? {
        var handle := SetTimeout();
        dampTimer := Some(handle);
      }
      return true;
    }

    method RemoveFlapper(addr: string) returns (removed: bool)
      modifies this
      ensures Abstract() == Step(config, old(Abstract()), Event.RemoveFlapper(addr))
      ensures removed <==> addr in old(flappers)
    {
      if addr !in flappers {
        return false;
      }
      assert flappers == {addr} <==> flappers - {addr} == {};
      flappers := flappers - {addr};
      if |flappers| == 0 {
        dampTimer := None;
      }
      return true;
    }

    method DampMember(addr: string, known: bool, memberCount: nat, now: int) returns (damped: bool)
      modifies this
      ensures Abstract() == Step(config, old(Abstract()), Event.DampMember(addr, known, memberCount, now))
      ensures damped <==> known && addr in old(flappers) && BelowLimit(config, |old(dampedMembers)|, memberCount)
    {
      if !known || addr !in flappers {
        return false;
      }
      var below := ValidateDampedClusterLimits(memberCount);
      if !below {
        return false;
      }
      var _ := RemoveFlapper(addr);
      dampedMembers := dampedMembers[addr := now];
      if expirationTimer.None? {
        var handle := SetTimeout();
        expirationTimer := Some(handle);
      }
      return true;
    }

    /** Damps the selected members one after the other, then ends the round. */
    method OnFanout(membersToDamp: seq<string>, known: set<string>, memberCount: nat, now: int)
      modifies this
      ensures Abstract()
              == Step(config, RunFrom(config, old(Abstract()), DampAll(membersToDamp, known, memberCount, now)),
                      Event.RoundOver)
    {
      ghost var was := Abstract();
      for i := 0 to |membersToDamp|
        invariant Abstract() == RunFrom(config, was, DampAll(membersToDamp[..i], known, memberCount, now))
      {
        var _ := DampMember(membersToDamp[i], membersToDamp[i] in known, memberCount, now);
        DampAllSnoc(config, was, membersToDamp[..i + 1], known, memberCount, now);
        assert membersToDamp[..i + 1][..i] == membersToDamp[..i];
      }
      assert membersToDamp[..|membersToDamp|] == membersToDamp;
      OnSubprotocol();
    }

    /** Deletes the members damped long enough ago, and reports each with how long it was damped. */
    method DeleteExpired(now: int) returns (undamped: map<string, int>)
      modifies this`dampedMembers
      ensures dampedMembers == StillDamped(config, old(dampedMembers), now)
      ensures undamped == map a | a in old(dampedMembers) && Expired(config, old(dampedMembers)[a], now)
                            :: now - old(dampedMembers)[a]
    {
      undamped := map[];
      ghost var was := dampedMembers;
      var keys := dampedMembers.Keys;
      while keys != {}
        invariant keys <= was.Keys
        invariant dampedMembers == map a | a in was && (a in keys || !Expired(config, was[a], now)) :: was[a]
        invariant undamped == map a | a in was && a !in keys && Expired(config, was[a], now) :: now - was[a]
        decreases |keys|
      {
        var key :| key in keys;
        var dampedDuration := now - dampedMembers[key];
        if dampedDuration >= config.suppressDuration {
          dampedMembers := dampedMembers - {key};
          undamped := undamped[key := dampedDuration];
        }
        keys := keys - {key};
      }
    }

    /** Expires damped members, and stops the timer when that leaves none. */
    method ExpireDampedMembers(now: int) returns (undamped: map<string, int>)
      modifies this
      ensures Abstract() == Step(config, old(Abstract()), Event.Expire(now))
      ensures undamped == map a | a in old(dampedMembers) && Expired(config, old(dampedMembers)[a], now)
                            :: now - old(dampedMembers)[a]
    {
      ghost var was := dampedMembers;
      undamped := DeleteExpired(now);
      if |undamped| == 0 {
        assert forall a :: a in was ==> !Expired(config, was[a], now) by {
          assert forall a :: a in was && Expired(config, was[a], now) ==> a in undamped;
        }
        assert dampedMembers == was;
        return;
      }
      assert undamped != map[];
      ghost var a :| a in undamped;
      assert a in was && a !in dampedMembers;
      if |dampedMembers| == 0 {
        assert dampedMembers == map[];
        expirationTimer := None;
      }
    }

    method OnExpirationTick(now: int)
      modifies this
      ensures Abstract() == Step(config, old(Abstract()), Event.ExpirationTick(now))
    {
      var _ := ExpireDampedMembers(now);
      if expirationTimer.Some? {
        var handle := SetTimeout();
        expirationTimer := Some(handle);
      }
    }

    /** The damp timer keeps going unless it was stopped during the round. */
    method OnSubprotocol()
      modifies this
      ensures Abstract() == Step(config, old(Abstract()), Event.RoundOver)
    {
      if dampTimer.Some? {
        var handle := SetTimeout();
        dampTimer := Some(handle);
      }
    }

    method Destroy()
      modifies this
      ensures Abstract() == Step(config, old(Abstract()), Event.Destroy)
    {
      dampTimer := None;
      expirationTimer := None;
    }

    method ValidateDampedClusterLimits(memberCount: nat) returns (below: bool)
      ensures below <==> BelowLimit(config, |dampedMembers|, memberCount)
    {
      below := |dampedMembers| * 100 < config.dampedMaxPercentage * memberCount;
    }

    /** Decides a round for `selectable` members to ask; the r-value it fans out with can be met. */
    method InitiateSubprotocol(memberCount: nat, selectable: nat) returns (start: Start)
      ensures start.LimitReached? <==> !BelowLimit(config, |dampedMembers|, memberCount)
      ensures start.FanOut? ==> 1 <= start.rVal <= selectable && start.rVal == Min(config.rVal, selectable)
      ensures start.Unsatisfied? ==> config.rVal == 0 || selectable == 0
    {
      var below := ValidateDampedClusterLimits(memberCount);
      if !below {
        return LimitReached;
      }
      var rVal := if config.rVal < selectable then config.rVal else selectable;
      if rVal == 0 {
        return Unsatisfied;
      }
      return FanOut(rVal);
    }
  }
}
