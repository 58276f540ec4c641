/** The self-eviction sequence of self-evict.js: hooks, pings and ticks in every order, phase after phase. */
module SelfEviction {
  import opened Basics

  datatype PhaseName = PreEvict | Evicting | PostEvict | Done

  datatype Phase = Phase(name: PhaseName, ts: int, duration: Option<int>, numberOfPings: nat,
                         numberOfSuccessfulPings: nat)

  datatype Kind = Pre | Post

  /** What is given as a hook of one kind: nothing, a function, or something else. */
  datatype Given = Absent | Callable | NotCallable

  datatype Hook = Hook(name: string, preEvict: Given, postEvict: Given)

  datatype HookRun = HookRun(kind: Kind, name: string)

  /** What the sequence waits for: the hooks of a phase, each started on its own tick; the pings; or a number of ticks.
      `left` is the countdown of `_.after`. */
  datatype Wait =
    | Nothing
    | Hooks(kind: Kind, toStart: set<string>, running: set<string>, left: nat)
    | Pings(awaited: set<nat>, left: nat)
    | Ticks(ticks: nat)

  /** `required`, `started` and `finished` log the hooks of both kinds, `pingsSent` and `pingsDone` the pings; `faulty`
      says whether the local status was set; `refused` counts refused initiations, `callbacks` the calls of the
      callback, and `reported` is the total it logs. */
  datatype State = State(hooks: map<string, Hook>, phases: seq<Phase>, wait: Wait, faulty: bool,
                         required: set<HookRun>, started: set<HookRun>, finished: set<HookRun>,
                         pingsSent: nat, pingsDone: nat, goodPings: nat,
                         refused: nat, callbacks: nat, reported: Option<int>)

  const IDLE := State(map[], [], Nothing, false, {}, {}, {}, 0, 0, 0, 0, 0, None)

  /** What the eviction reads: the limit of the change table, the pingable members, and the configuration. */
  datatype View = View(maxPiggybackCount: nat, pingable: nat, ratio: real, pingEnabled: bool)

  datatype Event =
    | Register(hooks: Option<Hook>)
    | Initiate(now: int)
    | StartHook(name: string)
    | HookDone(name: string)
    | PingDone(target: nat, ok: bool)
    | Tick(now: int, view: View)

  function PhaseAt(i: nat): PhaseName {
    if i == 0 then PreEvict else if i == 1 then Evicting else if i == 2 then PostEvict else Done
  }

  function Of(h: Hook, kind: Kind): Given {
    if kind.Pre? then h.preEvict else h.postEvict
  }

  predicate Has(h: Hook, kind: Kind) {
    Of(h, kind) != Absent
  }

  function Names(hooks: map<string, Hook>, kind: Kind): set<string> {
    set n | n in hooks && Has(hooks[n], kind)
  }

  function Runs(names: set<string>, kind: Kind): set<HookRun> {
    set n | n in names :: HookRun(kind, n)
  }

  function Targets(n: nat): (targets: set<nat>)
    ensures |targets| == n
    ensures forall i: nat :: i in targets <==> i < n
  {
    if n == 0 then {} else Targets(n - 1) + {n - 1}
  }

  predicate New(hooks: map<string, Hook>, h: Hook) {
    h.name != "" && h.name !in hooks
  }

  /** Hooks under a new name, with a function for at least one kind and nothing else for the other. */
  predicate Acceptable(hooks: map<string, Hook>, h: Hook) {
    && New(hooks, h)
    && (h.preEvict.Callable? || h.postEvict.Callable?)
    && !h.preEvict.NotCallable? && !h.postEvict.NotCallable?
  }

  /** Ends the current phase and pushes the next. */
  function Pushed(phases: seq<Phase>, name: PhaseName, now: int): seq<Phase> {
    (if phases == [] then []
     else
       var last := phases[|phases| - 1];
       phases[|phases| - 1 := last.(duration := Some(now - last.ts))])
    + [Phase(name, now, None, 0, 0)]
  }

  function RunHooks(s: State, kind: Kind): State {
    var names := Names(s.hooks, kind);
    if names == {} then s.(wait := Ticks(1))
    else s.(wait := Hooks(kind, names, {}, |names|), required := s.required + Runs(names, kind))
  }

  /** The smallest integer not below x. */
  function Ceil(x: real): int {
    -((-x).Floor)
  }

  function Share(pingable: nat, ratio: real): real {
    pingable as real * ratio
  }

  function NumberOfPings(v: View): int {
    Min(Min(v.maxPiggybackCount, Ceil(Share(v.pingable, v.ratio))), v.pingable)
  }

  /** The length of `slice(0, end)`, where a negative end counts from the back. */
  function SliceLength(length: nat, end: int): nat {
    if end < 0 then (if length + end < 0 then 0 else length + end) else Min(end, length)
  }

  function MembersToPing(v: View): nat {
    SliceLength(v.pingable, NumberOfPings(v))
  }

  function Evict(s: State, now: int, view: View): State {
    var pushed, members := Pushed(s.phases, Evicting, now), MembersToPing(view);
    var t := s.(phases := pushed[|pushed| - 1 := pushed[|pushed| - 1].(numberOfPings := members)], faulty := true);
    if view.pingEnabled && members > 0 then t.(wait := Pings(Targets(members), members), pingsSent := members)
    else t.(wait := Ticks(1))
  }

  function Finish(s: State, now: int): State {
    var phases := Pushed(s.phases, Done, now);
    s.(phases := phases, wait := Nothing, callbacks := s.callbacks + 1,
       reported := Some(phases[|phases| - 1].ts - phases[0].ts))
  }

  /** The tick after the last one begins the next phase. */
  function Advance(s: State, now: int, view: View): State {
    match |s.phases|
    case 1 => Evict(s, now, view)
    case 2 => RunHooks(s.(phases := Pushed(s.phases, PostEvict, now)), Post)
    case 3 => Finish(s, now)
    case _ => s
  }

  predicate Enabled(s: State, e: Event) {
    match e
    case Register(_) => true
    case Initiate(_) => true
    case StartHook(name) => s.wait.Hooks? && name in s.wait.toStart
    case HookDone(name) => s.wait.Hooks? && name in s.wait.running
    case PingDone(target, _) => s.wait.Pings? && target in s.wait.awaited && s.phases != []
    case Tick(_, _) => s.wait.Ticks?
  }

  function OnHookDone(s: State, name: string): State
    requires s.wait.Hooks? && name in s.wait.running
  {
    s.(finished := s.finished + {HookRun(s.wait.kind, name)},
       wait := if s.wait.left <= 1 then Ticks(2)
               else s.wait.(running := s.wait.running - {name}, left := s.wait.left - 1))
  }

  function OnPingDone(s: State, target: nat, ok: bool): State
    requires s.wait.Pings? && target in s.wait.awaited && s.phases != []
  {
    var last := s.phases[|s.phases| - 1];
    var good := last.numberOfSuccessfulPings + if ok then 1 else 0;
    s.(phases := s.phases[|s.phases| - 1 := last.(numberOfSuccessfulPings := good)],
       pingsDone := s.pingsDone + 1, goodPings := s.goodPings + (if ok then 1 else 0),
       wait := if s.wait.left <= 1 then Ticks(1)
               else s.wait.(awaited := s.wait.awaited - {target}, left := s.wait.left - 1))
  }

  function Step(s: State, e: Event): State {
    if !Enabled(s, e) then s
    else
    match e
    case Register(h) =>
      if h.Some? && Acceptable(s.hooks, h.value) then s.(hooks := s.hooks[h.value.name := h.value]) else s
    case Initiate(now) =>
      if s.phases != [] then s.(refused := s.refused + 1)
      else RunHooks(s.(phases := Pushed([], PreEvict, now)), Pre)
    case StartHook(name) =>
      s.(started := s.started + {HookRun(s.wait.kind, name)},
         wait := s.wait.(toStart := s.wait.toStart - {name}, running := s.wait.running + {name}))
    case HookDone(name) => OnHookDone(s, name)
    case PingDone(target, ok) => OnPingDone(s, target, ok)
    case Tick(now, view) =>
      if s.wait.ticks > 1 then s.(wait := Ticks(s.wait.ticks - 1)) else Advance(s, now, view)
  }

  function Run(es: seq<Event>): State {
    if es == [] then IDLE else Step(Run(es[..|es| - 1]), es[|es| - 1])
  }

  // -------- the phases --------

  /** The history is a prefix of the four phases; each but the last took until the next began. */
  predicate PhasesInv(phases: seq<Phase>) {
    && |phases| <= 4
    && (forall i :: 0 <= i < |phases| ==> phases[i].name == PhaseAt(i))
    && (forall i :: 0 <= i < |phases| - 1 ==> phases[i].duration == Some(phases[i + 1].ts - phases[i].ts))
    && (phases != [] ==> phases[|phases| - 1].duration == None)
  }

  lemma PushedKeepsPhases(phases: seq<Phase>, now: int)
    requires PhasesInv(phases) && |phases| < 4
    ensures PhasesInv(Pushed(phases, PhaseAt(|phases|), now))
            && |Pushed(phases, PhaseAt(|phases|), now)| == |phases| + 1
    ensures forall i :: 0 <= i < |phases| ==>
              Pushed(phases, PhaseAt(|phases|), now)[i].(duration := None) == phases[i].(duration := None)
  {
  }

  function SumDurations(phases: seq<Phase>): int {
    if phases == [] then 0
    else
      var last := phases[|phases| - 1];
      SumDurations(phases[..|phases| - 1]) + (if last.duration.Some? then last.duration.value else 0)
  }

  lemma {:induction false} SumToLast(phases: seq<Phase>, n: nat)
    requires PhasesInv(phases) && n < |phases|
    ensures SumDurations(phases[..n]) == phases[n].ts - phases[0].ts
  {
    if n > 0 {
      SumToLast(phases, n - 1);
      assert phases[..n][..n - 1] == phases[..n - 1];
    }
  }

  /** The durations of all the phases add up to the time from the first to the last. */
  lemma DurationsAddUp(phases: seq<Phase>)
    requires PhasesInv(phases) && phases != []
    ensures SumDurations(phases) == phases[|phases| - 1].ts - phases[0].ts
  {
    SumToLast(phases, |phases| - 1);
  }

  // -------- the barriers --------

  ghost predicate AllFinished(s: State, kind: Kind) {
    forall n :: HookRun(kind, n) in s.required ==> HookRun(kind, n) in s.finished
  }

  /** The barrier of a kind of hooks: the countdown is how many are not finished, and these are to be started or
      running. */
  ghost predicate Barrier(s: State) {
    s.wait.Hooks? ==>
      && s.wait.toStart !! s.wait.running && s.wait.left == |s.wait.toStart| + |s.wait.running| && s.wait.left > 0
      && (forall n :: HookRun(s.wait.kind, n) in s.required ==>
            n in s.wait.toStart || n in s.wait.running || HookRun(s.wait.kind, n) in s.finished)
      && (forall n :: n in s.wait.toStart || n in s.wait.running ==> HookRun(s.wait.kind, n) in s.required)
      && (forall n :: n in s.wait.running ==> HookRun(s.wait.kind, n) in s.started)
  }

  ghost predicate HooksInv(s: State) {
    && Barrier(s)
    && s.finished <= s.started <= s.required
    && (!(s.wait.Hooks? && s.wait.kind.Pre?) ==> AllFinished(s, Pre))
    && (!(s.wait.Hooks? && s.wait.kind.Post?) ==> AllFinished(s, Post))
    && (|s.phases| < 1 ==> s.required == {})
    && (|s.phases| < 3 ==> forall n :: HookRun(Post, n) !in s.required)
  }

  predicate PingsInv(s: State) {
    && (if s.wait.Pings? then s.wait.left == |s.wait.awaited| > 0 && s.pingsDone + s.wait.left == s.pingsSent
        else s.pingsDone == s.pingsSent)
    && (|s.phases| < 2 ==> s.pingsSent == 0)
    && (|s.phases| >= 2 ==> s.phases[1].numberOfSuccessfulPings == s.goodPings)
    && s.goodPings <= s.pingsDone
    && (|s.phases| >= 2 ==> s.pingsSent <= s.phases[1].numberOfPings)
    && (|s.phases| < 2 ==> s.goodPings == 0)
  }

  /** What is waited for belongs to the current phase. */
  predicate WaitInv(s: State) {
    && (s.wait.Nothing? <==> |s.phases| == 0 || |s.phases| == 4)
    && (s.wait.Hooks? ==> |s.phases| == (if s.wait.kind.Pre? then 1 else 3))
    && (s.wait.Pings? ==> |s.phases| == 2)
    && (s.wait.Ticks? ==> s.wait.ticks > 0)
    && (s.faulty <==> |s.phases| >= 2)
    && s.callbacks == (if |s.phases| == 4 then 1 else 0)
    && s.reported == (if |s.phases| == 4 then Some(s.phases[3].ts - s.phases[0].ts) else None)
  }

  ghost predicate Inv(s: State) {
    PhasesInv(s.phases) && WaitInv(s) && HooksInv(s) && PingsInv(s)
  }

  lemma RunHooksKeepsInv(s: State, kind: Kind)
    requires PhasesInv(s.phases) && PingsInv(s.(wait := Nothing)) && |s.phases| == (if kind.Pre? then 1 else 3)
    requires s.finished <= s.started <= s.required && AllFinished(s, Pre) && forall n :: HookRun(kind, n) !in s.required
    requires kind.Pre? ==> s.required == {}
    requires (s.faulty <==> kind.Post?) && s.callbacks == 0 && s.reported == None
    ensures Inv(RunHooks(s, kind))
  {
    var t, names := RunHooks(s, kind), Names(s.hooks, kind);
    assert forall n :: HookRun(kind, n) in Runs(names, kind) <==> n in names;
    if names != {} {
      assert |names| > 0;
    }
  }

  lemma EvictKeepsInv(s: State, now: int, view: View)
    requires Inv(s) && s.wait.Ticks? && |s.phases| == 1
    ensures Inv(Evict(s, now, view))
  {
    PushedKeepsPhases(s.phases, now);
  }

  lemma PostEvictKeepsInv(s: State, now: int)
    requires Inv(s) && s.wait.Ticks? && |s.phases| == 2
    ensures Inv(RunHooks(s.(phases := Pushed(s.phases, PostEvict, now)), Post))
  {
    PushedKeepsPhases(s.phases, now);
    var t := s.(phases := Pushed(s.phases, PostEvict, now));
    assert t.phases[1].numberOfSuccessfulPings == s.phases[1].numberOfSuccessfulPings;
    assert t.phases[1].numberOfPings == s.phases[1].numberOfPings;
    RunHooksKeepsInv(t, Post);
  }

  lemma FinishKeepsInv(s: State, now: int)
    requires Inv(s) && s.wait.Ticks? && |s.phases| == 3
    ensures Inv(Finish(s, now))
  {
    PushedKeepsPhases(s.phases, now);
    var t := Finish(s, now);
    assert t.phases[1].numberOfSuccessfulPings == s.phases[1].numberOfSuccessfulPings;
    assert t.phases[1].numberOfPings == s.phases[1].numberOfPings;
  }

  lemma StartHookKeepsInv(s: State, name: string)
    requires Inv(s) && Enabled(s, StartHook(name))
    ensures Inv(Step(s, StartHook(name)))
  {
    var t := Step(s, StartHook(name));
    assert |t.wait.toStart| == |s.wait.toStart| - 1 && |t.wait.running| == |s.wait.running| + 1;
  }

  lemma HookDoneKeepsInv(s: State, name: string)
    requires Inv(s) && Enabled(s, HookDone(name))
    ensures Inv(OnHookDone(s, name))
  {
    var t := OnHookDone(s, name);
    assert |s.wait.running - {name}| == |s.wait.running| - 1;
    if s.wait.left <= 1 {
      LastOne(s.wait.toStart, s.wait.running, name);
    }
  }

  lemma LastOne(toStart: set<string>, running: set<string>, name: string)
    requires name in running && |toStart| + |running| <= 1
    ensures toStart == {} && running == {name}
  {
    SubsetSize({name}, running);
    assert |running - {name}| == 0;
  }

  lemma PingDoneKeepsInv(s: State, target: nat, ok: bool)
    requires Inv(s) && Enabled(s, PingDone(target, ok))
    ensures Inv(OnPingDone(s, target, ok))
  {
    assert |s.wait.awaited - {target}| == |s.wait.awaited| - 1;
  }

  lemma StepKeepsInv(s: State, e: Event)
    requires Inv(s)
    ensures Inv(Step(s, e))
  {
    if Enabled(s, e) {
      match e
      case Register(_) =>
      case Initiate(now) =>
        if s.phases == [] {
          PushedKeepsPhases([], now);
          RunHooksKeepsInv(s.(phases := Pushed([], PreEvict, now)), Pre);
        }
      case StartHook(name) => StartHookKeepsInv(s, name);
      case HookDone(name) => HookDoneKeepsInv(s, name);
      case PingDone(target, ok) => PingDoneKeepsInv(s, target, ok);
      case Tick(now, view) =>
        if s.wait.ticks <= 1 {
          match |s.phases|
          case 1 => EvictKeepsInv(s, now, view);
          case 2 => PostEvictKeepsInv(s, now);
          case _ => FinishKeepsInv(s, now);
        }
    }
  }

  lemma {:induction false} RunKeepsInv(es: seq<Event>)
    ensures Inv(Run(es))
  {
    if es != [] {
      RunKeepsInv(es[..|es| - 1]);
      StepKeepsInv(Run(es[..|es| - 1]), es[|es| - 1]);
    }
  }

  // -------- the properties of every run --------

  function PhaseNames(phases: seq<Phase>): seq<PhaseName> {
    seq(|phases|, i requires 0 <= i < |phases| => phases[i].name)
  }

  /** The phase history of every run is a prefix of the four phases. */
  lemma HistoryIsPrefix(es: seq<Event>)
    ensures PhaseNames(Run(es).phases) <= [PreEvict, Evicting, PostEvict, Done]
  {
    RunKeepsInv(es);
  }

  /** No post hook starts before every pre hook has finished, this node was marked faulty, and every ping was answered;
      the node is marked faulty only after every pre hook has finished; and the sequence is done only after every post
      hook has finished, too. */
  lemma BarriersHold(es: seq<Event>)
    ensures var s := Run(es);
            && (forall n :: HookRun(Post, n) in s.started ==>
                AllFinished(s, Pre) && s.faulty && s.pingsDone == s.pingsSent)
            && (s.faulty ==> AllFinished(s, Pre))
            && (s.callbacks > 0 ==> AllFinished(s, Pre) && AllFinished(s, Post) && s.pingsDone == s.pingsSent)
  {
    RunKeepsInv(es);
  }

  /** The callback is called exactly when the sequence is done, once, and the reported total is the sum of the durations
      of the phases; the evicting phase counts the successful pings. */
  lemma DoneReportsTheSum(es: seq<Event>)
    ensures var s := Run(es);
            && s.callbacks == (if |s.phases| == 4 then 1 else 0)
            && (s.callbacks > 0 ==>
                  && s.reported == Some(SumDurations(s.phases))
                  && s.phases[1].numberOfSuccessfulPings == s.goodPings <= s.phases[1].numberOfPings)
  {
    RunKeepsInv(es);
    if |Run(es).phases| == 4 {
      DurationsAddUp(Run(es).phases);
    }
  }

  /** Once begun, initiating again only reports an error. */
  lemma SecondInitiateChangesNothing(es: seq<Event>, more: seq<Event>, now: int)
    requires Run(es).phases != []
    ensures Run(es + [Initiate(now)] + more).(refused := 0) == Run(es + more).(refused := 0)
  {
    WithoutRefusal(es, more, now);
  }

  lemma RunSnoc(es: seq<Event>, e: Event)
    ensures Run(es + [e]) == Step(Run(es), e)
  {
    assert (es + [e])[..|es|] == es;
  }

  function Refused(s: State): State {
    s.(refused := s.refused + 1)
  }

  lemma {:induction false} WithoutRefusal(es: seq<Event>, more: seq<Event>, now: int)
    requires Run(es).phases != []
    ensures Run(es + [Initiate(now)] + more) == Refused(Run(es + more)) && Run(es + more).phases != []
  {
    if more == [] {
      RunSnoc(es, Initiate(now));
      assert es + [Initiate(now)] + more == es + [Initiate(now)] && es + more == es;
    } else {
      var init, last := more[..|more| - 1], more[|more| - 1];
      WithoutRefusal(es, init, now);
      RunSnoc(es + [Initiate(now)] + init, last);
      RunSnoc(es + init, last);
      assert es + [Initiate(now)] + more == es + [Initiate(now)] + init + [last] && es + more == es + init + [last];
      RefusedDoesNotMatter(Run(es + init), last);
    }
  }

  lemma AdvanceRefused(s: State, now: int, view: View)
    requires s.phases != []
    ensures Advance(Refused(s), now, view) == Refused(Advance(s, now, view))
    ensures Advance(s, now, view).phases != []
  {
  }

  lemma RefusedDoesNotMatter(s: State, e: Event)
    requires s.phases != []
    ensures Step(Refused(s), e) == Refused(Step(s, e)) && Step(s, e).phases != []
  {
    if e.Tick? {
      AdvanceRefused(s, e.now, e.view);
    }
  }

  // -------- which hooks run in which phase --------

  /** The hooks registered under a name: the first that name something new and give functions, at least one, and nothing
      else. */
  function RegisteredAs(es: seq<Event>, name: string): Option<Hook> {
    if es == [] then None
    else
      var before := RegisteredAs(es[..|es| - 1], name);
      match es[|es| - 1]
      case Register(given) =>
        if before.None? && name != "" && given.Some? && given.value.name == name
           && (given.value.preEvict.Callable? || given.value.postEvict.Callable?)
           && !given.value.preEvict.NotCallable? && !given.value.postEvict.NotCallable?
        then given else before
      case _ => before
  }

  lemma StepRegisters(s: State, e: Event)
    ensures !e.Register? ==> Step(s, e).hooks == s.hooks
  {
  }

  lemma {:induction false} HooksAreRegistered(es: seq<Event>, name: string)
    ensures RegisteredAs(es, name) == if name in Run(es).hooks then Some(Run(es).hooks[name]) else None
    ensures name in Run(es).hooks ==> Run(es).hooks[name].name == name
  {
    if es != [] {
      HooksAreRegistered(es[..|es| - 1], name);
      StepRegisters(Run(es[..|es| - 1]), es[|es| - 1]);
    }
  }

  /** The run's k-th event begins the given number of phases. */
  predicate BeginsPhase(es: seq<Event>, k: nat, phases: nat) {
    k < |es| && |Run(es[..k]).phases| == phases - 1 && |Run(es[..k + 1]).phases| == phases
  }

  lemma RunHooksRequires(s: State, kind: Kind, name: string)
    ensures HookRun(Pre, name) in RunHooks(s, kind).required <==>
            HookRun(Pre, name) in s.required || (kind.Pre? && name in s.hooks && s.hooks[name].preEvict != Absent)
    ensures HookRun(Post, name) in RunHooks(s, kind).required <==>
            HookRun(Post, name) in s.required || (kind.Post? && name in s.hooks && s.hooks[name].postEvict != Absent)
  {
    assert HookRun(kind, name) in Runs(Names(s.hooks, kind), kind) <==> name in Names(s.hooks, kind);
    assert name in Names(s.hooks, kind) ==> Names(s.hooks, kind) != {};
  }

  /** What an event adds to the hooks required: those with a function for the phase that it begins. */
  lemma StepRequires(s: State, e: Event, name: string)
    requires Inv(s)
    ensures var t := Step(s, e);
            && |s.phases| <= |t.phases| <= |s.phases| + 1
            && (HookRun(Pre, name) in t.required <==>
                  HookRun(Pre, name) in s.required ||
                  (|s.phases| == 0 && |t.phases| == 1 && name in s.hooks && s.hooks[name].preEvict != Absent))
            && (HookRun(Post, name) in t.required <==>
                  HookRun(Post, name) in s.required ||
                  (|s.phases| == 2 && |t.phases| == 3 && name in s.hooks && s.hooks[name].postEvict != Absent))
  {
    if e.Initiate? {
      RunHooksRequires(s.(phases := Pushed([], PreEvict, e.now)), Pre, name);
    } else if e.Tick? {
      RunHooksRequires(s.(phases := Pushed(s.phases, PostEvict, e.now)), Post, name);
    }
  }

  lemma OneMore(es: seq<Event>, name: string)
    requires es != []
    ensures var s, t := Run(es[..|es| - 1]), Run(es);
            && |s.phases| <= |t.phases| <= |s.phases| + 1
            && (HookRun(Pre, name) in t.required <==>
                  HookRun(Pre, name) in s.required ||
                  (|s.phases| == 0 && |t.phases| == 1 && name in s.hooks && s.hooks[name].preEvict != Absent))
            && (HookRun(Post, name) in t.required <==>
                  HookRun(Post, name) in s.required ||
                  (|s.phases| == 2 && |t.phases| == 3 && name in s.hooks && s.hooks[name].postEvict != Absent))
  {
    RunKeepsInv(es[..|es| - 1]);
    StepRequires(Run(es[..|es| - 1]), es[|es| - 1], name);
  }

  /** Before a phase with hooks begins, none of its hooks is required. */
  lemma NotRequiredBefore(es: seq<Event>, name: string)
    ensures |Run(es).phases| < 1 ==> HookRun(Pre, name) !in Run(es).required
    ensures |Run(es).phases| < 3 ==> HookRun(Post, name) !in Run(es).required
  {
    RunKeepsInv(es);
  }

  lemma {:induction false} PhasesOnlyGrow(es: seq<Event>, k: nat)
    requires k <= |es|
    ensures |Run(es).phases| >= |Run(es[..k]).phases|
    decreases |es|
  {
    if k == |es| {
      assert es[..k] == es;
    } else {
      assert es[..|es| - 1][..k] == es[..k];
      PhasesOnlyGrow(es[..|es| - 1], k);
      OneMore(es, "");
    }
  }

  lemma {:induction false} RequiredSince(es: seq<Event>, k: nat, name: string)
    requires k < |es|
    ensures BeginsPhase(es, k, 1) ==>
              (HookRun(Pre, name) in Run(es).required <==> HookRun(Pre, name) in Run(es[..k + 1]).required)
    ensures BeginsPhase(es, k, 3) ==>
              (HookRun(Post, name) in Run(es).required <==> HookRun(Post, name) in Run(es[..k + 1]).required)
    decreases |es|
  {
    if k + 1 == |es| {
      assert es[..k + 1] == es;
    } else {
      var before := es[..|es| - 1];
      assert before[..k] == es[..k] && before[..k + 1] == es[..k + 1];
      RequiredSince(before, k, name);
      PhasesOnlyGrow(before, k + 1);
      OneMore(es, name);
    }
  }

  /** On every run: the hooks required before the eviction are exactly those that, when the sequence began, were
      registered with a function `preEvict`, and the ones after it exactly those that, when that phase began, were
      registered with a function `postEvict`. */
  lemma HooksRunInTheirPhase(es: seq<Event>, k: nat, name: string)
    requires k < |es|
    ensures BeginsPhase(es, k, 1) ==>
              (HookRun(Pre, name) in Run(es).required <==>
                 RegisteredAs(es[..k], name).Some? && RegisteredAs(es[..k], name).value.preEvict == Callable)
    ensures BeginsPhase(es, k, 3) ==>
              (HookRun(Post, name) in Run(es).required <==>
                 RegisteredAs(es[..k], name).Some? && RegisteredAs(es[..k], name).value.postEvict == Callable)
  {
    var begun := es[..k + 1];
    assert begun[..k] == es[..k];
    RequiredSince(es, k, name);
    OneMore(begun, name);
    NotRequiredBefore(es[..k], name);
    HooksAreRegistered(es[..k], name);
    GivenAreFunctions(es[..k], name);
  }

  lemma {:induction false} GivenAreFunctions(es: seq<Event>, name: string)
    ensures var h := RegisteredAs(es, name);
            h.Some? ==> !h.value.preEvict.NotCallable? && !h.value.postEvict.NotCallable?
  {
    if es != [] {
      GivenAreFunctions(es[..|es| - 1], name);
    }
  }

  // -------- progress --------

  predicate Begun(s: State) {
    s.phases != [] && |s.phases| < 4
  }

  predicate Answer(e: Event) {
    !e.Register? && !e.Initiate?
  }

  /** How much is left of the current phase. */
  function Rank(w: Wait): nat {
    match w
    case Nothing => 0
    case Ticks(ticks) => ticks
    case Hooks(_, toStart, running, left) => 2 + |toStart| + left
    case Pings(_, left) => 1 + left
  }

  /** A sequence that has begun and is not done always waits for something that can happen next. */
  lemma NeverStuck(es: seq<Event>) returns (e: Event)
    requires Begun(Run(es))
    ensures Answer(e) && Enabled(Run(es), e)
  {
    RunKeepsInv(es);
    var s := Run(es);
    if s.wait.Hooks? {
      if name :| name in s.wait.toStart {
        e := StartHook(name);
      } else {
        assert s.wait.toStart == {} && s.wait.running != {};
        var name :| name in s.wait.running;
        e := HookDone(name);
      }
    } else if s.wait.Pings? {
      assert s.wait.awaited != {};
      var target :| target in s.wait.awaited;
      e := PingDone(target, true);
    } else {
      e := Tick(0, View(0, 0, 0.0, false));
    }
  }

  /** And whatever happens next either begins the next phase or leaves less to wait for in this one, so that the
      sequence ends after finitely many answers. */
  lemma EveryAnswerMakesProgress(es: seq<Event>, e: Event)
    requires Begun(Run(es)) && Answer(e) && Enabled(Run(es), e)
    ensures var s, t := Run(es), Step(Run(es), e);
            |t.phases| == |s.phases| + 1 || (|t.phases| == |s.phases| && Rank(t.wait) < Rank(s.wait))
  {
    RunKeepsInv(es);
    var s := Run(es);
    if e.StartHook? {
      assert |s.wait.toStart - {e.name}| == |s.wait.toStart| - 1;
    }
  }

  // -------- how many ticks a phase waits --------

  /** After the last hook the next phase begins on the second tick, and after the last ping on the first. */
  lemma TicksUntilNextPhase(es: seq<Event>, e: Event, now: int, view: View, later: int, view': View)
    requires Begun(Run(es)) && Enabled(Run(es), e) && !e.Tick? && Step(Run(es), e).wait.Ticks? && Answer(e)
    ensures var s := Step(Run(es), e); var t := Step(s, Tick(now, view));
            && |s.phases| == |Run(es).phases|
            && (e.HookDone? ==> |t.phases| == |s.phases| && |Step(t, Tick(later, view')).phases| == |s.phases| + 1)
            && (e.PingDone? ==> |t.phases| == |s.phases| + 1)
  {
    RunKeepsInv(es);
  }

  /** A phase without hooks, or without pings, goes on with the next tick. */
  lemma EmptyPhaseGoesOn(es: seq<Event>, e: Event, now: int, view: View)
    requires |Step(Run(es), e).phases| == |Run(es).phases| + 1 && Step(Run(es), e).wait.Ticks?
    ensures |Step(Step(Run(es), e), Tick(now, view)).phases| == |Run(es).phases| + 2
  {
    RunKeepsInv(es);
  }

  // -------- the members to ping --------

  lemma CeilBounds(x: real)
    ensures x <= Ceil(x) as real < x + 1.0
  {
  }

  lemma ShareSign(n: nat, ratio: real)
    ensures n == 0 ==> Share(n, ratio) == 0.0
    ensures ratio >= 0.0 ==> Share(n, ratio) >= 0.0 && (Share(n, ratio) > 0.0 <==> n > 0 && ratio > 0.0)
    ensures ratio < 0.0 ==> Share(n, ratio) <= 0.0 && (Share(n, ratio) > -(n as real) <==> n > 0 && ratio > -1.0)
  {
    Positive(n as real, if ratio >= 0.0 then ratio else -ratio);
    Positive(n as real, if ratio >= -1.0 then ratio + 1.0 else -1.0 - ratio);
  }

  lemma Positive(x: real, y: real)
    requires x >= 0.0 && y >= 0.0
    ensures x * y >= 0.0 && (x * y > 0.0 <==> x > 0.0 && y > 0.0)
  {
  }

  /** Whether a view leaves somebody to ping: with a ratio that is not negative, when limit, ratio and members are all
      positive; a negative one above -1 counts from the back, whatever the limit is. */
  predicate LeavesSomebody(v: View) {
    if v.ratio >= 0.0 then v.maxPiggybackCount > 0 && v.pingable > 0 && v.ratio > 0.0
    else v.ratio > -1.0 && Share(v.pingable, v.ratio) <= -1.0
  }

  /** The pings are never more than the pingable members, and with a ratio that is not negative never more than the
      limit or than the ratio allows. */
  lemma SomebodyIsPingedIff(v: View)
    ensures MembersToPing(v) > 0 <==> LeavesSomebody(v)
    ensures MembersToPing(v) <= v.pingable
    ensures v.ratio >= 0.0 ==> MembersToPing(v) <= v.maxPiggybackCount
                               && MembersToPing(v) as real < Share(v.pingable, v.ratio) + 1.0
  {
    ShareSign(v.pingable, v.ratio);
    SliceOfShare(v.maxPiggybackCount, v.pingable, v.ratio, Share(v.pingable, v.ratio));
  }

  /** Whether the pings keep to the limit of the change table: a ratio that is not negative always does, and so does a
      negative share that rounds up to nobody; any other counts from the back and keeps to it only by chance. */
  predicate KeepsToLimit(v: View) {
    || v.ratio >= 0.0
    || Share(v.pingable, v.ratio) > -1.0
    || v.pingable + Ceil(Share(v.pingable, v.ratio)) <= v.maxPiggybackCount
  }

  lemma PingsKeepToLimitIff(v: View)
    ensures MembersToPing(v) <= v.maxPiggybackCount <==> KeepsToLimit(v)
  {
    var share := Share(v.pingable, v.ratio);
    ShareSign(v.pingable, v.ratio);
    CeilBounds(share);
    if v.ratio >= 0.0 {
      SliceFromFront(v.maxPiggybackCount, v.pingable, share, Ceil(share));
    } else {
      SliceFromBack(v.maxPiggybackCount, v.pingable, share, Ceil(share));
    }
  }

  lemma SliceOfShare(limit: nat, n: nat, ratio: real, share: real)
    requires n == 0 ==> share == 0.0
    requires ratio >= 0.0 ==> share >= 0.0 && (share > 0.0 <==> n > 0 && ratio > 0.0)
    requires ratio < 0.0 ==> share <= 0.0 && (share > -(n as real) <==> n > 0 && ratio > -1.0)
    ensures var pings := SliceLength(n, Min(Min(limit, Ceil(share)), n));
            && pings <= n
            && (ratio >= 0.0 ==> (pings > 0 <==> limit > 0 && n > 0 && ratio > 0.0))
            && (ratio >= 0.0 ==> pings <= limit && pings as real < share + 1.0)
            && (ratio < 0.0 ==> (pings > 0 <==> ratio > -1.0 && share <= -1.0))
  {
    CeilBounds(share);
    if ratio >= 0.0 {
      SliceFromFront(limit, n, share, Ceil(share));
    } else {
      SliceFromBack(limit, n, share, Ceil(share));
    }
  }

  lemma SliceFromFront(limit: nat, n: nat, share: real, count: int)
    requires 0.0 <= share <= count as real < share + 1.0
    ensures SliceLength(n, Min(Min(limit, count), n)) == Min(Min(limit, count), n)
    ensures Min(Min(limit, count), n) > 0 <==> limit > 0 && n > 0 && share > 0.0
  {
  }

  lemma SliceFromBack(limit: nat, n: nat, share: real, count: int)
    requires share <= 0.0 && share <= count as real < share + 1.0
    ensures SliceLength(n, Min(Min(limit, count), n)) > 0 <==> share <= -1.0 && share > -(n as real)
    ensures SliceLength(n, Min(Min(limit, count), n)) <= n
    ensures SliceLength(n, Min(Min(limit, count), n)) <= limit <==> share > -1.0 || n + count <= limit
  {
    assert count <= 0 && (count < 0 <==> share <= -1.0);
    assert n + count > 0 <==> share > -(n as real);
  }

  /** The run's k-th event is the tick that begins the eviction. */
  predicate EvictsAt(es: seq<Event>, k: nat) {
    k < |es| && es[k].Tick? && Run(es[..k]).wait == Ticks(1) && |Run(es[..k]).phases| == 1
  }

  lemma EvictionPings(s: State, e: Event)
    requires Inv(s) && s.wait == Ticks(1) && |s.phases| == 1 && e.Tick?
    ensures var t, members := Step(s, e), MembersToPing(e.view);
            && |t.phases| == 2 && t.phases[1].numberOfPings == members
            && t.pingsSent == if e.view.pingEnabled then members else 0
  {
  }

  lemma StepKeepsPings(s: State, e: Event)
    requires Inv(s) && |s.phases| >= 2
    ensures var t := Step(s, e);
            && |t.phases| >= 2 && t.pingsSent == s.pingsSent
            && t.phases[1].numberOfPings == s.phases[1].numberOfPings
  {
  }

  lemma {:induction false} PingsStay(es: seq<Event>, k: nat)
    requires EvictsAt(es, k)
    ensures var s, v := Run(es), es[k].view;
            && |s.phases| >= 2 && s.phases[1].numberOfPings == MembersToPing(v)
            && s.pingsSent == (if v.pingEnabled then MembersToPing(v) else 0)
    decreases |es|
  {
    var before := es[..|es| - 1];
    RunKeepsInv(before);
    if k == |before| {
      assert before == es[..k];
      EvictionPings(Run(before), es[k]);
    } else {
      assert before[..k] == es[..k];
      PingsStay(before, k);
      StepKeepsPings(Run(before), es[|before|]);
    }
  }

  /** From the eviction on, the evicting phase reports how many members were to be pinged, and they were pinged if pings
      are enabled; so somebody is pinged exactly if they are and the view leaves somebody, and the limit of the change
      table is kept exactly if they are not or the view keeps to it. */
  lemma PingsAreAsConfigured(es: seq<Event>, k: nat)
    requires EvictsAt(es, k)
    ensures var s, v := Run(es), es[k].view;
            && |s.phases| >= 2 && s.phases[1].numberOfPings == MembersToPing(v)
            && s.pingsSent == (if v.pingEnabled then MembersToPing(v) else 0)
            && (s.pingsSent > 0 <==> v.pingEnabled && LeavesSomebody(v))
            && (s.pingsSent <= v.maxPiggybackCount <==> !v.pingEnabled || KeepsToLimit(v))
  {
    PingsStay(es, k);
    SomebodyIsPingedIff(es[k].view);
    PingsKeepToLimitIff(es[k].view);
  }

  /** The run that breaks it: with a limit of one, five of ten pingable members are pinged. */
  lemma NegativeRatioPingsPastTheLimit()
    ensures var v := View(1, 10, -0.5, true); var es := [Initiate(0)] + [Tick(0, v)];
            MembersToPing(v) == 5 && Run(es).pingsSent == 5 && !KeepsToLimit(v)
  {
    var v := View(1, 10, -0.5, true);
    assert [] + [Initiate(0)] == [Initiate(0)];
    RunSnoc([], Initiate(0));
    RunSnoc([Initiate(0)], Tick(0, v));
    assert Names(map[], Pre) == {};
    assert Share(10, -0.5) == -5.0;
    var s := Run([Initiate(0)]);
    assert s.wait == Ticks(1) && |s.phases| == 1;
  }

  // -------- the class --------


  datatype RegisterError = ArgumentRequired | FieldRequired | DuplicateHook | MethodRequired | InvalidOption(kind: Kind)

  class SelfEvict {
    var hooks: map<string, Hook>
    var phases: seq<Phase>
    // what the callbacks and ticks of the current phase share
    var wait: Wait
    // effects and history
    var faulty: bool
    ghost var required: set<HookRun>
    ghost var started: set<HookRun>
    ghost var finished: set<HookRun>
    ghost var pingsSent: nat
    ghost var pingsDone: nat
    ghost var goodPings: nat
    ghost var refused: nat
    ghost var callbacks: nat
    ghost var reported: Option<int>

    ghost function Abstract(): State
      reads this
    {
      State(hooks, phases, wait, faulty, required, started, finished,
            pingsSent, pingsDone, goodPings, refused, callbacks, reported)
    }

    constructor ()
      ensures Abstract() == IDLE
    {
      hooks, phases, wait, faulty := map[], [], Nothing, false;
      required, started, finished := {}, {}, {};
      pingsSent, pingsDone, goodPings, refused, callbacks, reported := 0, 0, 0, 0, 0, None;
    }

    method CurrentPhase() returns (phase: Option<Phase>)
      ensures phase == if phases == [] then None else Some(phases[|phases| - 1])
    {
      if |phases| > 0 {
        return Some(phases[|phases| - 1]);
      }
      return None;
    }

    /** Adds hooks under a new name, or reports the first thing that is wrong with them. */
    method RegisterHooks(given: Option<Hook>) returns (error: Option<RegisterError>)
      modifies `hooks
      ensures Abstract() == Step(old(Abstract()), Register(given))
      ensures error.None? <==> given.Some? && Acceptable(old(hooks), given.value)
      ensures error == Some(ArgumentRequired) <==> given.None?
      ensures error == Some(FieldRequired) <==> given.Some? && given.value.name == ""
      ensures error == Some(DuplicateHook) <==> given.Some? && given.value.name != "" && given.value.name in old(hooks)
      ensures error == Some(MethodRequired) <==>
              given.Some? && New(old(hooks), given.value) && given.value.preEvict == given.value.postEvict == Absent
      ensures error == Some(InvalidOption(Pre)) <==>
              given.Some? && New(old(hooks), given.value) && given.value.preEvict == NotCallable
      ensures error == Some(InvalidOption(Post)) <==>
              given.Some? && New(old(hooks), given.value) && given.value.postEvict == NotCallable
              && given.value.preEvict != NotCallable
    {
      if given.None? {
        return Some(ArgumentRequired);
      }
      var h := given.value;
      if h.name == "" {
        return Some(FieldRequired);
      }
      if h.name in hooks {
        return Some(DuplicateHook);
      }
      if h.preEvict.Absent? && h.postEvict.Absent? {
        return Some(MethodRequired);
      }
      if h.preEvict.NotCallable? {
        return Some(InvalidOption(Pre));
      }
      if h.postEvict.NotCallable? {
        return Some(InvalidOption(Post));
      }
      hooks := hooks[h.name := h];
      return None;
    }

    /** Begins the sequence, or refuses to begin it again. */
    method Initiate(now: int) returns (accepted: bool)
      modifies this
      ensures Abstract() == Step(old(Abstract()), Event.Initiate(now))
      ensures accepted <==> old(phases) == []
    {
      var current := CurrentPhase();
      if current.Some? {
        refused := refused + 1;
        return false;
      }
      TransitionTo(PreEvict, now);
      RunTheHooks(Pre);
      return true;
    }

    method TransitionTo(name: PhaseName, now: int)
      modifies `phases
      ensures phases == Pushed(old(phases), name, now)
    {
      var previous := CurrentPhase();
      phases := phases + [Phase(name, now, None, 0, 0)];
      if previous.Some? {
        var i := |phases| - 2;
        phases := phases[i := phases[i].(duration := Some(now - phases[i].ts))];
      }
    }

    method RunTheHooks(kind: Kind)
      modifies `wait, `required
      ensures Abstract() == RunHooks(old(Abstract()), kind)
    {
      var names := Names(hooks, kind);
      if |names| == 0 {
        wait := Ticks(1);
        return;
      }
      assert names != {};
      wait := Hooks(kind, names, {}, |names|);
      required := required + Runs(names, kind);
    }

    method OnStartHook(name: string)
      requires Enabled(Abstract(), StartHook(name))
      modifies `wait, `started
      ensures Abstract() == Step(old(Abstract()), StartHook(name))
    {
      started := started + {HookRun(wait.kind, name)};
      wait := wait.(toStart := wait.toStart - {name}, running := wait.running + {name});
    }

    /** The callback of a hook; the last one lets the sequence go on. */
    method OnHookDone(name: string)
      requires Enabled(Abstract(), HookDone(name))
      modifies `wait, `finished
      ensures Abstract() == Step(old(Abstract()), HookDone(name))
    {
      finished := finished + {HookRun(wait.kind, name)};
      if wait.left <= 1 {
        wait := Ticks(2);
      } else {
        wait := wait.(running := wait.running - {name}, left := wait.left - 1);
      }
    }

    /** The callback of a ping; the last one lets the sequence go on. */
    method OnPingDone(target: nat, ok: bool)
      requires Enabled(Abstract(), PingDone(target, ok))
      modifies `phases, `wait, `pingsDone, `goodPings
      ensures Abstract() == Step(old(Abstract()), PingDone(target, ok))
    {
      var last := |phases| - 1;
      if ok {
        phases := phases[last := phases[last].(numberOfSuccessfulPings := phases[last].numberOfSuccessfulPings + 1)];
        goodPings := goodPings + 1;
      }
      pingsDone := pingsDone + 1;
      if wait.left <= 1 {
        wait := Ticks(1);
      } else {
        wait := wait.(awaited := wait.awaited - {target}, left := wait.left - 1);
      }
    }

    method EvictSelf(now: int, view: View)
      modifies this
      ensures Abstract() == Evict(old(Abstract()), now, view)
    {
      TransitionTo(Evicting, now);
      faulty := true;
      var members := MembersToPing(view);
      phases := phases[|phases| - 1 := phases[|phases| - 1].(numberOfPings := members)];
      if view.pingEnabled && members > 0 {
        wait, pingsSent := Pings(Targets(members), members), members;
      } else {
        wait := Ticks(1);
      }
    }

    method EndSequence(now: int)
      modifies this
      ensures Abstract() == Finish(old(Abstract()), now)
    {
      TransitionTo(Done, now);
      reported := Some(phases[|phases| - 1].ts - phases[0].ts);
      wait, callbacks := Nothing, callbacks + 1;
    }

    /** A tick: the last of a row begins the next phase. */
    method OnTick(now: int, view: View)
      requires Enabled(Abstract(), Tick(now, view))
      modifies this
      ensures Abstract() == Step(old(Abstract()), Tick(now, view))
    {
      if wait.ticks > 1 {
        wait := Ticks(wait.ticks - 1);
      } else if |phases| == 1 {
        EvictSelf(now, view);
      } else if |phases| == 2 {
        TransitionTo(PostEvict, now);
        RunTheHooks(Post);
      } else if |phases| == 3 {
        EndSequence(now);
      }
    }
  }
}
