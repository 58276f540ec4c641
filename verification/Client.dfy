/** The in-flight table of client.js, the requests of client_request.js, and the scan for wedged requests. */
module Client {
  import opened Basics

  /** What the callback of a request is run with. */
  datatype Outcome =
    | CanceledError
    | LocalError
    | NotIdentified(reason: string)
    | Answered(error: Option<string>, response: Option<string>)
    | LimitError(inflight: nat, limit: nat)

  /** Whom a sent request is waiting for: the next tick, the channel to identify its host, the request middlewares, the
      channel to answer, the response middlewares, or nobody. */
  datatype Stage = Tick | Identification | RequestMiddleware | Channel | ResponseMiddleware | Nobody

  /** The states of client_request_states.js. */
  const INITIALIZED := 0
  const WAIT_FOR_IDENTIFIED_PRE := 1
  const WAIT_FOR_IDENTIFIED_POST := 2
  const SUB_CHANNEL_REQUEST_PRE := 3
  const SUB_CHANNEL_REQUEST_POST := 4

  /** `calls` logs what the callback was run with, and `attempts` what it would have been run with every time. */
  datatype Request = Request(timestamp: int, state: nat, canceled: Option<int>, hasCallback: bool,
                             stage: Stage, attempts: seq<Outcome>, calls: seq<Outcome>)

  /** What happens to one request. */
  datatype Happening =
    | Ticked
    | Identified(error: Option<string>)
    | Forwarded
    | Completed
    | Returned(error: Option<string>, response: Option<string>)
    | Cancel(now: int)

  function Sent(now: int, sendable: bool): Request {
    if sendable then Request(now, WAIT_FOR_IDENTIFIED_PRE, None, true, Identification, [], [])
    else Request(now, INITIALIZED, None, true, Tick, [], [])
  }

  /** The callback is forgotten once it was run. */
  function Invoked(r: Request, outcome: Outcome): Request {
    r.(attempts := r.attempts + [outcome], calls := r.calls + (if r.hasCallback then [outcome] else []),
       hasCallback := false)
  }

  predicate Awaits(r: Request, h: Happening) {
    match h
    case Ticked => r.stage.Tick?
    case Identified(_) => r.stage.Identification?
    case Forwarded => r.stage.RequestMiddleware?
    case Completed => r.stage.Channel?
    case Returned(_, _) => r.stage.ResponseMiddleware?
    case Cancel(_) => true
  }

  function Next(r: Request, h: Happening): Request {
    match h
    case Ticked => Invoked(r.(stage := Nobody), LocalError)
    case Identified(error) =>
      var t := r.(state := WAIT_FOR_IDENTIFIED_POST, stage := Nobody);
      if r.canceled.Some? then t
      else if error.Some? then Invoked(t, NotIdentified(error.value))
      else t.(stage := RequestMiddleware)
    case Forwarded => r.(state := SUB_CHANNEL_REQUEST_PRE, stage := Channel)
    case Completed =>
      r.(state := SUB_CHANNEL_REQUEST_POST, stage := if r.canceled.Some? then Nobody else ResponseMiddleware)
    case Returned(error, response) => Invoked(r.(stage := Nobody), Answered(error, response))
    case Cancel(now) => Invoked(r.(canceled := Some(now)), CanceledError)
  }

  /** A scan in progress: `order` are the ids in the table when it began, and the first `at` of them are done. */
  datatype Scan = Scan(time: int, order: seq<nat>, at: nat, canceled: seq<nat>, byTimer: bool)

  /** A request that met the limit: how many were in flight, whether its callback still waits for the next tick, and the
      log of that callback. */
  datatype Rejection = Rejection(inflight: nat, waiting: bool, calls: seq<Outcome>)

  /** `requests` are all those ever sent and `table` the ids in flight; `liveTimers` counts the pending wedge timeouts,
      and `failures` the scans by the timer that ended with an exception. */
  datatype State = State(requests: map<nat, Request>, table: set<nat>, rejected: map<nat, Rejection>, nextId: nat,
                         scan: Option<Scan>, wedgedTimer: bool, liveTimers: nat, failures: nat, destroyed: bool)

  const EMPTY := State(map[], {}, map[], 0, None, false, 0, 0, false)

  datatype Config = Config(limit: nat, wedgedRequestTimeout: int)

  const DEFAULT_WEDGED_REQUEST_TIMEOUT := 30 * 1000

  function WedgedTimeout(c: Config): int {
    if c.wedgedRequestTimeout == 0 then DEFAULT_WEDGED_REQUEST_TIMEOUT else c.wedgedRequestTimeout
  }

  predicate IsWedged(c: Config, time: int, r: Request) {
    time - r.timestamp >= WedgedTimeout(c)
  }

  /** `Send` says whether the channel is up and the host valid. A scan may be started directly, or by the timer; the
      order in which it lists the table is arbitrary. */
  datatype Event =
    | Send(now: int, sendable: bool)
    | On(id: nat, what: Happening)
    | Refuse(id: nat)
    | ScanBegin(time: int, order: seq<nat>)
    | TimerFires(time: int, order: seq<nat>)
    | ScanNext
    | ScanFails
    | ScanEnd
    | Destroy

  predicate Lists(order: seq<nat>, table: set<nat>) {
    NoDup(order) && (forall id :: id in order ==> id in table) && (forall id :: id in table ==> id in order)
  }

  predicate HasNext(s: State) {
    s.scan.Some? && s.scan.value.at < |s.scan.value.order|
  }

  /** The request that the scan looks at next. */
  function NextId(s: State): nat
    requires HasNext(s)
  {
    s.scan.value.order[s.scan.value.at]
  }

  /** The callbacks that a scan runs may send requests, and may have any other request canceled or completed; when that
      takes a request the scan has yet to look at out of the table, the scan throws as it gets there. A scan begun by
      such a callback cancels requests in the same way. */
  predicate Enabled(s: State, e: Event) {
    match e
    case Send(_, _) => true
    case On(id, what) => id in s.requests && Awaits(s.requests[id], what)
    case Refuse(id) => id in s.rejected && s.rejected[id].waiting
    case ScanBegin(_, order) => s.scan.None? && Lists(order, s.table)
    case TimerFires(_, order) => s.scan.None? && s.liveTimers > 0 && Lists(order, s.table)
    case ScanNext => HasNext(s) && NextId(s) in s.requests && NextId(s) in s.table
    case ScanFails => HasNext(s) && NextId(s) !in s.table
    case ScanEnd => s.scan.Some? && s.scan.value.at >= |s.scan.value.order|
    case Destroy => true
  }

  function Schedule(s: State): State {
    s.(wedgedTimer := true, liveTimers := s.liveTimers + 1)
  }

  /** Registers and sends a new request, or rejects it at the limit. */
  function Register(c: Config, s: State, r: Request): State {
    if |s.table| >= c.limit then
      s.(rejected := s.rejected[s.nextId := Rejection(|s.table|, true, [])], nextId := s.nextId + 1)
    else s.(requests := s.requests[s.nextId := r], table := s.table + {s.nextId}, nextId := s.nextId + 1)
  }

  /** The callback of a rejected request runs on the next tick. */
  function Refused(c: Config, r: Rejection): Rejection {
    r.(waiting := false, calls := r.calls + [LimitError(r.inflight, c.limit)])
  }

  function SendOne(c: Config, s: State, r: Request): State {
    Register(c, if s.wedgedTimer then s else Schedule(s), r)
  }

  /** A callback that runs first takes its request out of the table. */
  function Happens(s: State, id: nat, h: Happening): State
    requires id in s.requests
  {
    Filed(s, id, Next(s.requests[id], h))
  }

  function Filed(s: State, id: nat, r: Request): State
    requires id in s.requests
  {
    s.(requests := s.requests[id := r], table := if r.calls != s.requests[id].calls then s.table - {id} else s.table)
  }

  function Begun(s: State, time: int, order: seq<nat>, byTimer: bool): State {
    s.(scan := Some(Scan(time, order, 0, [], byTimer)))
  }

  function LookAt(c: Config, s: State): State
    requires Enabled(s, ScanNext)
  {
    var scan := s.scan.value;
    var id := scan.order[scan.at];
    if IsWedged(c, scan.time, s.requests[id])
    then Happens(s.(table := s.table - {id}, scan := Some(scan.(at := scan.at + 1, canceled := scan.canceled + [id]))),
                 id, Cancel(scan.time))
    else s.(scan := Some(scan.(at := scan.at + 1)))
  }

  function Step(c: Config, s: State, e: Event): State {
    if !Enabled(s, e) then s
    else
    match e
    case Send(now, sendable) => SendOne(c, s, Sent(now, sendable))
    case On(id, what) => Happens(s, id, what)
    case Refuse(id) => s.(rejected := s.rejected[id := Refused(c, s.rejected[id])])
    case ScanBegin(time, order) => Begun(s, time, order, false)
    case TimerFires(time, order) =>
      var t := s.(liveTimers := s.liveTimers - 1);
      if s.destroyed then t else Begun(t, time, order, true)
    case ScanNext => LookAt(c, s)
    case ScanFails =>
      s.(scan := None, failures := s.failures + if s.scan.value.byTimer then 1 else 0)
    case ScanEnd =>
      var t := s.(scan := None);
      if s.scan.value.byTimer then Schedule(t) else t
    case Destroy => s.(liveTimers := 0, destroyed := true)
  }

  ghost predicate Legal(c: Config, es: seq<Event>) {
    es == [] || (Legal(c, es[..|es| - 1]) && Enabled(Run(c, es[..|es| - 1]), es[|es| - 1]))
  }

  ghost function Run(c: Config, es: seq<Event>): State {
    if es == [] then EMPTY else Step(c, Run(c, es[..|es| - 1]), es[|es| - 1])
  }

  // -------- one request --------

  function StateIn(stage: Stage): nat {
    match stage
    case Tick => INITIALIZED
    case Identification => WAIT_FOR_IDENTIFIED_PRE
    case RequestMiddleware => WAIT_FOR_IDENTIFIED_POST
    case Channel => SUB_CHANNEL_REQUEST_PRE
    case ResponseMiddleware => SUB_CHANNEL_REQUEST_POST
    case Nobody => SUB_CHANNEL_REQUEST_POST
  }

  /** The callback ran with the first outcome and with no other, a request nobody will answer was called back, and the
      state tells how far the request got. */
  predicate Sound(r: Request) {
    && r.calls == r.attempts[..Min(1, |r.attempts|)]
    && (r.hasCallback <==> r.calls == [])
    && (r.stage.Nobody? ==> r.calls != [])
    && (r.canceled.Some? ==> CanceledError in r.attempts)
    && (if r.stage.Nobody? then r.state <= SUB_CHANNEL_REQUEST_POST else r.state == StateIn(r.stage))
  }

  /** A later state of the same request. */
  predicate Follows(r: Request, t: Request) {
    && t.timestamp == r.timestamp && r.state <= t.state
    && r.calls <= t.calls && r.attempts <= t.attempts
    && (r.canceled.Some? ==> t.canceled.Some?)
  }

  lemma NextKeepsSound(r: Request, h: Happening)
    requires Sound(r) && Awaits(r, h)
    ensures Sound(Next(r, h)) && Follows(r, Next(r, h))
    ensures Next(r, h).calls != r.calls ==> r.calls == [] && Next(r, h).calls != []
  {
    assert h.Cancel? ==> CanceledError == Next(r, h).attempts[|r.attempts|];
    if r.canceled.Some? {
      assert CanceledError in r.attempts && r.attempts != [];
    }
  }

  lemma SentSound(now: int, sendable: bool)
    ensures Sound(Sent(now, sendable)) && Sent(now, sendable).calls == []
  {
  }

  // -------- the table --------

  ghost predicate IdsInv(c: Config, s: State) {
    && s.table <= s.requests.Keys && |s.table| <= c.limit
    && s.requests.Keys !! s.rejected.Keys
    && (forall id: nat :: id in s.requests || id in s.rejected <==> id < s.nextId)
  }

  /** A rejected request is called back once, on the next tick, with a full table. */
  predicate Rejected(c: Config, r: Rejection) {
    r.inflight == c.limit && r.calls == if r.waiting then [] else [LimitError(c.limit, c.limit)]
  }

  /** Every id given out is that of a rejected request, or of one in flight, or of one called back exactly once. */
  ghost predicate TableInv(c: Config, s: State) {
    && IdsInv(c, s)
    && (forall id :: id in s.requests ==> Sound(s.requests[id]))
    && (forall id :: id in s.requests ==> (id in s.table <==> s.requests[id].calls == []))
  }

  ghost predicate RejectionsInv(c: Config, s: State) {
    forall id :: id in s.rejected ==> Rejected(c, s.rejected[id])
  }

  lemma FilingKeepsIds(c: Config, s: State, id: nat, r: Request)
    requires IdsInv(c, s) && id in s.requests
    ensures IdsInv(c, Filed(s, id, r))
  {
    SubsetSize(s.table - {id}, s.table);
    assert Filed(s, id, r).requests.Keys == s.requests.Keys;
  }

  lemma FilingKeepsTable(c: Config, s: State, id: nat, r: Request)
    requires TableInv(c, s) && id in s.requests && Sound(r)
    requires r.calls != s.requests[id].calls ==> s.requests[id].calls == [] && r.calls != []
    ensures TableInv(c, Filed(s, id, r))
  {
    FilingKeepsIds(c, s, id, r);
    var t := Filed(s, id, r);
    forall k | k in t.requests ensures Sound(t.requests[k]) && (k in t.table <==> t.requests[k].calls == []) {
      assert k in s.requests;
    }
  }

  lemma HappensKeepsTable(c: Config, s: State, id: nat, h: Happening)
    requires TableInv(c, s) && id in s.requests && Awaits(s.requests[id], h)
    ensures TableInv(c, Happens(s, id, h))
  {
    NextKeepsSound(s.requests[id], h);
    FilingKeepsTable(c, s, id, Next(s.requests[id], h));
  }

  lemma RegisterKeepsIds(c: Config, s: State, r: Request)
    requires IdsInv(c, s)
    ensures IdsInv(c, Register(c, s, r))
  {
    var t := Register(c, s, r);
    assert s.nextId !in s.requests && s.nextId !in s.rejected;
    assert |s.table + {s.nextId}| <= |s.table| + 1;
    forall id: nat ensures id in t.requests || id in t.rejected <==> id < t.nextId {
      assert id in s.requests || id in s.rejected <==> id < s.nextId;
    }
  }

  lemma RegisterKeepsTable(c: Config, s: State, r: Request)
    requires TableInv(c, s) && Sound(r) && r.calls == []
    ensures TableInv(c, Register(c, s, r))
  {
    var t := Register(c, s, r);
    RegisterKeepsIds(c, s, r);
    assert s.nextId !in s.requests && s.nextId !in s.rejected;
    forall id | id in t.requests ensures Sound(t.requests[id]) && (id in t.table <==> t.requests[id].calls == []) {
      assert id in s.requests || t.requests[id] == r;
    }
  }

  lemma SendKeepsTable(c: Config, s: State, now: int, sendable: bool)
    requires TableInv(c, s)
    ensures TableInv(c, SendOne(c, s, Sent(now, sendable)))
  {
    SentSound(now, sendable);
    RegisterKeepsTable(c, if s.wedgedTimer then s else Schedule(s), Sent(now, sendable));
  }

  lemma RefusingKeepsTable(c: Config, s: State, id: nat)
    requires TableInv(c, s) && Enabled(s, Refuse(id))
    ensures TableInv(c, Step(c, s, Refuse(id)))
  {
    assert Step(c, s, Refuse(id)).rejected.Keys == s.rejected.Keys;
  }

  function Canceling(c: Config, s: State): State
    requires Enabled(s, ScanNext)
  {
    var scan := s.scan.value;
    var id := scan.order[scan.at];
    if IsWedged(c, scan.time, s.requests[id]) then Happens(s, id, Cancel(scan.time)) else s
  }

  /** The scan deletes an id itself before it cancels the request, which makes no difference. */
  lemma LookAtCancels(c: Config, s: State)
    requires TableInv(c, s) && Enabled(s, ScanNext)
    ensures LookAt(c, s) == Canceling(c, s).(scan := LookAt(c, s).scan)
  {
    var id := s.scan.value.order[s.scan.value.at];
    CanceledBefore(s.requests[id], s.scan.value.time);
    DeletedTwice(s, id, Next(s.requests[id], Cancel(s.scan.value.time)), LookAt(c, s).scan);
  }

  lemma DeletedTwice(s: State, id: nat, r: Request, scan: Option<Scan>)
    requires id in s.requests && (r.calls == s.requests[id].calls ==> id !in s.table)
    ensures Filed(s.(table := s.table - {id}, scan := scan), id, r) == Filed(s, id, r).(scan := scan)
  {
    assert id !in s.table ==> s.table - {id} == s.table;
    assert (s.table - {id}) - {id} == s.table - {id};
  }

  lemma CanceledBefore(r: Request, now: int)
    requires Sound(r)
    ensures Next(r, Cancel(now)).calls == r.calls ==> r.calls != []
  {
  }

  lemma ScanKeepsTable(c: Config, s: State)
    requires TableInv(c, s) && Enabled(s, ScanNext)
    ensures TableInv(c, LookAt(c, s))
  {
    LookAtCancels(c, s);
    if IsWedged(c, s.scan.value.time, s.requests[s.scan.value.order[s.scan.value.at]]) {
      HappensKeepsTable(c, s, s.scan.value.order[s.scan.value.at], Cancel(s.scan.value.time));
    }
  }

  predicate SameTable(s: State, t: State) {
    s.requests == t.requests && s.table == t.table && s.rejected == t.rejected && s.nextId == t.nextId
  }

  lemma OthersKeepTable(c: Config, s: State, e: Event)
    requires !e.Send? && !e.On? && !e.Refuse? && !e.ScanNext?
    ensures SameTable(s, Step(c, s, e))
  {
  }

  lemma StepKeepsTable(c: Config, s: State, e: Event)
    requires TableInv(c, s)
    ensures TableInv(c, Step(c, s, e))
  {
    match e
    case Send(now, sendable) => SendKeepsTable(c, s, now, sendable);
    case On(id, what) =>
      if Enabled(s, e) {
        HappensKeepsTable(c, s, id, what);
      }
    case Refuse(id) =>
      if Enabled(s, e) {
        RefusingKeepsTable(c, s, id);
      }
    case ScanNext =>
      if Enabled(s, e) {
        ScanKeepsTable(c, s);
      }
    case _ => OthersKeepTable(c, s, e);
  }

  lemma {:induction false} RunKeepsTable(c: Config, es: seq<Event>)
    ensures TableInv(c, Run(c, es))
  {
    if es != [] {
      RunKeepsTable(c, es[..|es| - 1]);
      StepKeepsTable(c, Run(c, es[..|es| - 1]), es[|es| - 1]);
    }
  }

  lemma StepKeepsRejections(c: Config, s: State, e: Event)
    requires IdsInv(c, s) && RejectionsInv(c, s)
    ensures RejectionsInv(c, Step(c, s, e))
  {
    match e
    case Send(_, _) =>
    case Refuse(id) => assert id in s.rejected ==> Rejected(c, s.rejected[id]);
    case _ => assert Step(c, s, e).rejected == s.rejected;
  }

  lemma {:induction false} RunKeepsRejections(c: Config, es: seq<Event>)
    ensures RejectionsInv(c, Run(c, es))
  {
    if es != [] {
      RunKeepsRejections(c, es[..|es| - 1]);
      RunKeepsTable(c, es[..|es| - 1]);
      StepKeepsRejections(c, Run(c, es[..|es| - 1]), es[|es| - 1]);
    }
  }

  /** On every run, whatever the order of cancellations, completions and late completions: an admitted request was
      called back with the first outcome it had and at most once; it is in the table exactly while it was not called
      back, and then somebody can still answer it; and the table never holds more than the limit. */
  lemma CalledBackOnceAndTracked(c: Config, es: seq<Event>, id: nat)
    requires id in Run(c, es).requests
    ensures var s := Run(c, es); var r := s.requests[id];
            && |s.table| <= c.limit
            && |r.calls| <= 1 && r.calls <= r.attempts && (r.attempts != [] ==> r.calls != [])
            && (id in s.table <==> r.calls == []) && (id in s.table <==> r.hasCallback)
            && (id in s.table ==> !r.stage.Nobody?)
  {
    RunKeepsTable(c, es);
    var r := Run(c, es).requests[id];
    assert Sound(r);
  }

  /** Every request ever made was rejected at the limit, is in flight, or was called back once, and never two of these;
      a rejected one is called back once too, with the limit error, unless its tick is still to come. */
  lemma EveryRequestIsAccountedFor(c: Config, es: seq<Event>, id: nat)
    requires id < Run(c, es).nextId
    ensures var s := Run(c, es);
            && (id in s.rejected <==> id !in s.requests)
            && (id !in s.rejected ==> (id in s.table <==> |s.requests[id].calls| != 1))
            && (id in s.table ==> id !in s.rejected && s.requests[id].calls == [])
            && (id in s.rejected ==> Rejected(c, s.rejected[id]))
  {
    RunKeepsTable(c, es);
    RunKeepsRejections(c, es);
    if id in Run(c, es).requests {
      CalledBackOnceAndTracked(c, es, id);
    }
  }

  lemma RegisterAdmitsIff(c: Config, s: State, r: Request)
    requires IdsInv(c, s)
    ensures var t := Register(c, s, r);
            && (s.nextId in t.table <==> |s.table| < c.limit)
            && (s.nextId in t.rejected <==> |s.table| >= c.limit)
            && s.table <= t.table && t.table - {s.nextId} == s.table
            && (forall id :: id in s.requests ==> id in t.requests && t.requests[id] == s.requests[id])
  {
    assert s.nextId !in s.requests && s.nextId !in s.rejected;
    assert s.nextId !in s.table;
  }

  /** Requests are admitted exactly while the table is below the limit, and a rejected one disturbs nothing in
      flight. */
  lemma AdmittedIffBelowLimit(c: Config, es: seq<Event>, now: int, sendable: bool)
    ensures var s := Run(c, es); var t := Step(c, s, Send(now, sendable));
            && (s.nextId in t.table <==> |s.table| < c.limit)
            && (s.nextId in t.rejected <==> |s.table| >= c.limit)
            && s.table <= t.table && t.table - {s.nextId} == s.table
            && (forall id :: id in s.requests ==> id in t.requests && t.requests[id] == s.requests[id])
  {
    RunKeepsTable(c, es);
    var s := Run(c, es);
    RegisterAdmitsIff(c, if s.wedgedTimer then s else Schedule(s), Sent(now, sendable));
  }

  // -------- which outcome a request gets, read off the events --------

  datatype Made = Made(now: int, sendable: bool)

  /** The requests made, in order: the one with a given id is the send at that position. */
  function Sends(es: seq<Event>): seq<Made> {
    if es == [] then []
    else
      Sends(es[..|es| - 1]) + match es[|es| - 1] case Send(now, sendable) => [Made(now, sendable)] case _ => []
  }

  /** What the callback of a request is run with if this event is the first to end it. */
  function Ends(c: Config, s: State, e: Event, id: nat, sent: int): Option<Outcome> {
    match e
    case On(i, what) =>
      if i != id then None
      else
        (match what
         case Ticked => Some(LocalError)
         case Identified(error) => if error.Some? then Some(NotIdentified(error.value)) else None
         case Returned(error, response) => Some(Answered(error, response))
         case Cancel(_) => Some(CanceledError)
         case _ => None)
    case ScanNext =>
      if HasNext(s) && NextId(s) == id
         && s.scan.value.time - sent >= (if c.wedgedRequestTimeout == 0 then 30000 else c.wedgedRequestTimeout)
      then Some(CanceledError) else None
    case _ => None
  }

  /** What the first event that can end the request says. */
  ghost function FirstOutcome(c: Config, es: seq<Event>, id: nat): seq<Outcome> {
    if es == [] then []
    else
      var init, e := es[..|es| - 1], es[|es| - 1];
      var before := FirstOutcome(c, init, id);
      if before != [] || id >= |Sends(init)| || !Enabled(Run(c, init), e) then before
      else
        match Ends(c, Run(c, init), e, id, Sends(init)[id].now)
        case Some(o) => [o]
        case None => []
  }

  lemma StepCounts(c: Config, s: State, e: Event)
    ensures Step(c, s, e).nextId == s.nextId + if e.Send? then 1 else 0
  {
  }

  lemma NextIdSnoc(c: Config, es: seq<Event>)
    requires es != []
    ensures Run(c, es).nextId == Run(c, es[..|es| - 1]).nextId + if es[|es| - 1].Send? then 1 else 0
  {
    StepCounts(c, Run(c, es[..|es| - 1]), es[|es| - 1]);
  }

  lemma {:induction false} IdsAreSends(c: Config, es: seq<Event>)
    ensures Run(c, es).nextId == |Sends(es)|
  {
    if es != [] {
      IdsAreSends(c, es[..|es| - 1]);
      NextIdSnoc(c, es);
    }
  }

  lemma NextOutcome(r: Request, h: Happening)
    requires Sound(r) && Awaits(r, h)
    ensures Next(r, h).timestamp == r.timestamp
    ensures Next(r, h).calls ==
            if r.calls != [] then r.calls
            else match h
                 case Ticked => [LocalError]
                 case Identified(error) => if error.Some? then [NotIdentified(error.value)] else []
                 case Returned(error, response) => [Answered(error, response)]
                 case Cancel(_) => [CanceledError]
                 case _ => []
  {
    NextKeepsSound(r, h);
  }

  lemma ScanOutcome(c: Config, s: State)
    requires TableInv(c, s) && Enabled(s, ScanNext)
    ensures var id, t := NextId(s), LookAt(c, s);
            var wedged := s.scan.value.time - s.requests[id].timestamp
                          >= (if c.wedgedRequestTimeout == 0 then 30000 else c.wedgedRequestTimeout);
            && t.requests.Keys == s.requests.Keys
            && (forall k :: k in s.requests && k != id ==> t.requests[k] == s.requests[k])
            && t.requests[id].timestamp == s.requests[id].timestamp
            && t.requests[id].calls == (if wedged then [CanceledError] else [])
  {
    LookAtCancels(c, s);
    assert Sound(s.requests[NextId(s)]);
    NextOutcome(s.requests[NextId(s)], Cancel(s.scan.value.time));
  }

  lemma OtherOutcomes(c: Config, s: State, e: Event, id: nat)
    requires IdsInv(c, s) && id in s.requests && Enabled(s, e) && !e.On? && !e.ScanNext?
    ensures id in Step(c, s, e).requests && Step(c, s, e).requests[id] == s.requests[id]
  {
    assert s.nextId !in s.requests;
  }

  /** How one event changes a request that was made before. */
  lemma StepOutcome(c: Config, s: State, e: Event, id: nat)
    requires TableInv(c, s) && id in s.requests && Enabled(s, e)
    ensures id in Step(c, s, e).requests && Step(c, s, e).requests[id].timestamp == s.requests[id].timestamp
    ensures Step(c, s, e).requests[id].calls ==
            if s.requests[id].calls != [] then s.requests[id].calls
            else match Ends(c, s, e, id, s.requests[id].timestamp) case Some(o) => [o] case None => []
  {
    assert Sound(s.requests[id]);
    match e
    case On(i, what) =>
      assert Sound(s.requests[i]);
      NextOutcome(s.requests[i], what);
    case ScanNext => ScanOutcome(c, s);
    case _ => OtherOutcomes(c, s, e, id);
  }

  /** On every run: the callback of an admitted request was run with what the first of its events that can end it says,
      and with nothing else; its timestamp is that of its send. */
  lemma {:induction false} OutcomeIsTheFirst(c: Config, es: seq<Event>, id: nat)
    ensures id in Run(c, es).requests ==>
              && id < |Sends(es)|
              && Run(c, es).requests[id].timestamp == Sends(es)[id].now
              && Run(c, es).requests[id].calls == FirstOutcome(c, es, id)
    ensures id !in Run(c, es).requests ==> FirstOutcome(c, es, id) == []
  {
    if es != [] {
      var init, e := es[..|es| - 1], es[|es| - 1];
      OutcomeIsTheFirst(c, init, id);
      RunKeepsTable(c, init);
      IdsAreSends(c, init);
      OutcomeSnoc(c, init, e, id);
    }
  }

  lemma OutcomeSnoc(c: Config, init: seq<Event>, e: Event, id: nat)
    requires TableInv(c, Run(c, init))
    requires Run(c, init).nextId == |Sends(init)|
    requires id in Run(c, init).requests ==>
               && Run(c, init).requests[id].timestamp == Sends(init)[id].now
               && Run(c, init).requests[id].calls == FirstOutcome(c, init, id)
    requires id !in Run(c, init).requests ==> FirstOutcome(c, init, id) == []
    ensures var es := init + [e];
            && (id in Run(c, es).requests ==>
                  && id < |Sends(es)|
                  && Run(c, es).requests[id].timestamp == Sends(es)[id].now
                  && Run(c, es).requests[id].calls == FirstOutcome(c, es, id))
            && (id !in Run(c, es).requests ==> FirstOutcome(c, es, id) == [])
  {
    var s := Run(c, init);
    Unfold(c, init, e);
    OutcomeUnfold(c, init, e, id);
    if Enabled(s, e) && id in s.requests {
      StepOutcome(c, s, e, id);
    } else {
      Newcomer(c, s, e, id);
    }
  }

  lemma Unfold(c: Config, init: seq<Event>, e: Event)
    ensures Run(c, init + [e]) == Step(c, Run(c, init), e)
    ensures Sends(init + [e]) == Sends(init) + if e.Send? then [Made(e.now, e.sendable)] else []
  {
    assert (init + [e])[..|init|] == init;
  }

  lemma OutcomeUnfold(c: Config, init: seq<Event>, e: Event, id: nat)
    ensures var before := FirstOutcome(c, init, id);
            FirstOutcome(c, init + [e], id) ==
            if before != [] || id >= |Sends(init)| || !Enabled(Run(c, init), e) then before
            else match Ends(c, Run(c, init), e, id, Sends(init)[id].now) case Some(o) => [o] case None => []
  {
    assert (init + [e])[..|init|] == init;
  }

  /** A request that was not there before is the one just sent; nothing is heard of it before. */
  lemma Newcomer(c: Config, s: State, e: Event, id: nat)
    requires IdsInv(c, s) && (id !in s.requests || !Enabled(s, e))
    ensures id in Step(c, s, e).requests && id !in s.requests ==>
              e.Send? && id == s.nextId && Step(c, s, e).requests[id] == Sent(e.now, e.sendable)
    ensures id in s.requests ==> Step(c, s, e) == s
    ensures id !in s.requests && Enabled(s, e) ==> !(e.On? && e.id == id) && !(e.ScanNext? && NextId(s) == id)
  {
  }

  // -------- the order in which a request hears from others --------

  /** What a request has heard, cancellations aside. */
  ghost function Heard(c: Config, es: seq<Event>, id: nat): seq<Happening> {
    if es == [] then []
    else
      var init, e := es[..|es| - 1], es[|es| - 1];
      Heard(c, init, id) +
      if e.On? && e.id == id && !e.what.Cancel? && Enabled(Run(c, init), e) then [e.what] else []
  }

  /** What a request can have heard: only the tick when it could not be sent; otherwise the identification, the request
      middlewares, the channel and the response middlewares, in this order, where a failed identification is the
      last. */
  predicate InOrder(heard: seq<Happening>, sendable: bool) {
    if !sendable then heard == [] || heard == [Ticked]
    else
      && |heard| <= 4
      && (|heard| >= 1 ==> heard[0].Identified?)
      && (|heard| >= 2 ==> heard[0].error.None? && heard[1].Forwarded?)
      && (|heard| >= 3 ==> heard[2].Completed?)
      && (|heard| >= 4 ==> heard[3].Returned?)
  }

  function Following(n: nat, sendable: bool): Stage {
    if !sendable then (if n == 0 then Tick else Nobody)
    else
      match n
      case 0 => Identification
      case 1 => RequestMiddleware
      case 2 => Channel
      case 3 => ResponseMiddleware
      case _ => Nobody
  }

  /** The request waits for the next one in order, or for nobody once it was called back. */
  predicate WaitsForNext(r: Request, heard: seq<Happening>, sendable: bool) {
    && InOrder(heard, sendable)
    && (r.stage == Following(|heard|, sendable) || (r.stage.Nobody? && r.calls != []))
    && (|heard| == 1 && r.stage.RequestMiddleware? ==> heard[0].error.None?)
  }

  lemma NextInOrder(r: Request, h: Happening, heard: seq<Happening>, sendable: bool)
    requires Sound(r) && Awaits(r, h) && WaitsForNext(r, heard, sendable)
    ensures WaitsForNext(Next(r, h), heard + if h.Cancel? then [] else [h], sendable)
  {
    assert heard + [] == heard;
    NextKeepsSound(r, h);
  }

  lemma ScanInOrder(c: Config, s: State, id: nat, heard: seq<Happening>, sendable: bool)
    requires TableInv(c, s) && Enabled(s, ScanNext) && id in s.requests
    requires WaitsForNext(s.requests[id], heard, sendable)
    ensures id in LookAt(c, s).requests && WaitsForNext(LookAt(c, s).requests[id], heard, sendable)
  {
    LookAtCancels(c, s);
    assert Sound(s.requests[NextId(s)]);
    if NextId(s) == id {
      NextInOrder(s.requests[id], Cancel(s.scan.value.time), heard, sendable);
      assert heard + [] == heard;
    }
  }

  lemma StepInOrder(c: Config, s: State, e: Event, id: nat, heard: seq<Happening>, sendable: bool)
    requires TableInv(c, s) && Enabled(s, e) && id in s.requests && WaitsForNext(s.requests[id], heard, sendable)
    ensures id in Step(c, s, e).requests
    ensures WaitsForNext(Step(c, s, e).requests[id],
                         heard + (if e.On? && e.id == id && !e.what.Cancel? then [e.what] else []), sendable)
  {
    assert heard + [] == heard && Sound(s.requests[id]);
    match e
    case On(i, what) =>
      if i == id {
        NextInOrder(s.requests[id], what, heard, sendable);
      }
    case ScanNext => ScanInOrder(c, s, id, heard, sendable);
    case _ => OtherOutcomes(c, s, e, id);
  }

  lemma SentInOrder(now: int, sendable: bool)
    ensures WaitsForNext(Sent(now, sendable), [], sendable)
  {
  }

  /** On every run an admitted request hears from the others in order, and waits for the next of them unless it was
      called back: from the tick alone when it could not be sent, and otherwise from the four others. */
  lemma {:induction false} HeardInOrder(c: Config, es: seq<Event>, id: nat)
    ensures id in Run(c, es).requests ==>
              && id < |Sends(es)|
              && WaitsForNext(Run(c, es).requests[id], Heard(c, es, id), Sends(es)[id].sendable)
    ensures id !in Run(c, es).requests ==> Heard(c, es, id) == []
  {
    if es != [] {
      var init, e := es[..|es| - 1], es[|es| - 1];
      HeardInOrder(c, init, id);
      RunKeepsTable(c, init);
      IdsAreSends(c, init);
      assert es == init + [e];
      HeardSnoc(c, init, e, id);
    }
  }

  lemma HeardSnoc(c: Config, init: seq<Event>, e: Event, id: nat)
    requires TableInv(c, Run(c, init)) && Run(c, init).nextId == |Sends(init)|
    requires id in Run(c, init).requests ==>
               && id < |Sends(init)|
               && WaitsForNext(Run(c, init).requests[id], Heard(c, init, id), Sends(init)[id].sendable)
    requires id !in Run(c, init).requests ==> Heard(c, init, id) == []
    ensures var es := init + [e];
            && (id in Run(c, es).requests ==>
                  && id < |Sends(es)|
                  && WaitsForNext(Run(c, es).requests[id], Heard(c, es, id), Sends(es)[id].sendable))
            && (id !in Run(c, es).requests ==> Heard(c, es, id) == [])
  {
    var s, es := Run(c, init), init + [e];
    Unfold(c, init, e);
    if Enabled(s, e) && id in s.requests {
      StepInOrder(c, s, e, id, Heard(c, init, id), Sends(init)[id].sendable);
    } else {
      Newcomer(c, s, e, id);
      if e.Send? {
        SentInOrder(e.now, e.sendable);
      }
    }
    HeardUnfold(c, init, e, id);
  }

  lemma HeardUnfold(c: Config, init: seq<Event>, e: Event, id: nat)
    ensures Heard(c, init + [e], id) ==
            Heard(c, init, id) +
            if e.On? && e.id == id && !e.what.Cancel? && Enabled(Run(c, init), e) then [e.what] else []
  {
    assert (init + [e])[..|init|] == init;
  }

  /** How much a request still hears when it is canceled after having heard that much: until it is identified, or until
      the channel answers, but the response middlewares it does hear out. */
  function HeardAtMost(heard: nat, sendable: bool): nat {
    if heard == 0 || !sendable then 1 else if heard <= 2 then 3 else 4
  }

  /** It is canceled, and nobody goes on when it has heard that much. */
  predicate Halting(r: Request, heard: seq<Happening>, most: nat) {
    r.canceled.Some? && |heard| <= most && (|heard| == most ==> r.stage.Nobody?)
  }

  lemma StepHalts(c: Config, s: State, e: Event, id: nat, heard: seq<Happening>, sendable: bool, most: nat)
    requires TableInv(c, s) && Enabled(s, e) && id in s.requests && WaitsForNext(s.requests[id], heard, sendable)
    requires Halting(s.requests[id], heard, most) && (if sendable then most in {1, 3, 4} else most == 1)
    ensures id in Step(c, s, e).requests
    ensures Halting(Step(c, s, e).requests[id],
                    heard + (if e.On? && e.id == id && !e.what.Cancel? then [e.what] else []), most)
  {
    assert heard + [] == heard && Sound(s.requests[id]);
    match e
    case On(i, what) =>
      if i == id {
        NextHalts(s.requests[id], what, heard, sendable, most);
      }
    case ScanNext =>
      LookAtCancels(c, s);
      assert NextId(s) != id;
    case _ => OtherOutcomes(c, s, e, id);
  }

  lemma NextHalts(r: Request, h: Happening, heard: seq<Happening>, sendable: bool, most: nat)
    requires Awaits(r, h) && WaitsForNext(r, heard, sendable)
    requires Halting(r, heard, most) && (if sendable then most in {1, 3, 4} else most == 1)
    ensures Halting(Next(r, h), heard + if h.Cancel? then [] else [h], most)
  {
    assert heard + [] == heard;
  }

  /** A request that is canceled is not sent on: it hears no more than the answer it was waiting for by then, or that of
      the channel if it was on its way there. */
  lemma {:induction false} CanceledIsNotSentOn(c: Config, es: seq<Event>, more: seq<Event>, id: nat, now: int)
    requires Enabled(Run(c, es), On(id, Cancel(now))) && id < |Sends(es)|
    ensures var all := es + [On(id, Cancel(now))] + more;
            && id in Run(c, all).requests
            && Halting(Run(c, all).requests[id], Heard(c, all, id),
                       HeardAtMost(|Heard(c, es, id)|, Sends(es)[id].sendable))
  {
    var cancel := es + [On(id, Cancel(now))];
    var most, sendable := HeardAtMost(|Heard(c, es, id)|, Sends(es)[id].sendable), Sends(es)[id].sendable;
    if more == [] {
      assert cancel + more == cancel;
      HaltsAtOnce(c, es, id, now);
    } else {
      var before, e := more[..|more| - 1], more[|more| - 1];
      CanceledIsNotSentOn(c, es, before, id, now);
      assert cancel + more == cancel + before + [e];
      HeardInOrder(c, cancel + before, id);
      RunKeepsTable(c, cancel + before);
      SendsGrow(es, [On(id, Cancel(now))] + before);
      assert es + ([On(id, Cancel(now))] + before) == cancel + before;
      HeardUnfold(c, cancel + before, e, id);
      Unfold(c, cancel + before, e);
      if Enabled(Run(c, cancel + before), e) {
        StepHalts(c, Run(c, cancel + before), e, id, Heard(c, cancel + before, id), sendable, most);
      }
    }
  }

  lemma HaltsAtOnce(c: Config, es: seq<Event>, id: nat, now: int)
    requires Enabled(Run(c, es), On(id, Cancel(now))) && id < |Sends(es)|
    ensures var cancel := es + [On(id, Cancel(now))];
            && id in Run(c, cancel).requests
            && Halting(Run(c, cancel).requests[id], Heard(c, cancel, id),
                       HeardAtMost(|Heard(c, es, id)|, Sends(es)[id].sendable))
  {
    HeardInOrder(c, es, id);
    HeardUnfold(c, es, On(id, Cancel(now)), id);
    Unfold(c, es, On(id, Cancel(now)));
    CancelHalts(Run(c, es).requests[id], Heard(c, es, id), Sends(es)[id].sendable, now);
    assert Heard(c, es, id) + [] == Heard(c, es, id);
  }

  lemma CancelHalts(r: Request, heard: seq<Happening>, sendable: bool, now: int)
    requires WaitsForNext(r, heard, sendable)
    ensures Halting(Next(r, Cancel(now)), heard, HeardAtMost(|heard|, sendable))
  {
  }

  lemma {:induction false} SendsGrow(es: seq<Event>, more: seq<Event>)
    ensures Sends(es) <= Sends(es + more)
  {
    if more == [] {
      assert es + more == es;
    } else {
      SendsGrow(es, more[..|more| - 1]);
      assert (es + more)[..|es + more| - 1] == es + more[..|more| - 1];
    }
  }

  // -------- requests only go forward --------

  ghost predicate Later(s: State, t: State) {
    forall id :: id in s.requests ==> id in t.requests && Follows(s.requests[id], t.requests[id])
  }

  lemma HappensIsLater(c: Config, s: State, id: nat, h: Happening)
    requires TableInv(c, s) && id in s.requests && Awaits(s.requests[id], h)
    ensures Later(s, Happens(s, id, h))
  {
    NextKeepsSound(s.requests[id], h);
  }

  lemma ScanIsLater(c: Config, s: State)
    requires TableInv(c, s) && Enabled(s, ScanNext)
    ensures Later(s, LookAt(c, s))
  {
    LookAtCancels(c, s);
    if IsWedged(c, s.scan.value.time, s.requests[s.scan.value.order[s.scan.value.at]]) {
      HappensIsLater(c, s, s.scan.value.order[s.scan.value.at], Cancel(s.scan.value.time));
    }
  }

  lemma StepIsLater(c: Config, s: State, e: Event)
    requires TableInv(c, s)
    ensures Later(s, Step(c, s, e))
  {
    match e
    case Send(now, sendable) => assert s.nextId !in s.requests;
    case On(id, what) =>
      if Enabled(s, e) {
        HappensIsLater(c, s, id, what);
      }
    case Refuse(_) =>
    case ScanNext =>
      if Enabled(s, e) {
        ScanIsLater(c, s);
      }
    case _ => OthersKeepTable(c, s, e);
  }

  /** However a run goes on, no request disappears, goes back to an earlier state, or is called back anew. */
  lemma {:induction false} RequestsOnlyGoForward(c: Config, es: seq<Event>, k: nat, id: nat)
    requires k <= |es| && id in Run(c, es[..k]).requests
    ensures id in Run(c, es).requests
    ensures Follows(Run(c, es[..k]).requests[id], Run(c, es).requests[id])
    ensures Run(c, es[..k]).requests[id].calls != [] ==>
              Run(c, es).requests[id].calls == Run(c, es[..k]).requests[id].calls
    decreases |es|
  {
    if k == |es| {
      assert es[..k] == es;
    } else {
      var init := es[..|es| - 1];
      assert init[..k] == es[..k];
      RequestsOnlyGoForward(c, init, k, id);
      RunKeepsTable(c, init);
      StepIsLater(c, Run(c, init), es[|es| - 1]);
    }
    CalledBackOnceAndTracked(c, es, id);
  }

  /** A request canceled in flight is called back with the cancellation, whatever arrives later. */
  lemma CancellationIsFinal(c: Config, es: seq<Event>, more: seq<Event>, id: nat, now: int)
    requires id in Run(c, es).table && Enabled(Run(c, es), On(id, Cancel(now)))
    ensures id in Run(c, es + [On(id, Cancel(now))] + more).requests
    ensures Run(c, es + [On(id, Cancel(now))] + more).requests[id].calls == [CanceledError]
  {
    RunKeepsTable(c, es);
    var all, k := es + [On(id, Cancel(now))] + more, |es| + 1;
    assert all[..k] == es + [On(id, Cancel(now))];
    assert all[..k][..|es|] == es;
    assert Run(c, all[..k]).requests[id].calls == [CanceledError];
    RequestsOnlyGoForward(c, all, k, id);
  }

  // -------- the scan --------

  predicate WedgedIn(c: Config, s: State, time: int, id: nat) {
    id in s.requests && IsWedged(c, time, s.requests[id])
  }

  /** The wedged ones among some ids. */
  function WedgedAmong(c: Config, s: State, time: int, ids: seq<nat>): seq<nat> {
    Filter(ids, (id: nat) => WedgedIn(c, s, time, id))
  }

  ghost predicate Ahead(s: State, scan: Scan) {
    && scan.at <= |scan.order| && NoDup(scan.order)
    && (forall id :: id in scan.order ==> id in s.requests)
  }

  ghost predicate Behind(c: Config, s: State, scan: Scan)
    requires scan.at <= |scan.order|
  {
    && (forall id :: id in scan.order[..scan.at] && id in s.table ==> !WedgedIn(c, s, scan.time, id))
    && scan.canceled == WedgedAmong(c, s, scan.time, scan.order[..scan.at])
  }

  ghost predicate AllCanceled(s: State, scan: Scan) {
    forall id :: id in scan.canceled ==> id in s.requests && s.requests[id].calls == [CanceledError]
  }

  /** What the scan has looked at is canceled when wedged. */
  ghost predicate ScanInv(c: Config, s: State) {
    s.scan.Some? ==> Ahead(s, s.scan.value) && Behind(c, s, s.scan.value) && AllCanceled(s, s.scan.value)
  }

  /** Timestamps do not change, so a scan's verdicts do not either. */
  lemma {:induction false} SameVerdicts(c: Config, s: State, t: State, time: int, ids: seq<nat>)
    requires Later(s, t) && forall id :: id in ids ==> id in s.requests
    ensures forall id :: id in ids ==> (WedgedIn(c, s, time, id) <==> WedgedIn(c, t, time, id))
    ensures WedgedAmong(c, s, time, ids) == WedgedAmong(c, t, time, ids)
  {
    if ids != [] {
      var init := ids[..|ids| - 1];
      SameVerdicts(c, s, t, time, init);
      assert ids == init + [ids[|init|]];
      assert ids[|init|] in s.requests;
    }
  }

  /** No event puts a request back into the table. */
  lemma NeverPutBack(c: Config, s: State, e: Event, id: nat)
    requires TableInv(c, s) && id in s.requests
    ensures id in Step(c, s, e).table ==> id in s.table
  {
    StepIsLater(c, s, e);
    StepKeepsTable(c, s, e);
  }

  lemma StaysCanceled(c: Config, s: State, e: Event, id: nat)
    requires TableInv(c, s) && id in s.requests && s.requests[id].calls == [CanceledError]
    ensures id in Step(c, s, e).requests && Step(c, s, e).requests[id].calls == [CanceledError]
  {
    StepIsLater(c, s, e);
    StepKeepsTable(c, s, e);
    assert Sound(Step(c, s, e).requests[id]);
  }

  predicate FromOutside(e: Event) {
    e.Send? || e.On? || e.Refuse? || e.Destroy?
  }

  lemma OutsideKeepsList(c: Config, s: State, e: Event)
    requires FromOutside(e)
    ensures Step(c, s, e).scan == s.scan
  {
  }

  lemma OutsideKeepsScan(c: Config, s: State, e: Event)
    requires TableInv(c, s) && ScanInv(c, s) && s.scan.Some? && FromOutside(e)
    ensures ScanInv(c, Step(c, s, e))
  {
    var t, scan := Step(c, s, e), s.scan.value;
    StepIsLater(c, s, e);
    OutsideKeepsList(c, s, e);
    SameVerdicts(c, s, t, scan.time, scan.order[..scan.at]);
    forall id | id in scan.order[..scan.at] && id in t.table ensures !WedgedIn(c, t, scan.time, id) {
      NeverPutBack(c, s, e, id);
    }
    forall id | id in scan.canceled ensures id in t.requests && t.requests[id].calls == [CanceledError] {
      StaysCanceled(c, s, e, id);
    }
  }

  /** What looking at the next id does to the list and to the table. */
  lemma LookAtMoves(c: Config, s: State)
    requires TableInv(c, s) && Enabled(s, ScanNext)
    ensures var t, scan := LookAt(c, s), s.scan.value;
            var wedged := IsWedged(c, scan.time, s.requests[scan.order[scan.at]]);
            && t.scan == Some(scan.(at := scan.at + 1,
                                    canceled := scan.canceled + (if wedged then [scan.order[scan.at]] else [])))
            && t.table == (if wedged then s.table - {scan.order[scan.at]} else s.table)
  {
    var id := s.scan.value.order[s.scan.value.at];
    assert (s.table - {id}) - {id} == s.table - {id};
    assert s.scan.value.canceled + [] == s.scan.value.canceled;
  }

  lemma CancelsItsRequest(c: Config, s: State)
    requires TableInv(c, s) && Enabled(s, ScanNext)
    requires s.scan.value.order[s.scan.value.at] in s.table
    requires IsWedged(c, s.scan.value.time, s.requests[s.scan.value.order[s.scan.value.at]])
    ensures LookAt(c, s).requests[s.scan.value.order[s.scan.value.at]].calls == [CanceledError]
  {
    var r := s.requests[s.scan.value.order[s.scan.value.at]];
    assert Sound(r) && r.calls == [];
  }

  /** One more id of the list is behind the scan. */
  lemma NextOfList(scan: Scan)
    requires scan.at < |scan.order| && NoDup(scan.order)
    ensures var id := scan.order[scan.at];
            && scan.order[..scan.at + 1] == scan.order[..scan.at] + [id]
            && scan.order[scan.at..] == [id] + scan.order[scan.at + 1..]
            && id !in scan.order[scan.at + 1..]
  {
  }

  lemma LookAtKeepsAhead(c: Config, s: State)
    requires TableInv(c, s) && Enabled(s, ScanNext) && Ahead(s, s.scan.value)
    ensures Ahead(LookAt(c, s), LookAt(c, s).scan.value)
  {
    LookAtMoves(c, s);
    NextOfList(s.scan.value);
    ScanIsLater(c, s);
  }

  lemma LookAtKeepsBehind(c: Config, s: State)
    requires TableInv(c, s) && Enabled(s, ScanNext) && Ahead(s, s.scan.value) && Behind(c, s, s.scan.value)
    ensures LookAt(c, s).scan.value.at <= |LookAt(c, s).scan.value.order|
    ensures Behind(c, LookAt(c, s), LookAt(c, s).scan.value)
  {
    var t, scan := LookAt(c, s), s.scan.value;
    LookAtMoves(c, s);
    NextOfList(scan);
    ScanIsLater(c, s);
    SameVerdicts(c, s, t, scan.time, scan.order[..scan.at + 1]);
    assert scan.order[..scan.at + 1][..scan.at] == scan.order[..scan.at];
  }

  lemma LookAtKeepsCanceled(c: Config, s: State)
    requires TableInv(c, s) && Enabled(s, ScanNext) && Ahead(s, s.scan.value) && AllCanceled(s, s.scan.value)
    ensures AllCanceled(LookAt(c, s), LookAt(c, s).scan.value)
  {
    var t, scan := LookAt(c, s), s.scan.value;
    var next := scan.order[scan.at];
    LookAtMoves(c, s);
    NextOfList(scan);
    forall id | id in t.scan.value.canceled ensures id in t.requests && t.requests[id].calls == [CanceledError] {
      if id in scan.canceled {
        StaysCanceled(c, s, ScanNext, id);
      } else {
        CancelsItsRequest(c, s);
      }
    }
  }

  lemma BeginningKeepsScan(c: Config, s: State, e: Event)
    requires TableInv(c, s) && ScanInv(c, s) && (e.ScanBegin? || e.TimerFires?)
    ensures ScanInv(c, Step(c, s, e))
  {
    assert e.order[..0] == [] && e.order[0..] == e.order;
  }

  lemma StepKeepsScan(c: Config, s: State, e: Event)
    requires TableInv(c, s) && ScanInv(c, s)
    ensures ScanInv(c, Step(c, s, e))
  {
    if FromOutside(e) {
      OutsideKeepsList(c, s, e);
      if s.scan.Some? {
        OutsideKeepsScan(c, s, e);
      }
    } else if e.ScanNext? {
      if Enabled(s, e) {
        LookAtKeepsAhead(c, s);
        LookAtKeepsBehind(c, s);
        LookAtKeepsCanceled(c, s);
      }
    } else if e.ScanBegin? || e.TimerFires? {
      BeginningKeepsScan(c, s, e);
    }
  }

  lemma {:induction false} RunKeepsScan(c: Config, es: seq<Event>)
    ensures ScanInv(c, Run(c, es))
  {
    if es != [] {
      RunKeepsScan(c, es[..|es| - 1]);
      RunKeepsTable(c, es[..|es| - 1]);
      StepKeepsScan(c, Run(c, es[..|es| - 1]), es[|es| - 1]);
    }
  }

  /** When a scan ends, no request that was in the table when it began and is older than the timeout is left there, no
      matter what its callbacks sent meanwhile; it returns exactly those requests, in the order it listed them, each
      called back with the cancellation. */
  lemma ScanLeavesNoWedgedRequest(c: Config, es: seq<Event>)
    requires Enabled(Run(c, es), ScanEnd)
    ensures var s := Run(c, es); var scan := s.scan.value;
            && (forall id :: id in scan.order && id in s.table ==> !WedgedIn(c, s, scan.time, id))
            && scan.canceled == WedgedAmong(c, s, scan.time, scan.order)
            && (forall id :: id in scan.canceled ==>
                  id in s.requests && s.requests[id].calls == [CanceledError] && id !in s.table)
  {
    RunKeepsScan(c, es);
    RunKeepsTable(c, es);
    var scan := Run(c, es).scan.value;
    assert scan.order[..scan.at] == scan.order;
  }

  lemma OnlyScanEndEndsIt(c: Config, s: State, e: Event)
    requires s.scan.Some? && !e.ScanEnd? && !e.ScanFails?
    ensures var t := Step(c, s, e).scan;
            t.Some? && t.value.order == s.scan.value.order && t.value.time == s.scan.value.time
  {
  }

  lemma NextIsListed(c: Config, s: State)
    requires TableInv(c, s) && ScanInv(c, s) && HasNext(s)
    ensures NextId(s) in s.requests && NextId(s) !in s.scan.value.order[..s.scan.value.at]
    ensures Enabled(s, ScanFails) <==> s.requests[NextId(s)].calls != []
    ensures Enabled(s, ScanNext) <==> s.requests[NextId(s)].calls == []
  {
  }

  /** On every run, a scan fails at the next request it has listed exactly when that request was called back before, by
      something other than the scan; otherwise it goes on. */
  lemma ScanFailsIff(c: Config, es: seq<Event>)
    requires HasNext(Run(c, es))
    ensures var s := Run(c, es);
            && NextId(s) in s.requests
            && (Enabled(s, ScanFails) <==> s.requests[NextId(s)].calls != [])
            && (Enabled(s, ScanNext) <==> s.requests[NextId(s)].calls == [])
            && NextId(s) !in s.scan.value.order[..s.scan.value.at]
  {
    RunKeepsScan(c, es);
    RunKeepsTable(c, es);
    NextIsListed(c, Run(c, es));
  }

  /** And so canceling the request that any scan would look at next makes the scan fail. */
  lemma CancelingAheadFails(c: Config, es: seq<Event>, now: int)
    requires HasNext(Run(c, es))
    ensures NextId(Run(c, es)) in Run(c, es).requests
    ensures Enabled(Run(c, es + [On(NextId(Run(c, es)), Cancel(now))]), ScanFails)
  {
    var s := Run(c, es);
    RunKeepsScan(c, es);
    RunKeepsTable(c, es);
    assert (es + [On(NextId(s), Cancel(now))])[..|es|] == es;
    CanceledBefore(s.requests[NextId(s)], now);
  }

  lemma BeginningLists(c: Config, s: State, e: Event)
    requires (e.ScanBegin? || e.TimerFires?) && Enabled(s, e)
    ensures var t := Step(c, s, e).scan; t.Some? ==> Lists(t.value.order, s.table) && t.value.time == e.time
  {
  }

  /** The list a scan works through is the table as it was when the scan began. */
  lemma {:induction false} ScanListsTheTable(c: Config, es: seq<Event>, k: nat)
    requires k < |es| && (es[k].ScanBegin? || es[k].TimerFires?) && Enabled(Run(c, es[..k]), es[k])
    requires forall i :: k < i < |es| ==> !es[i].ScanEnd? && !es[i].ScanFails?
    requires Run(c, es[..k + 1]).scan.Some?
    ensures Run(c, es).scan.Some? && Lists(Run(c, es).scan.value.order, Run(c, es[..k]).table)
    ensures Run(c, es).scan.value.time == es[k].time
    decreases |es|
  {
    var init := es[..|es| - 1];
    if k + 1 == |es| {
      assert es[..k + 1] == es && init == es[..k];
      BeginningLists(c, Run(c, init), es[k]);
    } else {
      assert init[..k] == es[..k] && init[..k + 1] == es[..k + 1];
      ScanListsTheTable(c, init, k);
      OnlyScanEndEndsIt(c, Run(c, init), es[|es| - 1]);
    }
  }

  // -------- the wedge timer --------

  predicate Scanning(s: State) {
    s.scan.Some? && s.scan.value.byTimer
  }

  predicate TimerInv(s: State) {
    && s.liveTimers + (if Scanning(s) then 1 else 0) + s.failures <= 1
    && (s.wedgedTimer && !s.destroyed ==> s.liveTimers + (if Scanning(s) then 1 else 0) + s.failures == 1)
    && (s.nextId > 0 ==> s.wedgedTimer)
    && (!s.wedgedTimer ==> s.liveTimers == 0 && !Scanning(s) && s.failures == 0)
  }

  lemma StepKeepsTimer(c: Config, s: State, e: Event)
    requires TimerInv(s)
    ensures TimerInv(Step(c, s, e))
  {
    if Enabled(s, e) && e.ScanNext? {
      var t, scan := LookAt(c, s), s.scan.value;
      assert t.scan.Some? && t.scan.value.byTimer == scan.byTimer;
    }
  }

  lemma {:induction false} RunKeepsTimer(c: Config, es: seq<Event>)
    ensures TimerInv(Run(c, es))
  {
    if es != [] {
      RunKeepsTimer(c, es[..|es| - 1]);
      StepKeepsTimer(c, Run(c, es[..|es| - 1]), es[|es| - 1]);
    }
  }

  /** From the first request until the client is destroyed, exactly one wedge timeout is pending or its scan in progress
      if no scan by the timer has failed, and none if one has; there is never more than one. */
  lemma OneWedgeTimer(c: Config, es: seq<Event>)
    ensures var s := Run(c, es);
            && s.liveTimers + (if Scanning(s) then 1 else 0) + s.failures <= 1
            && (s.nextId > 0 && !s.destroyed ==>
                  (s.liveTimers == 1 || Scanning(s) <==> s.failures == 0) && !(s.liveTimers == 1 && Scanning(s)))
  {
    RunKeepsTimer(c, es);
  }

  lemma FailuresStay(c: Config, s: State, e: Event)
    ensures Step(c, s, e).failures >= s.failures
  {
  }

  lemma OneEventMore(c: Config, es: seq<Event>)
    requires es != []
    ensures Run(c, es).failures >= Run(c, es[..|es| - 1]).failures
  {
    FailuresStay(c, Run(c, es[..|es| - 1]), es[|es| - 1]);
  }

  lemma {:induction false} FailuresOnlyGrow(c: Config, es: seq<Event>, k: nat)
    requires k <= |es|
    ensures Run(c, es).failures >= Run(c, es[..k]).failures
    decreases |es|
  {
    if k == |es| {
      assert es[..k] == es;
    } else {
      var init := es[..|es| - 1];
      assert init[..k] == es[..k];
      FailuresOnlyGrow(c, init, k);
      OneEventMore(c, es);
    }
  }

  lemma FailureStopsTimer(s: State)
    requires TimerInv(s) && s.failures > 0
    ensures s.failures == 1 && s.liveTimers == 0 && !Scanning(s)
  {
  }

  /** After a scan by the timer has failed there is no wedge timeout ever again. */
  lemma FailedScanIsTheLast(c: Config, es: seq<Event>, k: nat)
    requires k <= |es| && Run(c, es[..k]).failures > 0
    ensures Run(c, es).failures == 1 && Run(c, es).liveTimers == 0 && !Scanning(Run(c, es))
  {
    FailuresOnlyGrow(c, es, k);
    RunKeepsTimer(c, es);
    FailureStopsTimer(Run(c, es));
  }

  predicate Stopped(s: State) {
    s.destroyed && s.wedgedTimer && s.liveTimers == 0 && !Scanning(s)
  }

  lemma StaysStopped(c: Config, s: State, e: Event)
    requires Stopped(s)
    ensures Stopped(Step(c, s, e))
  {
    if Enabled(s, e) && e.ScanNext? {
      assert LookAt(c, s).scan.value.byTimer == s.scan.value.byTimer;
    }
  }

  /** Once it is destroyed, outside a scan by the timer and after its first request, the client never has a wedge
      timeout again, nor a scan by one. */
  lemma {:induction false} DestroyIsFinal(c: Config, es: seq<Event>, more: seq<Event>)
    requires Run(c, es).nextId > 0 && !Scanning(Run(c, es))
    ensures var s := Run(c, es + [Destroy] + more); s.liveTimers == 0 && !Scanning(s) && Stopped(s)
  {
    if more == [] {
      RunKeepsTimer(c, es);
      Unfold(c, es, Destroy);
      assert es + [Destroy] + more == es + [Destroy];
    } else {
      var before, e := more[..|more| - 1], more[|more| - 1];
      DestroyIsFinal(c, es, before);
      assert es + [Destroy] + more == es + [Destroy] + before + [e];
      Unfold(c, es + [Destroy] + before, e);
      StaysStopped(c, Run(c, es + [Destroy] + before), e);
    }
  }

  /** A wedge timeout that fires after it does nothing, and another begins a scan. */
  lemma TimeoutBegins(c: Config, s: State, time: int, order: seq<nat>)
    requires Enabled(s, TimerFires(time, order))
    ensures var t := Step(c, s, TimerFires(time, order));
            && t.liveTimers == s.liveTimers - 1 && SameTable(s, t)
            && (t.scan.None? <==> s.destroyed)
  {
  }

  /** A scan that has looked at n requests without a break. */
  function Looked(c: Config, s: State, n: nat): State {
    if n == 0 then s
    else
      var t := Looked(c, s, n - 1);
      if Enabled(t, ScanNext) then LookAt(c, t) else t
  }

  lemma LookedNext(c: Config, s: State, n: nat, t: State)
    requires t == Looked(c, s, n) && Enabled(t, ScanNext)
    ensures LookAt(c, t) == Looked(c, s, n + 1)
  {
  }

  /** A whole scan without a break. */
  function Scanned(c: Config, s: State, time: int, order: seq<nat>, byTimer: bool): State {
    Looked(c, Begun(s, time, order, byTimer), |order|)
  }

  /** Scanning without a break is running the events of the scan. */
  lemma {:induction false} LookedIsARun(c: Config, es: seq<Event>, n: nat)
    ensures Run(c, es + seq(n, _ => ScanNext)) == Looked(c, Run(c, es), n)
  {
    if n == 0 {
      assert es + seq(n, _ => ScanNext) == es;
    } else {
      var before := es + seq(n - 1, _ => ScanNext);
      LookedIsARun(c, es, n - 1);
      assert es + seq(n, _ => ScanNext) == before + [ScanNext];
      assert Run(c, before + [ScanNext]) == Step(c, Run(c, before), ScanNext) by {
        assert (before + [ScanNext])[..|before|] == before;
      }
      StepLooks(c, Looked(c, Run(c, es), n - 1));
    }
  }

  lemma StepLooks(c: Config, s: State)
    ensures Step(c, s, ScanNext) == if Enabled(s, ScanNext) then LookAt(c, s) else s
  {
  }

  // -------- the classes --------

  class ClientRequest {
    const id: nat
    const timestamp: int
    var state: nat
    var cancelTimestamp: Option<int>
    var hasCallback: bool
    ghost var stage: Stage
    ghost var attempts: seq<Outcome>
    ghost var calls: seq<Outcome>

    ghost function Abstract(): Request
      reads this
    {
      Request(timestamp, state, cancelTimestamp, hasCallback, stage, attempts, calls)
    }

    constructor (id: nat, now: int)
      ensures Abstract() == Request(now, INITIALIZED, None, true, Tick, [], []) && this.id == id
    {
      this.id, timestamp := id, now;
      state, cancelTimestamp, hasCallback := INITIALIZED, None, true;
      stage, attempts, calls := Tick, [], [];
    }

    /** Runs the callback unless it was run before. */
    method InvokeCallback(outcome: Outcome) returns (invoked: bool)
      modifies this
      ensures Abstract() == Invoked(old(Abstract()), outcome)
      ensures invoked == old(hasCallback)
    {
      invoked := hasCallback;
      attempts, calls := attempts + [outcome], calls + (if hasCallback then [outcome] else []);
      hasCallback := false;
    }

    method Send(sendable: bool)
      requires Abstract() == Request(timestamp, INITIALIZED, None, true, Tick, [], [])
      modifies this
      ensures Abstract() == Sent(timestamp, sendable)
    {
      if !sendable {
        return;
      }
      state, stage := WAIT_FOR_IDENTIFIED_PRE, Identification;
    }

    method OnIdentified(error: Option<string>) returns (invoked: bool)
      modifies this
      ensures Abstract() == Next(old(Abstract()), Identified(error))
      ensures invoked <==> calls != old(calls)
    {
      state, stage := WAIT_FOR_IDENTIFIED_POST, Nobody;
      if cancelTimestamp.Some? {
        return false;
      }
      if error.Some? {
        invoked := InvokeCallback(NotIdentified(error.value));
        return;
      }
      stage := RequestMiddleware;
      return false;
    }

    /** The channel's answer: it goes on to the response middlewares unless the request was canceled. */
    method OnSend()
      modifies this
      ensures Abstract() == Next(old(Abstract()), Completed)
    {
      state, stage := SUB_CHANNEL_REQUEST_POST, Nobody;
      if cancelTimestamp.Some? {
        return;
      }
      stage := ResponseMiddleware;
    }

    method Cancel(now: int) returns (invoked: bool)
      modifies this
      ensures Abstract() == Next(old(Abstract()), Happening.Cancel(now))
      ensures invoked <==> calls != old(calls)
    {
      cancelTimestamp := Some(now);
      invoked := InvokeCallback(CanceledError);
    }

    /** Handles whatever happens to this request. */
    method Handle(what: Happening) returns (invoked: bool)
      modifies this
      ensures Abstract() == Next(old(Abstract()), what)
      ensures invoked <==> calls != old(calls)
    {
      match what
      case Ticked =>
        stage := Nobody;
        invoked := InvokeCallback(LocalError);
      case Identified(error) =>
        invoked := OnIdentified(error);
      case Forwarded =>
        state, stage := SUB_CHANNEL_REQUEST_PRE, Channel;
        invoked := false;
      case Completed =>
        OnSend();
        invoked := false;
      case Returned(error, response) =>
        stage := Nobody;
        invoked := InvokeCallback(Answered(error, response));
      case Cancel(now) =>
        invoked := Cancel(now);
    }
  }

  class RingpopClient {
    const config: Config
    var requestsById: map<nat, ClientRequest>
    var nextId: nat
    var wedgedTimer: bool
    var isDestroyed: bool
    ghost var all: map<nat, ClientRequest>
    var rejected: map<nat, Rejection>
    ghost var scan: Option<Scan>
    ghost var liveTimers: nat
    ghost var failures: nat

    ghost function Requests(): map<nat, Request>
      reads `all, all.Values
    {
      map id | id in all :: all[id].Abstract()
    }

    ghost function Abstract(): State
      reads this, all.Values
    {
      State(Requests(), requestsById.Keys, rejected, nextId, scan, wedgedTimer, liveTimers, failures, isDestroyed)
    }

    /** Every request object is filed under its own id, in `all` and, while in flight, in the table. */
    ghost predicate Valid()
      reads this, all.Values
    {
      && (forall id :: id in all ==> all[id].id == id && id < nextId)
      && (forall id :: id in requestsById ==> id in all && requestsById[id] == all[id])
    }

    constructor (config: Config)
      ensures Valid() && Abstract() == EMPTY && this.config == config && all == map[]
    {
      this.config := config;
      requestsById, nextId, wedgedTimer, isDestroyed := map[], 0, false, false;
      all, rejected, scan, liveTimers, failures := map[], map[], None, 0, 0;
    }

    method ScheduleWedgedTimer()
      modifies `wedgedTimer, `liveTimers
      ensures wedgedTimer && liveTimers == old(liveTimers) + 1
    {
      wedgedTimer, liveTimers := true, liveTimers + 1;
    }

    method File(request: ClientRequest)
      requires Valid() && request.id == nextId && request !in all.Values
      modifies `requestsById, `all, `nextId
      ensures Valid() && all == old(all)[request.id := request]
      ensures Requests() == old(Requests())[request.id := request.Abstract()]
      ensures requestsById.Keys == old(requestsById).Keys + {request.id} && nextId == old(nextId) + 1
    {
      requestsById := requestsById[request.id := request];
      all := all[request.id := request];
      nextId := nextId + 1;
    }

    method SendFiled(request: ClientRequest, sendable: bool)
      requires Valid() && request.id in all && all[request.id] == request
      requires request.Abstract() == Request(request.timestamp, INITIALIZED, None, true, Tick, [], [])
      modifies request
      ensures Valid() && Requests() == old(Requests())[request.id := Sent(request.timestamp, sendable)]
    {
      ghost var was := Requests();
      request.Send(sendable);
      assert forall id :: id in all && id != request.id ==> all[id].Abstract() == was[id];
      assert Requests() == was[request.id := request.Abstract()];
    }

    /** Files a request in the table just before it is sent. */
    method Enroll(request: ClientRequest, sendable: bool)
      requires Valid() && request.id == nextId && request !in all.Values
      requires request.Abstract() == Request(request.timestamp, INITIALIZED, None, true, Tick, [], [])
      modifies `requestsById, `all, `nextId, request
      ensures Valid() && all == old(all)[request.id := request]
      ensures Abstract()
              == old(Abstract()).(requests := old(Requests())[request.id := Sent(request.timestamp, sendable)],
                                  table := old(requestsById).Keys + {request.id}, nextId := old(nextId) + 1)
    {
      ghost var was := Requests();
      File(request);
      ghost var now := Requests();
      SendFiled(request, sendable);
      var sent := Sent(request.timestamp, sendable);
      assert now[request.id := sent] == was[request.id := sent];
    }

    /** Files the request only to be told of the limit on the next tick. */
    method Reject()
      requires Valid() && |requestsById.Keys| >= config.limit
      modifies `rejected, `nextId
      ensures Valid() && forall r :: Abstract() == Register(config, old(Abstract()), r)
    {
      rejected := rejected[nextId := Rejection(|requestsById.Keys|, true, [])];
      nextId := nextId + 1;
    }

    /** The next tick of a rejected request. */
    method OnLimitTick(id: nat) returns (outcome: Outcome)
      requires Valid() && id in rejected && rejected[id].waiting
      modifies `rejected
      ensures Valid() && Abstract() == Step(config, old(Abstract()), Refuse(id))
      ensures outcome == LimitError(old(rejected)[id].inflight, config.limit)
      ensures rejected[id].calls == old(rejected)[id].calls + [outcome]
    {
      var r := rejected[id];
      outcome := LimitError(r.inflight, config.limit);
      rejected := rejected[id := r.(waiting := false, calls := r.calls + [outcome])];
    }

    method Admit(now: int, sendable: bool) returns (request: ClientRequest, admitted: bool)
      requires Valid()
      modifies `requestsById, `all, `rejected, `nextId
      ensures Valid() && Abstract() == Register(config, old(Abstract()), Sent(now, sendable))
      ensures fresh(request) && all == (if admitted then old(all)[request.id := request] else old(all))
      ensures admitted <==> |old(requestsById)| < config.limit
    {
      request := new ClientRequest(nextId, now);
      assert Abstract() == old(Abstract());
      assert |requestsById| == |requestsById.Keys|;
      admitted := |requestsById| < config.limit;
      if admitted {
        Enroll(request, sendable);
      } else {
        Reject();
      }
    }

    /** Sends a request, or rejects it at the limit. */
    method Send(now: int, sendable: bool) returns (request: ClientRequest, admitted: bool)
      requires Valid()
      modifies this
      ensures Valid() && Abstract() == Step(config, old(Abstract()), Event.Send(now, sendable))
      ensures fresh(request) && all == (if admitted then old(all)[request.id := request] else old(all))
      ensures admitted <==> |old(requestsById)| < config.limit
    {
      if !wedgedTimer {
        ScheduleWedgedTimer();
      }
      request, admitted := Admit(now, sendable);
    }

    method Handle(request: ClientRequest, what: Happening) returns (invoked: bool)
      requires Valid() && request.id in all && all[request.id] == request
      modifies request
      ensures Valid() && Requests() == old(Requests())[request.id := Next(old(request.Abstract()), what)]
      ensures invoked <==> Next(old(request.Abstract()), what).calls != old(request.calls)
    {
      ghost var was := Requests();
      invoked := request.Handle(what);
      assert forall id :: id in all && id != request.id ==> all[id].Abstract() == was[id];
      assert Requests() == was[request.id := request.Abstract()];
    }

    method Delete(id: nat)
      requires Valid()
      modifies `requestsById
      ensures Valid() && Abstract() == old(Abstract()).(table := old(requestsById).Keys - {id})
    {
      requestsById := requestsById - {id};
    }

    /** Something happens to a request; if that runs its callback, the request leaves the table first. */
    method OnRequest(request: ClientRequest, what: Happening)
      requires Valid() && request.id in all && all[request.id] == request
      modifies `requestsById, request
      ensures Valid() && Abstract() == Happens(old(Abstract()), request.id, what)
    {
      var invoked := Handle(request, what);
      if invoked {
        Delete(request.id);
      }
    }

    method ListIds() returns (order: seq<nat>)
      ensures Lists(order, requestsById.Keys)
    {
      order := [];
      var ids := requestsById.Keys;
      while ids != {}
        invariant ids <= requestsById.Keys
        invariant Lists(order, requestsById.Keys - ids)
        decreases |ids|
      {
        var id :| id in ids;
        order, ids := order + [id], ids - {id};
      }
    }

    /** Takes a wedged request out of the table and cancels it. */
    method CancelWedged(request: ClientRequest, time: int)
      requires Valid() && request.id in all && all[request.id] == request
      modifies `requestsById, request
      ensures Valid() && Abstract() == Happens(old(Abstract()).(table := old(requestsById).Keys - {request.id}),
                                               request.id, Cancel(time))
      ensures requestsById.Keys == old(requestsById).Keys - {request.id}
    {
      Delete(request.id);
      ghost var keys := requestsById.Keys;
      OnRequest(request, Cancel(time));
      assert keys - {request.id} == keys;
    }

    /** Looks at the next request of the scan. */
    method LookAtNext(time: int, id: nat) returns (wedged: bool)
      requires Valid() && id in requestsById
      requires Enabled(Abstract(), ScanNext) && scan.value.time == time && scan.value.order[scan.value.at] == id
      modifies `requestsById, `scan, requestsById[id]
      ensures Valid() && Abstract() == LookAt(config, old(Abstract()))
      ensures wedged <==> IsWedged(config, time, old(Requests())[id])
      ensures requestsById.Keys == if wedged then old(requestsById).Keys - {id} else old(requestsById).Keys
      ensures scan == Some(old(scan).value.(at := old(scan).value.at + 1,
                                            canceled := old(scan).value.canceled + (if wedged then [id] else [])))
    {
      var request := requestsById[id];
      wedged := time - request.timestamp >= (if config.wedgedRequestTimeout != 0 then config.wedgedRequestTimeout
                                             else DEFAULT_WEDGED_REQUEST_TIMEOUT);
      if wedged {
        scan := Some(scan.value.(at := scan.value.at + 1, canceled := scan.value.canceled + [id]));
        CancelWedged(request, time);
      } else {
        assert scan.value.canceled + [] == scan.value.canceled;
        scan := Some(scan.value.(at := scan.value.at + 1));
      }
    }

    /** The first i requests of the list are done, and the others still in the table. */
    ghost predicate At(time: int, order: seq<nat>, i: nat)
      reads this
    {
      && scan.Some? && scan.value.time == time && scan.value.order == order && scan.value.at == i
      && NoDup(order) && forall k :: i <= k < |order| ==> order[k] in requestsById
    }

    method ScanOne(time: int, order: seq<nat>, i: nat, wedged: seq<nat>, ghost begun: State)
      returns (wedgedRequests: seq<nat>)
      requires Valid() && i < |order| && At(time, order, i) && Abstract() == Looked(config, begun, i)
      requires scan.value.canceled == wedged
      modifies `requestsById, `scan, all.Values
      ensures Valid() && At(time, order, i + 1) && Abstract() == Looked(config, begun, i + 1)
      ensures scan.value.canceled == wedgedRequests
    {
      ghost var was := Abstract();
      var isWedged := LookAtNext(time, order[i]);
      LookedNext(config, begun, i, was);
      wedgedRequests := if isWedged then wedged + [order[i]] else wedged;
    }

    method ScanAll(time: int, requestIds: seq<nat>) returns (wedgedRequests: seq<nat>)
      requires Valid() && At(time, requestIds, 0) && scan.value.canceled == []
      modifies `requestsById, `scan, all.Values
      ensures Valid() && scan.Some? && scan.value.canceled == wedgedRequests
      ensures Abstract() == Looked(config, old(Abstract()), |requestIds|)
    {
      wedgedRequests := [];
      ghost var begun := Abstract();
      for i := 0 to |requestIds|
        invariant Valid() && At(time, requestIds, i)
        invariant Abstract() == Looked(config, begun, i)
        invariant scan.value.canceled == wedgedRequests
      {
        wedgedRequests := ScanOne(time, requestIds, i, wedgedRequests, begun);
      }
    }

    method BeginScan(time: int, ghost byTimer: bool) returns (requestIds: seq<nat>)
      requires Valid() && scan.None?
      modifies `scan
      ensures Valid() && Lists(requestIds, requestsById.Keys) && At(time, requestIds, 0) && scan.value.canceled == []
      ensures Abstract() == Begun(old(Abstract()), time, requestIds, byTimer)
    {
      requestIds := ListIds();
      scan := Some(Scan(time, requestIds, 0, [], byTimer));
    }

    /** Cancels every wedged request, looking at each request of the table once. */
    method ScanForWedgedRequests(time: int, ghost byTimer: bool)
      returns (wedgedRequests: seq<nat>, ghost order: seq<nat>)
      requires Valid() && scan.None?
      modifies `requestsById, `scan, all.Values
      ensures Valid() && Lists(order, old(requestsById).Keys)
      ensures var end := Scanned(config, old(Abstract()), time, order, byTimer);
              Abstract() == end.(scan := None) && end.scan.Some? && wedgedRequests == end.scan.value.canceled
    {
      var requestIds := BeginScan(time, byTimer);
      order := requestIds;
      wedgedRequests := ScanAll(time, requestIds);
      scan := None;
    }

    /** The wedge timeout: scans, and schedules itself again, unless the client was destroyed. */
    method OnWedgedTimeout(time: int) returns (ghost order: seq<nat>)
      requires Valid() && scan.None? && liveTimers > 0
      modifies this, all.Values
      ensures Valid() && Lists(order, old(requestsById).Keys)
      ensures var t := old(Abstract()).(liveTimers := old(liveTimers) - 1);
              Abstract() ==
              if old(isDestroyed) then t
              else Schedule(Scanned(config, t, time, order, true).(scan := None))
    {
      liveTimers := liveTimers - 1;
      if isDestroyed {
        order := ListIds();
        return;
      }
      order := ScanAndReschedule(time);
    }

    method ScanAndReschedule(time: int) returns (ghost order: seq<nat>)
      requires Valid() && scan.None?
      modifies this, all.Values
      ensures Valid() && Lists(order, old(requestsById).Keys)
      ensures Abstract() == Schedule(Scanned(config, old(Abstract()), time, order, true).(scan := None))
    {
      var wedgedRequests;
      wedgedRequests, order := ScanForWedgedRequests(time, true);
      ScheduleWedgedTimer();
    }

    method Destroy()
      modifies `liveTimers, `isDestroyed
      ensures Abstract() == Step(config, old(Abstract()), Event.Destroy)
    {
      liveTimers, isDestroyed := 0, true;
    }
  }
}
