# Ringpop and Skyring, modelled and proved in Dafny

`ringpop` is a SWIM-style membership and gossip layer for Node.js; `skyring` keeps durable timers on top of it. This
project models their stateful protocol pieces and proves what each of them keeps over every run.

Nearly all of them are small state machines driven by interleaved callbacks: replies, errors, timeouts, storage
completions, ticks. Each has a module of its own, written the same way:

* `State`, `Event` and `Step` say what one callback does, and `Run` what a sequence of them does; `Legal` or `Enabled`
  says which sequences the environment can produce (a request is answered at most once, a timeout fires once).
* Reference functions read off the sequence of events alone what the state should be: the last handled status of an
  address, the number of times a change was issued, the good replies so far.
* Lemmas prove that the state agrees with the reference on every run, and the main properties follow.
* A class with the source's own fields does the work step by step. Each of its methods ensures that the abstract state
  after it is `Step` of the abstract state before it, so the lemmas about runs are about the class.

| file | models |
|---|---|
| `Basics.dfy` | options, filtering, sequences without repetition |
| `Delays.dfy`, `BackoffPolicy.dfy`, `DiscoverProviders.dfy` | fuzzed exponential delays, the retry policy, the retrying discover provider |
| `DampFanout.dfy`, `DampSelection.dfy`, `DamperTables.dfy` | the damp-req quorum, the damp decision, the flapper and damped-member tables |
| `JoinRounds.dfy`, `Joining.dfy` | sampling join targets in rounds, joining in parallel groups with retries |
| `Dissemination.dfy` | the table of changes and its piggyback counters |
| `StateTransitions.dfy`, `MembershipHandlers.dfy` | the per-address transition timers; how ring, timers and gossip follow one stream of updates |
| `SkyringTimer.dfy` | map, store and live timeouts of durable timers; rebalance, recovery, shutdown |
| `Client.dfy` | the in-flight table, its requests, and the scan for wedged requests |
| `SelfEviction.dfy` | the phases of self-eviction with their barriers |
| `KeyTree.dfy`, `KeyCase.dfy` | the key-case conversions of nested values |

`dafny verify dfyconfig.toml` checks the whole project.

## Findings

Where a property one would expect is false of the code, the model keeps the code and proves when it holds:

* A join can be left with no callback, no request and no timer, because it selected an empty group. No run ends like
  that if and only if ringpop is destroyed when `join` is called, or this node is the whole bootstrap list, or
  1 <= joinSize <= number of distinct other hosts and the parallelism is not 0 (`Joining.NeverStuckIff`). Repeated
  bootstrap hosts are the case to watch: joinSize is capped by their number with repetitions, while a new round leaves
  out every copy of a joined host. Within a round the copies that are left are asked again
  (`Joining.RepeatedHostIsJoinedTwice`).
* A late acknowledgement spares a newer change exactly when every change of its list at that address has another id
  (`Dissemination.LateAckSparesNewerChangeIff`). Changes taken from join responses have none, and two missing ids are
  equal (`Dissemination.WithoutIdsTheNewerChangeIsBumped`).
* Full syncs raise the counter of a change that a sender can be filtered for and that has no id past every bound
  (`Dissemination.FullSyncsRaiseWithoutBound`), and nothing else does (`Dissemination.CountersAreBounded`,
  `Dissemination.LiftedPastMaximumIff`). The source builds no such change: one of its own has an id, and a member of a
  full sync has no source incarnation number, so only a message of another implementation can carry it. Without it
  no counter goes past the bound, whatever the ids (`Dissemination.CountersStayWithin`).
* A good reply to a damp-req whose body cannot be parsed makes the handler throw after it has counted the reply. The
  fan-out is then never called back exactly when there are fewer than rVal good replies and those up to the last one
  with a body or an error leave the quorum open (`DampFanout.NeverCalledBackIff`, `DampFanout.BlankReplyIsNotReported`).
* A second `create` of an id whose put is pending leaves two live timeouts; a completing put does so exactly when the
  id has an entry whose timeout is live (`SkyringTimer.SecondPutLeaksIff`, `SkyringTimer.TwoPendingPutsLeak`).
* A put that is pending when its node shuts down is not handed over, and arms its timeout on the node that leaves
  (`SkyringTimer.ShutdownRequestsIff`, `SkyringTimer.PutAfterShutdownIsArmed`).
* A scan for wedged requests throws exactly when a request it has listed is called back before it gets there, as by a
  callback of the scan itself (`Client.ScanFailsIff`, `Client.CancelingAheadFails`). When the timer began that scan, the
  wedge timeout is never set again (`Client.FailedScanIsTheLast`).
* The ring handler adds before it removes, so the ring follows the last status after a batch exactly when the batch
  removes no address that its last update adds (`MembershipHandlers.RingFollowsUpdatedIff`). One batch with a member
  reported faulty and then alive again breaks it (`MembershipHandlers.RevivedMemberIsOffTheRing`); membership accepts
  both updates, since each has a higher incarnation number.
* The handler of initial members never removes, so there the ring follows exactly when there is nothing to remove
  (`MembershipHandlers.RingFollowsSetIff`). `membership.set` runs it once, on updates merged to one for each address
  and none for this node, where that holds (`MembershipHandlers.MergedMembersHaveNothingToRemove`).
* `destroy` stops the damper's timers and keeps its tables. The damp timer then stays off until there are no flappers,
  and the expiration timer until a member is damped or none is (`DamperTables.TimersFollowTablesIff`); after either,
  the timers start again although the damper is destroyed.
* A transition that fires carries the incarnation number of the first update in the row that scheduled it, not of the
  last (`StateTransitions.NoStaleTransition`, `StateTransitions.FirstOfTheRowIsCarried`).
* Self-eviction is meant never to ping more members than the limit of the change table, but a negative ratio of members
  to ping counts from the back of the list: a ratio of -0.5 pings five of ten members with a limit of one
  (`SelfEviction.NegativeRatioPingsPastTheLimit`). The limit is kept exactly when the ratio is not negative, or its share
  of the members is above -1, or so few members are left that they are within it (`SelfEviction.PingsKeepToLimitIff`).
* `toCamelCase` undoes `toSnakeCase` and `toLispCase` exactly for keys without adjacent capitals and without a separator
  before a lower-case letter; snake case also loses a capital at the start, and the key `_Proto__`, which becomes the
  name of the prototype (`KeyCase.RoundTrip`, `KeyCase.SnakeCaseLosesProto`).

## Model

| member | source | states |
|---|---|---|
| DampFanout.RunMatchesCounts | packages/ringpop/lib/gossip/damper.js:421-467 | After every prefix of replies, the shared counters and lists are exactly the numbers of good and bad replies while the fan-out is open, and the callback has run as the replies so far decide. |
| DampFanout.QuorumOutcome | packages/ringpop/lib/gossip/damper.js:405-468 | For 1 <= rVal <= n and every interleaving of at most n replies, blank ones included: the callback has run with exactly the first rVal good replies if there are that many, with the errors so far if the replies up to the last one handled lose the quorum, and otherwise not at all; never both. Without blank replies the errors are exactly the first n-rVal+1, and after n replies it has run exactly once. |
| DampFanout.NeverCalledBackIff | packages/ringpop/lib/gossip/damper.js:429-466 | Once every member has replied, the callback has not run if and only if there are fewer than rVal good replies and those up to the last one that is not blank leave the quorum open. |
| DampFanout.BlankReplyIsNotReported | packages/ringpop/lib/gossip/damper.js:440-446 | A run that shows it: the only member asked replies without an error and without a body. |
| DampFanout.DecidedAtOnce | packages/ringpop/lib/gossip/damper.js:450-465 | The reply that decides is the rVal-th good one, or the first one handled once the quorum is lost, which without blank replies is the (n-rVal+1)-th error: one reply earlier nothing was called. |
| DampFanout.OrderIrrelevant | packages/ringpop/lib/gossip/damper.js:405-468 | Whether the quorum is reached depends on the multiset of the replies only; without blank replies so does which side wins. |
| DampFanout.Fanout.constructor | packages/ringpop/lib/gossip/damper.js:421-423 | A fan-out starts with all requests pending and nothing collected. |
| DampFanout.Fanout.OnDampReq | packages/ringpop/lib/gossip/damper.js:429-466 | Each reply takes the shared variables from one state of the event model to the next and reports what the callback ran with, if it did; a blank reply is only counted. |
| DampSelection.GroupDampScoresByFlapper | packages/ringpop/lib/gossip/damper.js:68-87 | The nested loop builds, for every member with a score in any response, its scores response by response, with distinct keys and no empty group; responses without a list of scores add nothing. |
| DampSelection.AddResponse | packages/ringpop/lib/gossip/damper.js:71-83 | One response adds exactly its own scores to the groups. |
| DampSelection.PushScores | packages/ringpop/lib/gossip/damper.js:77-83 | The inner loop appends the scores of one response in order. |
| DampSelection.PushScore | packages/ringpop/lib/gossip/damper.js:80-82 | One score goes to the end of its member's group and to no other, creating the group when it is the first. |
| DampSelection.FindFlappersToDamp | packages/ringpop/lib/gossip/damper.js:89-113 | The result has no repetition and holds exactly the keys with at least rVal scores that all reach the limit. |
| DampSelection.HaveAllScoresExceededLimit | packages/ringpop/lib/gossip/damper.js:108-112 | True if and only if every score is at or over the limit. |
| DampSelection.GetMembersToDamp | packages/ringpop/lib/gossip/damper.js:117-121 | The list has no repetition and holds a member if and only if its scores over all responses number at least one and at least rVal and every one reaches the suppress limit. |
| DampSelection.ScoresKeepUnderReordering | packages/ringpop/lib/gossip/damper.js:68-87 | The same responses in another order give each member the same multiset of scores. |
| DampSelection.DecisionIgnoresOrder | packages/ringpop/lib/gossip/damper.js:89-121 | Who is damped is the same for every order of the responses. |
| DampSelection.DampedHasQuorum | packages/ringpop/lib/gossip/damper.js:89-121 | With one score per member per response, when all of a member's scores reach the limit their number is the number of responders that reported it at or over the limit, so rVal scores are rVal such responders. |
| DampSelection.EveryResponseOverLimit | packages/ringpop/lib/gossip/damper.js:89-121 | With one score per member per response, a member has as many scores as there are responses and all reach the limit if and only if every response reports it at or over the limit. |
| DampSelection.DampedOnlyByQuorum | packages/ringpop/lib/gossip/damper.js:346-361 | From the replies to the decision: if the fan-out reaches its quorum, a member is selected if and only if every one of the first rVal good replies reports it at or over the limit. |
| DampSelection.DampedIff | packages/ringpop/lib/gossip/damper.js:89-121 | A member is damped if and only if some reply reports a score for it, its scores are at least rVal, and no reply reports one below the limit. |
| DampSelection.ScoresAreReported | packages/ringpop/lib/gossip/damper.js:68-87 | A member has a score if and only if some reply reports it, whatever list it stands in. |
| DamperTables.EveryRun | packages/ringpop/lib/gossip/damper.js:129-250 | On every run flappers and damped members are disjoint and a timer is set only while its table is not empty; without destroy each timer is set exactly while its table is not empty; and 100*(damped-1) < percentage*members whenever anybody is damped, for any bound on the member counts seen. |
| DamperTables.TimersFollowTablesIff | packages/ringpop/lib/gossip/damper.js:129-255 | On every run, with destroy wherever it comes: the damp timer is set if and only if there are flappers and no destroy came since there last were none; the expiration timer if and only if there are damped members and no destroy came since a member was last damped or there last were none. |
| DamperTables.TablesFollowEvents | packages/ringpop/lib/gossip/damper.js:129-250 | On every run the two tables say of each address exactly what its events say: added, removed, damped at that time while it flapped, was known and the damped members were below the percentage, and calm again once the suppression is over. |
| DamperTables.DampingOne | packages/ringpop/lib/gossip/damper.js:167-211 | Damping moves a known flapper from one table to the other if and only if the limit is not reached, and otherwise changes nothing. |
| DamperTables.ExpiryKeeps | packages/ringpop/lib/gossip/damper.js:213-250 | Expiry keeps the invariants of the tables and timers. |
| DamperTables.BatchDamps | packages/ringpop/lib/gossip/damper.js:359-361 | Damping a whole batch damps only members that it names, that are known and were flappers, at the time of the batch; everybody else keeps their place. |
| DamperTables.BatchStopsOnlyAtLimit | packages/ringpop/lib/gossip/damper.js:359-361 | A known flapper that the batch names is damped unless the limit was reached. |
| DamperTables.RoundDampsOnlyReportedFlappers | packages/ringpop/lib/gossip/damper.js:277-373 | A whole round, from the replies to the table: whoever it newly damps was a flapper, and every one of the first rVal good replies reported that member at or over the limit. |
| DamperTables.DestroyLeavesTableWithoutTimer | packages/ringpop/lib/gossip/damper.js:252-255 | A run that shows the difference: after destroy, adding a flapper to a table that is not empty starts no timer. |
| DamperTables.Damper.constructor | packages/ringpop/lib/gossip/damper.js:38-64 | Both tables are empty and no timer is set. |
| DamperTables.Damper.SetTimeout | packages/ringpop/lib/gossip/damper.js:505-515 | Every scheduled timeout gets a handle of its own. |
| DamperTables.Damper.AddFlapper | packages/ringpop/lib/gossip/damper.js:129-165 | Adds and returns true if and only if the address is in neither table; the first flapper starts the damp timer; refines the event model. |
| DamperTables.Damper.RemoveFlapper | packages/ringpop/lib/gossip/damper.js:375-403 | Removes and returns true if and only if the address is a flapper; the last one stops the timer; refines the event model. |
| DamperTables.Damper.DampMember | packages/ringpop/lib/gossip/damper.js:167-211 | Returns true if and only if the member is known, a flapper, and the limit is not reached; refines the event model. |
| DamperTables.Damper.OnFanout | packages/ringpop/lib/gossip/damper.js:359-371 | The loop over the selected members is the run of their damp events, followed by the end of the round. |
| DamperTables.Damper.DeleteExpired | packages/ringpop/lib/gossip/damper.js:216-227 | The loop deletes exactly the members damped at least the suppress duration ago, and reports exactly these with how long they were damped. |
| DamperTables.Damper.ExpireDampedMembers | packages/ringpop/lib/gossip/damper.js:213-250 | As before, and stops the timer if and only if that emptied the table; refines the event model. |
| DamperTables.Damper.OnExpirationTick | packages/ringpop/lib/gossip/damper.js:534-543 | The expiration timer reschedules itself exactly while members stay damped; refines the event model. |
| DamperTables.Damper.OnSubprotocol | packages/ringpop/lib/gossip/damper.js:508-513 | The damp timer reschedules itself exactly if it was not stopped during the round; refines the event model. |
| DamperTables.Damper.Destroy | packages/ringpop/lib/gossip/damper.js:252-255 | Both timers are stopped and the tables kept; refines the event model. |
| DamperTables.Damper.ValidateDampedClusterLimits | packages/ringpop/lib/gossip/damper.js:576-590 | True if and only if 100*damped < percentage*members. |
| DamperTables.Damper.InitiateSubprotocol | packages/ringpop/lib/gossip/damper.js:277-321 | A round asks nobody at the limit or with nobody to ask, and otherwise fans out with an r-value between 1 and the number of members asked. |
| JoinRounds.RandomIndexInRange | packages/ringpop/lib/gossip/joiner.js:56-56 | The random index of a draw in [0,1) is an index of the list. |
| JoinRounds.NewRoundPartitions | packages/ringpop/lib/gossip/joiner.js:123-165 | A new round's preferred and non-preferred nodes together are the potential nodes as multisets; they are exactly the bootstrap hosts other than this one and the joined ones, and are split by whether they are on another host. |
| JoinRounds.FillConserves | packages/ringpop/lib/gossip/joiner.js:427-449 | The selection loop ends, loses and adds no node, takes the preferred ones first, and stops only at its target or with nothing left. |
| JoinRounds.SelectionConserves | packages/ringpop/lib/gossip/joiner.js:412-450 | Group plus remaining nodes are, as multisets, what was available; the group has the target size or everything was taken; a preferred node is left only if no non-preferred one was taken. |
| JoinRounds.EmptyGroupIff | packages/ringpop/lib/gossip/joiner.js:412-450 | A selected group is empty if and only if its target is zero or nothing is available. |
| Joining.RunKeeps | packages/ringpop/lib/gossip/joiner.js:167-379 | On every run: at most one callback; a retry is pending exactly when the group is done and nothing was called back; the counters of the group agree with the requests answered; every node listed, asked or left is a bootstrap host other than this one. |
| Joining.StuckIsEmptyGroup | packages/ringpop/lib/gossip/joiner.js:324-379 | A started join can only be left with no callback, no request and no timer by selecting an empty group. |
| Joining.StuckAtGroupIff | packages/ringpop/lib/gossip/joiner.js:324-450 | Selecting a group leaves the join stuck if and only if its target is zero, or the round is exhausted and every other host is joined. |
| Joining.NeverStuck | packages/ringpop/lib/gossip/joiner.js:412-450 | When ringpop is destroyed by then, or this node is the whole bootstrap list, or 1 <= joinSize <= number of distinct other hosts and the parallelism is not 0, no run gets stuck; and in the last case no group is empty. |
| Joining.CoveredGetsStuck | packages/ringpop/lib/gossip/joiner.js:324-379 | When more nodes are to be joined than there are distinct hosts, a run that gets stuck continues every covered run. |
| Joining.NeverStuckIff | packages/ringpop/lib/gossip/joiner.js:167-450 | For every bootstrap list that the constructor accepts: no run of a join gets stuck if and only if ringpop is destroyed when it is called, or this node is the whole list, or 1 <= joinSize <= number of distinct other hosts and the parallelism is not 0. |
| Joining.NotStartedCallsBack | packages/ringpop/lib/gossip/joiner.js:167-189 | A join that starts no group is called back exactly once, on the next tick, and with nothing but that outcome. |
| Joining.DistinctHostsGoOn | packages/ringpop/lib/gossip/joiner.js:62-115 | With distinct hosts, one of them another node, and a requested size of at least 1, that condition holds if and only if the parallelism is not 0. |
| Joining.GroupDecides | packages/ringpop/lib/gossip/joiner.js:200-249 | On every run, the reply that has enough nodes joined, or is the last of its group, finishes the group, and no other; then the outcome is the abortion if and only if ringpop is destroyed, completion with these nodes and responses if and only if it is not and enough are joined, the exceeded duration if and only if neither holds and too much time has passed, and otherwise a retry is pending. |
| Joining.OnlyGroupsDecide | packages/ringpop/lib/gossip/joiner.js:200-249 | Nothing else gives a started join an outcome or takes it back. |
| Joining.JoinSizeIsCapped | packages/ringpop/lib/gossip/joiner.js:97-102 | As many nodes are to be joined as requested or as there are other hosts, whichever is less, repetitions included. |
| Joining.GroupHasItsSize | packages/ringpop/lib/gossip/joiner.js:412-450 | On every run a selected group has as many nodes as are missing times the parallelism, or takes all that its round has left. |
| Joining.RunExact | packages/ringpop/lib/gossip/joiner.js:200-249 | On every run, hosts repeated or not: as multisets, the nodes joined, asked and not answered, and left in the round are together at most the hosts; the responses collected are those of the nodes listed, at most once each. |
| Joining.CompletedJoinIsExact | packages/ringpop/lib/gossip/joiner.js:167-249 | A join that completes has joined exactly joinSize bootstrap hosts other than this one, none more often than it is listed, whatever the order of replies and however many are in flight; it merges at most one response for each and of nobody else, and exactly these in order when replies carry a body; with distinct hosts the nodes joined are all different. |
| Joining.RoundsAreFair | packages/ringpop/lib/gossip/joiner.js:412-450 | Nodes asked in this round and nodes left in it are together what the round began with; a retry begins a new round, with all hosts not joined, only once every node of the last was asked. |
| Joining.JoinedNodesAreNotAskedAgain | packages/ringpop/lib/gossip/joiner.js:123-131 | When a group is selected for a retry, no node is joined, in the group and left in the round more often than it is a host; so with distinct hosts neither the group nor the round holds a joined node. |
| Joining.RepeatedHostIsJoinedTwice | packages/ringpop/lib/gossip/joiner.js:123-131 | A run that shows that repetitions count: with the other host listed twice, it is asked twice in one group, and both answers complete a join of size 2. |
| Joining.NoNodeTwiceInARound | packages/ringpop/lib/gossip/joiner.js:412-450 | No node is asked in a round more often than it is a host; so with distinct hosts none is asked twice. |
| Joining.DelaysNeverShrink | packages/ringpop/lib/gossip/joiner.js:271-280 | On every run the delays between retries never decrease, never exceed the cap, and stay at it once they reach it. |
| Joining.TroubleLoggedAtMostOnce | packages/ringpop/lib/gossip/joiner.js:282-299 | On every run the error that the join is in trouble is logged at most once. |
| Joining.TroubleIsLoggedIff | packages/ringpop/lib/gossip/joiner.js:282-299 | On every run the error that the join is in trouble is logged if and only if that is enabled and some delay has reached the cap, unless every delay is at it. |
| Joining.RetriesAreBounded | packages/ringpop/lib/gossip/joiner.js:200-320 | By a clock that does not run back, the waits before the last one fit into maxJoinDuration; so there are at most floor(maxJoinDuration/min(delayMin,delayMax))+1 retries. |
| Joining.Joiner.constructor | packages/ringpop/lib/gossip/joiner.js:62-121 | A new joiner has no round, no responses and the smallest delay; it demands a bootstrap list that is not empty. |
| Joining.Joiner.Create | packages/ringpop/lib/gossip/joiner.js:73-78 | No joiner if and only if the bootstrap list is empty. |
| Joining.Joiner.TakeNode | packages/ringpop/lib/gossip/joiner.js:55-60 | Returns the node at the index and leaves the others, as a multiset and in order. |
| Joining.Joiner.Init | packages/ringpop/lib/gossip/joiner.js:153-165 | Starts a new round over the hosts not joined. |
| Joining.Joiner.FillGroup | packages/ringpop/lib/gossip/joiner.js:443-449 | The while loop computes the specified selection. |
| Joining.Joiner.SelectNodes | packages/ringpop/lib/gossip/joiner.js:412-450 | A group from the current round, or from a new one once it is exhausted. |
| Joining.Joiner.JoinGroup | packages/ringpop/lib/gossip/joiner.js:324-379 | Refines the step that begins a group. |
| Joining.Joiner.BeginGroup | packages/ringpop/lib/gossip/joiner.js:334-338 | The selected nodes become the group, with nothing answered. |
| Joining.Joiner.Join | packages/ringpop/lib/gossip/joiner.js:167-198 | Refines the beginning of a run: the callback is left to the next tick if ringpop is destroyed or this node is the whole bootstrap list; otherwise the first group begins. |
| Joining.Joiner.OnTick | packages/ringpop/lib/gossip/joiner.js:170-189 | Refines the callback on the next tick. |
| Joining.Joiner.NoteReply | packages/ringpop/lib/gossip/joiner.js:340-350 | A reply keeps the response while responses are collected and lists its node while the group is not done. |
| Joining.Joiner.OnNodeReply | packages/ringpop/lib/gossip/joiner.js:381-410 | Refines the event of one reply. |
| Joining.Joiner.OnGroupDone | packages/ringpop/lib/gossip/joiner.js:200-249 | Refines what follows a finished group: give up, complete, or wait. |
| Joining.Joiner.ScheduleRetry | packages/ringpop/lib/gossip/joiner.js:274-320 | Keeps the new delay and logs trouble exactly when it reaches the cap for the first time. |
| Joining.Joiner.OnRetryTimeout | packages/ringpop/lib/gossip/joiner.js:317-320 | Refines the retry event. |
| Delays.DelayBounds | packages/ringpop/lib/backoff.js:72-79 | However the draws fall, a delay is at least the unfuzzed one or the cap, at most the cap, and at most 1.5 times the unfuzzed one. |
| Delays.DelayIsPossibleIff | packages/ringpop/lib/backoff.js:72-79 | A delay is possible before an attempt if and only if it is the smallest delay, doubled for each attempt before, with less than half of that again in whole milliseconds, cut off at the cap. |
| Delays.DelaysNeverDecrease | packages/ringpop/lib/backoff.js:72-79 | A later attempt never waits less than an earlier one, and the cap is kept once reached. |
| Delays.WaitsThatFit | packages/ringpop/lib/backoff.js:72-116 | No more than t/min(minDelay,maxDelay) of the least waits fit into a time t. |
| BackoffPolicy.Backoff.constructor | packages/ringpop/lib/backoff.js:54-68 | Absent and zero delays take the defaults of 500 and 15000; the bounds are kept. |
| BackoffPolicy.Backoff.Retry | packages/ringpop/lib/backoff.js:90-116 | Refuses by the number of retries first, then by the elapsed time, and otherwise waits the fuzzed delay; the first try is timed once. |
| BackoffPolicy.Backoff.OnTimeout | packages/ringpop/lib/backoff.js:108-114 | Counts the attempt and forgets the timer. |
| DiscoverProviders.RunKeepsInv | packages/ringpop/discover-providers.js:93-127 | On every timed run the attempts, the first try and the clock are tied together by the least time that the waits take. |
| DiscoverProviders.AnswerDecides | packages/ringpop/discover-providers.js:112-127 | On every run, an answer with hosts and no error is reported; another gives up if and only if there were as many answers before as retries are allowed, or else if more than the timeout has passed since the first answer, each with its error and the last answer's; and otherwise the provider waits one of the delays possible after as many attempts. |
| DiscoverProviders.CallsAreBounded | packages/ringpop/discover-providers.js:93-127 | On every run: at most retries+1 calls of the wrapped provider; with a timeout T at most floor(T/min(minDelay,maxDelay))+2, and no more than leave the waits before the last one within T. |
| DiscoverProviders.DefaultPolicyCallsAtMostNineTimes | packages/ringpop/discover-providers.js:95-105 | The default policy never asks the wrapped provider more than nine times. |
| DiscoverProviders.ReportsFirstGoodAnswer | packages/ringpop/discover-providers.js:112-127 | On every run there is at most one report; it is a success if and only if some answer was good, and then carries the hosts of the first good answer; a failure carries the error of the last answer. |
| DiscoverProviders.ReportIsReached | packages/ringpop/discover-providers.js:93-127 | With a bound on the retries, or a timeout and delays that are not zero, every run is shorter than two events for each call that the policy leaves, and it has reported if and only if it cannot go on. |
| DiscoverProviders.UnboundedIsNeverReported | packages/ringpop/discover-providers.js:93-127 | Without either bound there are runs of every length without a report. |
| DiscoverProviders.RetryingProvider.constructor | packages/ringpop/discover-providers.js:93-112 | Asks the wrapped provider at once. |
| DiscoverProviders.RetryingProvider.OnTry | packages/ringpop/discover-providers.js:118-126 | Refines the event of one answer. |
| DiscoverProviders.RetryingProvider.OnTimeout | packages/ringpop/discover-providers.js:112-118 | Refines the event of one wake-up. |
| Dissemination.CounterIsExact | packages/ringpop/lib/gossip/dissemination.js:86-150 | On every run the counter of a change is how often acknowledged and returned lists matched it since it was recorded; when recorded changes have ids of their own this is the number of lists returned as receiver that held it plus the number of acknowledged lists issued as sender that held it. |
| Dissemination.DroppedOnlyWhenExhausted | packages/ringpop/lib/gossip/dissemination.js:175-206 | On every run issuing drops a change if and only if it is not filtered and was matched at least as many times as the maximum of that moment; when recorded changes have ids of their own it was issued that many times. |
| Dissemination.LateAckRaisesMatches | packages/ringpop/lib/gossip/dissemination.js:92-150 | On every run, whatever the ids: an acknowledgement raises a counter by one if its list has a change for that address with that id, and otherwise leaves it. |
| Dissemination.LateAckSparesNewerChangeIff | packages/ringpop/lib/gossip/dissemination.js:92-150 | On every run, whatever the ids: a late acknowledgement leaves alone a change that is not in its list if and only if every change of the list at that address has another id. |
| Dissemination.LateAckSparesNewerChange | packages/ringpop/lib/gossip/dissemination.js:103-109 | When recorded changes have ids of their own, an acknowledgement, however late, raises by one exactly the changes of its own list that are still in the table, and no newer change at the same address. |
| Dissemination.WithoutIdsTheNewerChangeIsBumped | packages/ringpop/lib/gossip/dissemination.js:103-109 | A run that shows it: for two changes without ids the acknowledgement of the replaced one counts for the newer one. |
| Dissemination.CountersAreBounded | packages/ringpop/lib/gossip/dissemination.js:86-150 | On every run with the maximum never above P and at most k issues as sender outstanding at once, a counter exceeds P+k by no more than the number of times full syncs matched its change since it was recorded. |
| Dissemination.SyncsMatchNoId | packages/ringpop/lib/gossip/dissemination.js:113-150 | The members that a full sync lists carry no ids, so full syncs never match a change with an id: its counter never exceeds P+k. |
| Dissemination.SyncsMatchNothing | packages/ringpop/lib/gossip/dissemination.js:65-150 | Under that condition full syncs match no entry of the table. |
| Dissemination.CountersStayWithin | packages/ringpop/lib/gossip/dissemination.js:65-150 | As long as every recorded change that a sender can be filtered for has an id, which holds of all that the source builds, no counter exceeds P+k on any run, whatever the ids of the others. |
| Dissemination.LiftedPastMaximumIff | packages/ringpop/lib/gossip/dissemination.js:113-150 | An issue as receiver lifts a counter past the maximum of that moment if and only if it is a full sync, the change is filtered, and the members it lists match it often enough. |
| Dissemination.FullSyncsRaiseWithoutBound | packages/ringpop/lib/gossip/dissemination.js:113-150 | The runs that show it, for any change that can be filtered and has no id: after n full syncs to the node that it came from, its counter is n, with the maximum at 1 and nothing outstanding. |
| Dissemination.ReceiverIssuesExhaust | packages/ringpop/lib/gossip/dissemination.js:113-206 | On every run, whatever the ids: with nothing recorded and nothing filtered, more than P issues as receiver empty the table, and changesExhausted is emitted exactly once if the table had entries and is now empty, else not at all. |
| Dissemination.LogCountsDigits | packages/ringpop/lib/gossip/dissemination.js:42-45 | The ceiling of the decimal logarithm of n+1 is the number of decimal digits of n. |
| Dissemination.MaximumIsPerDigit | packages/ringpop/lib/gossip/dissemination.js:42-49 | The adjusted maximum is fifteen per decimal digit of the number of servers. |
| Dissemination.RunKeepsInv | packages/ringpop/lib/gossip/dissemination.js:86-206 | On every run there is one entry per address and one change per address in every outstanding list; when recorded changes have ids of their own, only recorded changes are held or outstanding, and counters are exact. |
| Dissemination.BumpExact | packages/ringpop/lib/gossip/dissemination.js:132-138 | Bumping by a list without repetition raises by one exactly the entries whose change is in it. |
| Dissemination.PutMembers | packages/ringpop/lib/gossip/dissemination.js:156-161 | Recording replaces the entry of the address and keeps the others. |
| Dissemination.MaximumFollowsEvents | packages/ringpop/lib/gossip/dissemination.js:42-59 | On every run the maximum is what the last adjustment or reset left. |
| Dissemination.TableFollowsEvents | packages/ringpop/lib/gossip/dissemination.js:61-206 | On every run the table holds for an address exactly the last change recorded, unless it was cleared since, or an issue that did not filter it found it matched as often as the maximum. |
| Dissemination.WhatIsIssued | packages/ringpop/lib/gossip/dissemination.js:86-206 | On every run an issue as sender carries exactly the changes of the table matched less often than the maximum, each once; an issue as receiver exactly those of them that did not come from the sender with its incarnation number, or when there are none and the checksums differ the whole membership. |
| Dissemination.Disseminator.constructor | packages/ringpop/lib/gossip/dissemination.js:29-38 | The table is empty and the maximum is 1. |
| Dissemination.Disseminator.RecordChange | packages/ringpop/lib/gossip/dissemination.js:156-161 | Refines the record event. |
| Dissemination.Disseminator.IssueOne | packages/ringpop/lib/gossip/dissemination.js:180-206 | One turn of the loop skips, deletes or issues one entry, and tells when it deleted the last one. |
| Dissemination.Disseminator.IssueAs | packages/ringpop/lib/gossip/dissemination.js:175-219 | The loop that deletes while it walks computes the specified table and list, and counts the exhaustion once. |
| Dissemination.Disseminator.RaiseCounters | packages/ringpop/lib/gossip/dissemination.js:132-138 | The loop bumps by every issued change that is still in the table under its id. |
| Dissemination.Disseminator.IssueAsSender | packages/ringpop/lib/gossip/dissemination.js:86-90 | Refines the issue as sender. |
| Dissemination.Disseminator.OnIssue | packages/ringpop/lib/gossip/dissemination.js:90-110 | Refines the reply to an issue as sender: bumps if and only if there was no error. |
| Dissemination.Disseminator.IssueAsReceiver | packages/ringpop/lib/gossip/dissemination.js:113-150 | Refines the issue as receiver; it is a full sync if and only if nothing was issued and the checksums differ. |
| Dissemination.Disseminator.AdjustMaxPiggybackCount | packages/ringpop/lib/gossip/dissemination.js:42-59 | Refines the adjustment. |
| StateTransitions.RunKeepsInv | packages/ringpop/lib/gossip/state_transitions.js:55-177 | On every run every table entry holds its own handle, and every live timeout is held by the entry of its address. |
| StateTransitions.TableFollowsLastStatus | packages/ringpop/lib/gossip/state_transitions.js:55-177 | While enabled, the table holds for every non-local address exactly the last handled status if that is suspect, faulty or tombstone, and nothing otherwise; while disabled no timeout is live. |
| StateTransitions.NoStaleTransition | packages/ringpop/lib/gossip/state_transitions.js:73-136 | A live timeout acts on a non-local address whose last handled status is still its own, carries the incarnation number of the first update in the unbroken row with that status, and is the only one of its address. |
| StateTransitions.TimeoutActs | packages/ringpop/lib/gossip/state_transitions.js:73-94 | On every run a live timeout of a suspect makes it faulty, of a faulty member makes it a tombstone, and of a tombstone evicts it, with the incarnation number of the first update of the row, after the period of that status. |
| StateTransitions.SuspectIsEvictedInTheEnd | packages/ringpop/lib/gossip/state_transitions.js:55-136 | A suspect that nothing contradicts is made faulty, then a tombstone, and then evicted, each action coming back as an update, with its own incarnation number and each after its period, whatever else happens meanwhile; afterwards nothing waits for it. |
| StateTransitions.FirstOfTheRowIsCarried | packages/ringpop/lib/gossip/state_transitions.js:108-136 | The run that shows it: of two updates in a row with the same timed status, the live timeout carries the first, and acts with its incarnation number. |
| StateTransitions.Transitions.constructor | packages/ringpop/lib/gossip/state_transitions.js:26-38 | Enabled with an empty table. |
| StateTransitions.Transitions.SetTimeout | packages/ringpop/lib/gossip/state_transitions.js:122-125 | A scheduled transition gets a handle of its own. |
| StateTransitions.Transitions.ClearTimeout | packages/ringpop/lib/gossip/state_transitions.js:147-147 | A cleared timeout is no longer live. |
| StateTransitions.Transitions.HandleUpdate | packages/ringpop/lib/gossip/state_transitions.js:55-71 | Refines the event of one update. |
| StateTransitions.Transitions.ScheduleTransition | packages/ringpop/lib/gossip/state_transitions.js:96-136 | Does nothing when disabled, for the local member, or for the status already scheduled; otherwise replaces the entry and its timeout. |
| StateTransitions.Transitions.CancelTimer | packages/ringpop/lib/gossip/state_transitions.js:138-154 | Removes the entry of the address and its live timeout. |
| StateTransitions.Transitions.OnTimeout | packages/ringpop/lib/gossip/state_transitions.js:73-94 | A timeout that fires makes a suspect faulty, a faulty member a tombstone, and evicts a tombstone, as its captured update says, and leaves the entry in the table. |
| StateTransitions.Transitions.Disable | packages/ringpop/lib/gossip/state_transitions.js:156-177 | The loop clears every timeout of the table and empties it. |
| StateTransitions.Transitions.ClearTimers | packages/ringpop/lib/gossip/state_transitions.js:156-177 | The loop over the table clears every timeout that an entry holds, and no other. |
| StateTransitions.Transitions.Enable | packages/ringpop/lib/gossip/state_transitions.js:40-53 | Refines the enable event. |
| MembershipHandlers.RingFollowsUpdatedIff | packages/ringpop/lib/on_membership_event.js:123-149 | If the ring holds exactly the addresses last seen alive or suspect, it still does after a batch if and only if no update of the batch removes an address that its last update in the batch puts on the ring. |
| MembershipHandlers.RevivedMemberIsOffTheRing | packages/ringpop/lib/on_membership_event.js:123-149 | A batch that shows it: a member on the ring that is reported faulty and then alive again, with higher incarnation numbers, is off the ring although its last status is alive. |
| MembershipHandlers.RingFollowsSetIff | packages/ringpop/lib/on_membership_event.js:56-80 | After a batch of initial members it still does if and only if no address whose last update takes it off the ring is on it. |
| MembershipHandlers.OneUpdateEachIsFinal | packages/ringpop/lib/on_membership_event.js:123-149 | A batch with at most one update for each address meets that condition. |
| MembershipHandlers.MergedMembersHaveNothingToRemove | packages/ringpop/lib/on_membership_event.js:56-80 | A batch of initial members with one update for each address, none of them on the ring yet, leaves nothing to remove. |
| MembershipHandlers.EntryIsLastRecord | packages/ringpop/lib/on_membership_event.js:113-121 | Whatever the ids, an entry of the change table is the last change recorded for its address, on every run. |
| MembershipHandlers.ConsumersAgree | packages/ringpop/lib/on_membership_event.js:113-149 | On every run of such batches with transitions enabled: an address is on the ring if and only if its last status is alive or suspect, has a timer if and only if it is suspect, faulty or tombstone, and its entry in the change table is its last update; so nobody who waits to be tombstoned or evicted is on the ring. |
| MembershipHandlers.HashRing.constructor | packages/ringpop/lib/on_membership_event.js:123-149 | The ring, as the set of its servers, starts empty. |
| MembershipHandlers.HashRing.AddRemoveServers | packages/ringpop/lib/on_membership_event.js:142-147 | Adds all, then removes all. |
| MembershipHandlers.Handlers.constructor | packages/ringpop/lib/on_membership_event.js:151-161 | The handlers start with the consumers' initial states. |
| MembershipHandlers.Handlers.OnUpdatedForGossip | packages/ringpop/lib/on_membership_event.js:113-121 | The loop hands each update of the batch to the transitions and to the change table, in order. |
| MembershipHandlers.Handlers.OnUpdatedForRing | packages/ringpop/lib/on_membership_event.js:123-149 | The loop sorts the batch into additions and removals and applies both at once, or nothing when both are empty. |
| MembershipHandlers.Handlers.OnMembershipSet | packages/ringpop/lib/on_membership_event.js:56-80 | The loop hands each update to the transitions and adds the alive and suspect ones to the ring. |
| SkyringTimer.RunKeepsInv | packages/skyring/lib/timer.js:163-413 | Every legal run keeps the invariant of map, store, live timeouts, the queue of pending storage operations, and what a shutdown hands over. |
| SkyringTimer.MapStoreAndTimeoutsAgree | packages/skyring/lib/timer.js:163-526 | On every run, through rebalances, recoveries and shutdowns (first-in first-out store, no create for an id whose put is pending or that a shutdown hands over): every id in the map is in the store with the same contents, every live timeout is the one that the only map entry of its id holds, no id has two, and none is due before its deadline. |
| SkyringTimer.NoTimerIsLost | packages/skyring/lib/timer.js:163-526 | On every legal run this node holds an id, in its map or as a pending put, if and only if it entered and has not left since, by a failed put, a removal, a rebalance or a shutdown. |
| SkyringTimer.AskedIsHeldOrExecuted | packages/skyring/lib/timer.js:163-212 | An id asked for by a create, an update or the recovery, with a transport this node knows, is held afterwards, or was added once to what this node executed, as stale. |
| SkyringTimer.AskingDecides | packages/skyring/lib/timer.js:163-241 | A timer that is asked for, by a create, an update or the recovery, is queued with the time left if its transport is known, its id new and its time not over; is executed once with its payload if only its time is over; and otherwise nothing comes of it. |
| SkyringTimer.AdmittedIsKept | packages/skyring/lib/timer.js:163-241 | An admitted timer is the one this node holds from then on, with its payload and creation time, until it leaves. |
| SkyringTimer.RemovalAsksIff | packages/skyring/lib/timer.js:317-337 | A removal asks for a new timer if and only if it is that of an update, succeeds, and finds the entry. |
| SkyringTimer.UpdateCreatesAnew | packages/skyring/lib/timer.js:437-443 | After an update, once storage operations and continuations are over, the id is in the map with the new payload, created when that says or else after the update, its timeout executes that payload and is not due before its deadline; unless its removal failed or found no entry, the new timer was not admitted, or its put failed or it left. |
| SkyringTimer.FiringExecutes | packages/skyring/lib/timer.js:229-236 | A timeout that fires executes once the payload of the map entry that holds it, and is live no more. |
| SkyringTimer.FiresOnce | packages/skyring/lib/timer.js:229-236 | On every legal run no timeout fires twice. |
| SkyringTimer.QueueIsFifo | packages/skyring/lib/timer.js:163-526 | On every legal run the pending storage operations are those asked for, in order, less those completed. |
| SkyringTimer.StoreFollowsCompletions | packages/skyring/lib/timer.js:163-526 | On every run the store holds under an id what the last operation on it that completed without an error left. |
| SkyringTimer.RecoveryRestoresEveryTimer | packages/skyring/lib/timer.js:386-413 | After a recovery whose stream is delivered and whose puts have completed, every timer stored when it began, with a transport this node knows, is in the map, unless since then it was executed as stale, handed out, removed, or its put failed. |
| SkyringTimer.SecondPutLeaksIff | packages/skyring/lib/timer.js:212-241 | A completing put breaks that agreement if and only if the id already has an entry whose timeout is live. |
| SkyringTimer.TwoPendingPutsLeak | packages/skyring/lib/timer.js:172-241 | The run that shows it: two creates of one id before the first put completes leave two live timeouts. |
| SkyringTimer.DeadlineSurvives | packages/skyring/lib/timer.js:178-238 | Through any chain of hand-overs a timer runs at the first node it reaches after created+timeout and only there; otherwise it ends up armed for exactly the time left, with creation time and payload unchanged. |
| SkyringTimer.RebalanceConserves | packages/skyring/lib/timer.js:340-384 | After a rebalance the map is exactly the owned records; each record not owned is handed out once, is in the delete batch once, and has no live timeout; owned ones keep theirs. |
| SkyringTimer.BatchWrittenOnceWhenAllAcknowledged | packages/skyring/lib/timer.js:470-526 | A shutdown requests each record once with counts 1..size; in whatever order the requests are acknowledged, each at most once, the batch of exactly these ids is written at most once, and if and only if all are acknowledged; this node disconnects only after that. |
| SkyringTimer.ShutdownRequestsIff | packages/skyring/lib/timer.js:470-526 | A shutdown asks the other nodes to take an id if and only if this node holds it and its put is not pending; afterwards this node holds exactly the ids whose put is pending. |
| SkyringTimer.LatePutStaysBehind | packages/skyring/lib/timer.js:212-241 | A put that is pending at a shutdown and completes after it leaves its id in the map of the node that leaves, unless it failed or the id has left again. |
| SkyringTimer.PutAfterShutdownIsArmed | packages/skyring/lib/timer.js:212-241 | A run that shows it: a put that completes after the shutdown arms its timeout on the node that leaves, and nothing is handed over. |
| SkyringTimer.Timer.constructor | packages/skyring/lib/timer.js:109-124 | The map is empty whatever the store holds. |
| SkyringTimer.Timer.Find | packages/skyring/lib/timer.js:172-172 | The position of the only entry of an id, or none. |
| SkyringTimer.Timer.Create | packages/skyring/lib/timer.js:163-212 | Unknown transport, existing id, stale (executed at once with its payload, nothing stored) or put with the time that is left: the verdict and the new state. |
| SkyringTimer.Timer.OnPut | packages/skyring/lib/timer.js:212-241 | Refines the completion of a put: stores, arms and enters the timer, or nothing on an error. |
| SkyringTimer.Timer.Forget | packages/skyring/lib/timer.js:331-332 | Takes one entry off the map and clears its timeout, and no other. |
| SkyringTimer.Timer.Unlist | packages/skyring/lib/timer.js:322-335 | Takes the entry of a removal and its timeout off the map if there is one, and then lets an update go on. |
| SkyringTimer.Timer.RemoveTimer | packages/skyring/lib/timer.js:316-317 | Queues the removal. |
| SkyringTimer.Timer.OnDel | packages/skyring/lib/timer.js:317-337 | Refines the completion of a removal; an entry is found if and only if the id is in the map, and then an update goes on. |
| SkyringTimer.Timer.OnRemoved | packages/skyring/lib/timer.js:437-443 | Refines the second half of an update. |
| SkyringTimer.Timer.OnRecoverData | packages/skyring/lib/timer.js:392-401 | Refines one entry of the recovery stream. |
| SkyringTimer.Timer.Evict | packages/skyring/lib/timer.js:353-375 | Takes one record off this node and hands it out. |
| SkyringTimer.Timer.EvictNotOwned | packages/skyring/lib/timer.js:352-379 | The loop that deletes while it walks evicts exactly the records not owned, in order, and collects exactly their ids. |
| SkyringTimer.Timer.Rebalance | packages/skyring/lib/timer.js:340-384 | Refines the rebalance event; an empty map writes nothing. |
| SkyringTimer.Timer.Shutdown | packages/skyring/lib/timer.js:470-526 | Refines the shutdown event: the loop clears every timeout, requests every record with its count, and empties the map; with an empty map it disconnects at once. |
| SkyringTimer.Timer.Ask | packages/skyring/lib/timer.js:494-505 | Clears the timeout of one record and asks for it to be created elsewhere with its creation time. |
| SkyringTimer.Timer.OnHandedOver | packages/skyring/lib/timer.js:505-511 | Refines the hand-over: the batch of exactly the ids handed over goes to the store. |
| SkyringTimer.Handover.constructor | packages/skyring/lib/timer.js:487-490 | No request is acknowledged yet. |
| SkyringTimer.Handover.OnReply | packages/skyring/lib/timer.js:505-513 | Counts a reply and writes the batch exactly on the reply that completes the count. |
| SkyringTimer.Handover.OnBatchWritten | packages/skyring/lib/timer.js:506-509 | Disconnects once the batch is written. |
| Client.NextKeepsSound | packages/ringpop/client_request.js:59-217 | Whatever happens to a request: its callback has run with its first outcome and no other, its state tells how far it got, it never goes back, and nobody is left waiting without a callback. |
| Client.RunKeepsTable | packages/ringpop/client.js:117-201 | The invariant of every run of the table and its requests. |
| Client.RunKeepsRejections | packages/ringpop/client.js:178-189 | On every run a rejected request met a full table, and its callback has run once, or not yet. |
| Client.CalledBackOnceAndTracked | packages/ringpop/client.js:164-201 | Under every interleaving of cancellations, completions and late completions: an admitted request is called back at most once, with its first outcome; it is in the table if and only if it was not called back, and then somebody can still answer it; the table never exceeds the limit. |
| Client.EveryRequestIsAccountedFor | packages/ringpop/client.js:164-201 | Every request ever made was rejected at the limit, is in flight, or was called back once, and never two of these; a rejected one is called back once too, on the next tick, with a limit error that reports a full table. |
| Client.OutcomeIsTheFirst | packages/ringpop/client_request.js:51-167 | On every run the callback of an admitted request is run with what the first of its events that can end it says, and with nothing else: the error and response returned, the reason of a failed identification, the local error of the tick, or the cancellation, by a scan too; its timestamp is that of its send. |
| Client.HeardInOrder | packages/ringpop/client_request.js:59-167 | On every run an admitted request hears in order from the identification, the request middlewares, the channel and the response middlewares, or from the tick alone if it could not be sent, and waits for the next of them unless it was called back. |
| Client.AdmittedIffBelowLimit | packages/ringpop/client.js:178-194 | A request is admitted if and only if the table is below the limit; either way the requests in flight are untouched. |
| Client.RequestsOnlyGoForward | packages/ringpop/client_request.js:185-217 | However a run goes on, no request disappears, goes back to an earlier state, or is called back anew. |
| Client.CancellationIsFinal | packages/ringpop/client_request.js:51-57 | A request canceled in flight is called back with the cancellation, whatever arrives later. |
| Client.CanceledIsNotSentOn | packages/ringpop/client_request.js:100-151 | A request that is canceled hears no more than its identification if that had not come, no more than the channel's answer if it was not sent or not answered by then, and the response middlewares if it was; and then nobody goes on. |
| Client.RunKeepsScan | packages/ringpop/client.js:117-134 | The invariant of every run with a scan in progress: what is behind it is canceled when wedged. |
| Client.ScanLeavesNoWedgedRequest | packages/ringpop/client.js:117-147 | When a scan gets to its end, no request it listed that is older than the timeout is left in the table, whatever its callbacks did meanwhile; it returns exactly the wedged ones it listed, in order, each called back with the cancellation. |
| Client.ScanFailsIff | packages/ringpop/client.js:124-133 | On every run a scan fails at the next request it listed if and only if that request was called back before, by something other than this scan; otherwise it goes on. |
| Client.CancelingAheadFails | packages/ringpop/client.js:124-133 | Canceling the request that any scan would look at next makes the scan fail. |
| Client.FailedScanIsTheLast | packages/ringpop/client.js:203-210 | After a scan by the timer has failed, no wedge timeout is pending and no scan by the timer in progress ever again. |
| Client.ScanListsTheTable | packages/ringpop/client.js:122-123 | What a scan lists is the table at the moment it began, until it ends or fails. |
| Client.OneWedgeTimer | packages/ringpop/client.js:203-210 | From the first request until destroy, exactly one wedge timeout is pending or its scan in progress if and only if no scan by the timer has failed, and never more than one. |
| Client.DestroyIsFinal | packages/ringpop/client.js:106-113 | Once it is destroyed, outside a scan by the timer and after its first request, the client never has a wedge timeout nor a scan by one again. |
| Client.TimeoutBegins | packages/ringpop/client.js:205-209 | A wedge timeout that fires begins a scan if and only if the client is not destroyed. |
| Client.LookedIsARun | packages/ringpop/client.js:124-134 | A scan without interruption is the run of its events. |
| Client.ClientRequest.constructor | packages/ringpop/client_request.js:34-47 | A new request is initialized, not canceled and has its callback. |
| Client.ClientRequest.InvokeCallback | packages/ringpop/client_request.js:199-217 | Runs the callback if and only if it was not run before. |
| Client.ClientRequest.Send | packages/ringpop/client_request.js:59-98 | Waits for the channel to identify the host, or for the next tick when the channel or host is unusable. |
| Client.ClientRequest.OnIdentified | packages/ringpop/client_request.js:100-116 | Refines the identification: ends when canceled, calls back with the error, or goes on. |
| Client.ClientRequest.OnSend | packages/ringpop/client_request.js:139-151 | Refines the channel's answer: ends when canceled, or goes on to the response middlewares. |
| Client.ClientRequest.Cancel | packages/ringpop/client_request.js:51-57 | Refines the cancellation. |
| Client.ClientRequest.Handle | packages/ringpop/client_request.js:59-167 | Each of the things that can happen to a request refines the model. |
| Client.RingpopClient.constructor | packages/ringpop/client.js:32-58 | The table is empty and no timer is set. |
| Client.RingpopClient.ScheduleWedgedTimer | packages/ringpop/client.js:203-210 | Sets one more timeout. |
| Client.RingpopClient.Enroll | packages/ringpop/client.js:191-194 | Files the request under its id, then sends it. |
| Client.RingpopClient.Reject | packages/ringpop/client.js:180-189 | Files nothing, and leaves the error to the next tick. |
| Client.RingpopClient.OnLimitTick | packages/ringpop/client.js:181-187 | The callback of a rejected request runs with the number in flight when it was made and the limit. |
| Client.RingpopClient.Admit | packages/ringpop/client.js:171-194 | Registers and sends, or rejects, by the size of the table alone. |
| Client.RingpopClient.Send | packages/ringpop/client.js:164-201 | Refines the send event; the first request starts the wedge timer. |
| Client.RingpopClient.OnRequest | packages/ringpop/client.js:196-200 | Refines a happening: a request whose callback runs is out of the table afterwards, and no other leaves it. |
| Client.RingpopClient.ListIds | packages/ringpop/client.js:122-122 | Lists every id of the table once. |
| Client.RingpopClient.CancelWedged | packages/ringpop/client.js:130-131 | Deletes the id, then cancels the request. |
| Client.RingpopClient.LookAtNext | packages/ringpop/client.js:125-133 | Refines one turn of the scan; the request is canceled if and only if it is wedged. |
| Client.RingpopClient.ScanAll | packages/ringpop/client.js:124-134 | The loop is the scan without interruption. |
| Client.RingpopClient.ScanForWedgedRequests | packages/ringpop/client.js:117-147 | A whole scan over a list of the table; returns the canceled requests. |
| Client.RingpopClient.OnWedgedTimeout | packages/ringpop/client.js:205-209 | Nothing when destroyed; otherwise a scan and a new timeout. |
| Client.RingpopClient.Destroy | packages/ringpop/client.js:106-113 | Clears the wedge timer and marks the client. |
| SelfEviction.RunKeepsInv | packages/ringpop/lib/self-evict.js:168-366 | The invariant of every run, with the countdowns of hooks and pings. |
| SelfEviction.HistoryIsPrefix | packages/ringpop/lib/self-evict.js:186-298 | The phase history of every run is a prefix of pre_evict, evicting, post_evict, done. |
| SelfEviction.BarriersHold | packages/ringpop/lib/self-evict.js:186-258 | No post hook starts before every pre hook has finished, the node is marked faulty, and every ping is answered; the node is marked faulty only after every pre hook; the callback comes only after every hook of both kinds and every ping. |
| SelfEviction.HooksAreRegistered | packages/ringpop/lib/self-evict.js:117-153 | On every run what is registered under a name is the first registration with a new, not empty name, a function for at least one kind and nothing but functions. |
| SelfEviction.HooksRunInTheirPhase | packages/ringpop/lib/self-evict.js:186-258 | On every run the hooks to run before the eviction are exactly those registered, when the sequence began, with a function preEvict, and the ones after it exactly those registered, when that phase began, with a function postEvict. |
| SelfEviction.DoneReportsTheSum | packages/ringpop/lib/self-evict.js:260-290 | The callback is called exactly when the sequence is done, once; the reported total is the sum of the durations of the phases; the evicting phase counts the successful pings. |
| SelfEviction.DurationsAddUp | packages/ringpop/lib/self-evict.js:279-290 | In any such history the durations add up to the time from the first phase to the last. |
| SelfEviction.SecondInitiateChangesNothing | packages/ringpop/lib/self-evict.js:168-177 | Initiating again, at any time, changes nothing in how the rest of the run goes. |
| SelfEviction.NeverStuck | packages/ringpop/lib/self-evict.js:186-366 | A sequence that has begun and is not done waits for something that can happen next. |
| SelfEviction.EveryAnswerMakesProgress | packages/ringpop/lib/self-evict.js:186-366 | And each answer begins the next phase or leaves less to wait for in this one. |
| SelfEviction.TicksUntilNextPhase | packages/ringpop/lib/self-evict.js:186-366 | After the last hook the next phase begins with the second tick, after the last ping with the first. |
| SelfEviction.EmptyPhaseGoesOn | packages/ringpop/lib/self-evict.js:306-343 | A phase without hooks or pings goes on with the next tick. |
| SelfEviction.SomebodyIsPingedIff | packages/ringpop/lib/self-evict.js:195-212 | For every configured ratio: somebody is to be pinged if and only if limit, members and ratio are positive, or a ratio above -1 makes the slice end before the last member; never more than the pingable members, and with a ratio that is not negative never more than the limit or than its share, rounded up. |
| SelfEviction.PingsKeepToLimitIff | packages/ringpop/lib/self-evict.js:204-212 | The pings are no more than the limit of the change table if and only if the ratio is not negative, or the share is above -1, or the members less what the share cuts off are no more than the limit. |
| SelfEviction.NegativeRatioPingsPastTheLimit | packages/ringpop/lib/self-evict.js:204-212 | The run that shows it: with a ratio of -0.5 and a limit of 1, five of ten pingable members are pinged. |
| SelfEviction.PingsAreAsConfigured | packages/ringpop/lib/self-evict.js:195-249 | On every run, from the eviction on: the evicting phase reports as many pings as the view of that moment gives, and they were sent if and only if pings are enabled; so somebody was pinged if and only if they are and that view leaves somebody, and no more than the limit if and only if they are not or that view keeps to it. |
| SelfEviction.SelfEvict.constructor | packages/ringpop/lib/self-evict.js:67-98 | No hooks and no phases. |
| SelfEviction.SelfEvict.CurrentPhase | packages/ringpop/lib/self-evict.js:104-109 | The last phase, or none. |
| SelfEviction.SelfEvict.RegisterHooks | packages/ringpop/lib/self-evict.js:117-153 | Registers if and only if there are hooks under a name that is new and not empty, with a function for at least one kind and nothing but functions; otherwise each of the six errors is reported if and only if it is the first thing wrong. |
| SelfEviction.SelfEvict.Initiate | packages/ringpop/lib/self-evict.js:168-193 | Begins if and only if no phase was begun; refines the event. |
| SelfEviction.SelfEvict.TransitionTo | packages/ringpop/lib/self-evict.js:279-298 | Pushes the phase and ends the previous one at its time. |
| SelfEviction.SelfEvict.RunTheHooks | packages/ringpop/lib/self-evict.js:306-343 | Waits for all hooks of the kind, or only for a tick when there are none. |
| SelfEviction.SelfEvict.OnStartHook | packages/ringpop/lib/self-evict.js:345-364 | Refines the start of a hook. |
| SelfEviction.SelfEvict.OnHookDone | packages/ringpop/lib/self-evict.js:355-363 | Refines the completion of a hook; the last one lets the sequence go on. |
| SelfEviction.SelfEvict.OnPingDone | packages/ringpop/lib/self-evict.js:235-240 | Refines the completion of a ping; the last one lets the sequence go on. |
| SelfEviction.SelfEvict.EvictSelf | packages/ringpop/lib/self-evict.js:214-249 | Refines the eviction: faulty first, then the pings or a tick. |
| SelfEviction.SelfEvict.EndSequence | packages/ringpop/lib/self-evict.js:260-271 | Refines the end: total and callback. |
| SelfEviction.SelfEvict.OnTick | packages/ringpop/lib/self-evict.js:186-258 | Each tick refines the model; the last of a row begins the next phase. |
| KeyTree.ReplaceKeys | packages/ringpop/lib/util.js:98-139 | The recursive walk computes the converted value: a string is converted, in a tree only the keys are. |
| KeyTree.ReplaceItems | packages/ringpop/lib/util.js:106-116 | The loop over an array converts objects and arrays in place and keeps everything else. |
| KeyTree.ReplaceFields | packages/ringpop/lib/util.js:118-135 | The loop over an object assigns every value to its new key; an equal key keeps its place and takes the later value, and assigning to __proto__ adds nothing. |
| KeyTree.NoCollision | packages/ringpop/lib/util.js:118-135 | When new keys are distinct and none is __proto__, every property keeps its place and value. |
| KeyTree.LastValueWins | packages/ringpop/lib/util.js:118-135 | The new keys of an object are in the order in which they first come up, each once, and each holds the value of the last property converted to it. |
| KeyTree.LostTreeIsLighter | packages/ringpop/lib/util.js:98-139 | For any two conversions and any weight that every lost key lowers, unless its assignment is lost, a round trip never makes a tree heavier, and makes it lighter if any key is lost, whatever collides. |
| KeyTree.TreeRoundTripIff | packages/ringpop/lib/util.js:98-139 | For any two such conversions, a tree comes back from the round trip if and only if all its keys do. |
| KeyCase.KeyRoundTrip | packages/ringpop/lib/util.js:84-86 | toCamelCase undoes toSnakeCase or toLispCase on a key if and only if it has no two adjacent capitals, no separator before a lower-case letter and, for snake case, no capital first. |
| KeyCase.RoundTripBody | packages/ringpop/lib/util.js:141-151 | The same without the prefix rule, for either separator. |
| KeyCase.SplitLeavesAloneIff | packages/ringpop/lib/util.js:141-147 | Snake and lisp case leave a string alone if and only if it has no capital. |
| KeyCase.JoinLeavesAloneIff | packages/ringpop/lib/util.js:149-151 | Camel case leaves a string alone if and only if no underscore or hyphen comes before a lower-case letter. |
| KeyCase.CamelKeepsPrefix | packages/ringpop/lib/util.js:153-155 | The underscore-prefix rule never applies on the way back. |
| KeyCase.LostKeyIsLighter | packages/ringpop/lib/util.js:141-155 | A key that is not given back comes back with a smaller weight (two per character, one more per capital). |
| KeyCase.SurvivorsAreAssigned | packages/ringpop/lib/util.js:118-135 | Among the keys that come back as strings, exactly _Proto__ in snake case becomes __proto__. |
| KeyCase.RoundTrip | packages/ringpop/lib/util.js:180-182 | For every nested tree of objects and arrays, toCamelCase undoes toSnakeCase or toLispCase if and only if every key in it meets that condition and is not, for snake case, _Proto__; leaf values included. For a string argument, if and only if the string meets it. |
| KeyCase.SnakeCaseLosesProto | packages/ringpop/lib/util.js:129-131 | The object that shows it: {_Proto__: v} in snake case is the empty object. |
| KeyCase.SurvivorsDoNotCollide | packages/ringpop/lib/util.js:118-135 | And then no two keys of an object collide on the way, and each property keeps its place. |

## Left out

What surrounds the modelled code:

* TChannel, NATS, HTTP, levelup and the storage backends are foreign calls: their replies are events, at most one for
  each request. Where the source's state is set before the call, a callback that runs inside it is a run in which its
  event comes next; the damp-req fan-out sets its counters after its send loop, and its callbacks run later.
* Logging, statistics, error constructors, configuration seeding and event emission other than `changesExhausted`.
* Membership internals, changeset merge, the hash ring's own data structure and `join-response-merge.js`: the damper sees
  a member count and whether a member is known, the joiner sees the list of responses it would merge, the ring is the set
  of its servers.
* `gossip/ping-req-sender.js`, `gossip/index.js` and `handleOrProxyAll` in `index.js`: simpler scatter-gather than the
  damp-req quorum.
* `tryStartReverseFullSync` in `gossip/dissemination.js`: a job counter with a limit, which would only add easy members.
* The random choice of damp-req members; a random join target is an arbitrary index in range.
* `createStaticHostsProvider` and `createJsonFileDiscoverProvider`.

What the models simplify:

* Times and delays are integers, the join parallelism and self-eviction ratio are exact reals, and the decimal logarithm is
  exact: floating-point rounding is not modelled. Negative and fractional sizes, limits and durations in the configuration
  are not modelled.
* The clock is read once for each event, and may be set back, unless a lemma asks for one that does not run back
  (`Joining.RetriesAreBounded`, the timed runs of `DiscoverProviders`, the legal runs of `SkyringTimer`). In a
  batch that damps several members all are damped at the same time.
* Addresses, ids and hook names used as keys of plain objects are not `__proto__` and not the name of an inherited
  property.
* The members that a full sync lists carry no ids where a lemma says so; the source builds them without.
* In a timer's payload, `data` stands for everything but its timeout, creation time and transport.
* Map keys that look like integers, which JavaScript lists first, are listed in insertion order like the others; no
  modelled property depends on that order.
* The damper may have two chains of scheduled rounds after a stop and restart during a round. The model keeps only the
  field, so it does not count live damp timeouts.
* The updates that a transition asks membership for come back as `StateTransitions.FedBack` says; whether membership
  accepts them is not modelled.
* A `hosts` of `undefined` from a discover provider, on which the source throws.
* Storage completes operations in the order they were given. Whether storage that is
  closed still completes what is pending is not modelled. Replies to a shutdown's requests come at most once each, and
  nothing is created on a node for an id that its shutdown is handing over.
* The callback that `rebalance` gives each record to does not call back into the same timer node.
* The tick between the last hook of a phase and its callback and the one after it are counted, but ticks are not
  interleaved with other callbacks' ticks; each hook and each ping completes once.
* Client middlewares call on exactly once in each direction. Request ids are distinct. A scan for wedged requests
  that begins inside another is the cancellations it makes.
- Client.RingpopClient.ScanForWedgedRequests: runs its loop without interruption; that callbacks send requests meanwhile is covered by the event model (`Client.ScanLeavesNoWedgedRequest`).
- Client.RingpopClient.OnRequest: states the state in which the callback runs; what the callback itself does is a later event, which finds the request out of the table.
